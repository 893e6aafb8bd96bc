/** The authorization middleware that runs ahead of every protected request:
    whitelisted requests pass, everything else must carry an `authorization`
    header of two whitespace-separated words whose second word verifies as a
    session token. Every refusal is the same UNAUTHORIZED error. */
module AuthorizationGate {
  import opened Common
  import opened Text

  const TOKEN_PARTS: nat := 2
  const TOKEN_POSITION_VALUE: nat := 1
  const MIDDLEWARE_CONTEXT: string := "AuthorizationMiddleware"

  /** The verified token payload, cast to a session. */
  datatype Session = Session(sessionId: string, expiresAt: int)

  /** What the handler does: `next()` untouched, `next()` after attaching a
      session, or `next(error)`. */
  datatype Decision = Allow | Attach(session: Session) | Reject(error: ErrorValue)

  function GetUnauthorized(message: Message): (error: ErrorValue)
    ensures error.ApplicationError?
    ensures error.context == MIDDLEWARE_CONTEXT && error.message == message && error.status == Unauthorized
  {
    ApplicationError(MIDDLEWARE_CONTEXT, message, Unauthorized)
  }

  /** The one error every refusal carries. */
  function Refusal(): ErrorValue {
    GetUnauthorized(AuthorizationRequired)
  }

  /** `if (!auth)`: an absent or empty header is falsy. */
  predicate Present(authorization: Option<string>)
    ensures Present(authorization) <==> authorization != None && authorization != Some("")
  {
    authorization.Some? && authorization.value != ""
  }

  /** `ArrayUtil.allOrDefault(auth.split(/\s+/))`, with `allOrDefault` an
      unseen collaborator. */
  function HeaderParts(header: string, allOrDefault: seq<string> -> seq<string>): seq<string> {
    allOrDefault(Split(header))
  }

  /** The decision chain of `handle`. `verifyJwt` returns `None` when the
      verification throws (the exception `TryWrapper` catches). */
  function Decide(
    isWhiteList: bool,
    authorization: Option<string>,
    allOrDefault: seq<string> -> seq<string>,
    verifyJwt: string -> Option<Session>
  ): (d: Decision)
    ensures isWhiteList ==> d == Allow
    ensures !isWhiteList ==> !d.Allow?
    ensures d.Reject? ==> d.error == Refusal()
    ensures !isWhiteList && !Present(authorization) ==> d.Reject?
    ensures d.Attach? <==>
      && !isWhiteList
      && Present(authorization)
      && |HeaderParts(authorization.value, allOrDefault)| == TOKEN_PARTS
      && verifyJwt(HeaderParts(authorization.value, allOrDefault)[TOKEN_POSITION_VALUE]).Some?
    ensures d.Attach? ==>
      Some(d.session) == verifyJwt(HeaderParts(authorization.value, allOrDefault)[TOKEN_POSITION_VALUE])
  {
    if isWhiteList then Allow
    else if !Present(authorization) then Reject(Refusal())
    else
      var jwtParts := HeaderParts(authorization.value, allOrDefault);
      if |jwtParts| != TOKEN_PARTS then Reject(Refusal())
      else
        match verifyJwt(jwtParts[TOKEN_POSITION_VALUE])
        case None => Reject(Refusal())
        case Some(session) => Attach(session)
  }

  /** `allOrDefault` leaves a split header as it is. */
  ghost predicate KeepsParts(allOrDefault: seq<string> -> seq<string>) {
    forall parts :: allOrDefault(parts) == parts
  }

  /** The scheme word is never inspected: any whitespace-free first word,
      the empty one included, and any run of whitespace lead to the same
      decision for the same token. */
  lemma SchemeNeverChecked(
    scheme1: string, gap1: string, scheme2: string, gap2: string, token: string,
    allOrDefault: seq<string> -> seq<string>, verifyJwt: string -> Option<Session>
  )
    requires KeepsParts(allOrDefault)
    requires WhitespaceFree(scheme1) && IsGap(gap1) && WhitespaceFree(scheme2) && IsGap(gap2)
    requires WhitespaceFree(token)
    ensures Decide(false, Some(scheme1 + gap1 + token), allOrDefault, verifyJwt)
         == Decide(false, Some(scheme2 + gap2 + token), allOrDefault, verifyJwt)
    ensures Decide(false, Some(scheme1 + gap1 + token), allOrDefault, verifyJwt)
         == match verifyJwt(token)
            case None => Reject(Refusal())
            case Some(s) => Attach(s)
  {
    SplitPair(scheme1, gap1, token);
    SplitPair(scheme2, gap2, token);
  }

  /** An accepted header is exactly `scheme + run + token`, and the session
      attached is the one the token verifies to. */
  lemma AcceptedHeaderShape(
    header: string, session: Session,
    allOrDefault: seq<string> -> seq<string>, verifyJwt: string -> Option<Session>
  )
    requires KeepsParts(allOrDefault)
    requires Decide(false, Some(header), allOrDefault, verifyJwt) == Attach(session)
    ensures |Split(header)| == 2 && IsGap(Gaps(header)[0])
    ensures header == Split(header)[0] + Gaps(header)[0] + Split(header)[1]
    ensures WhitespaceFree(Split(header)[1]) && verifyJwt(Split(header)[1]) == Some(session)
  {
    SplitTwoParts(header);
  }

  /** A header of one word does not split into two parts and is refused. */
  lemma OneWordRefused(
    word: string, allOrDefault: seq<string> -> seq<string>, verifyJwt: string -> Option<Session>
  )
    requires KeepsParts(allOrDefault)
    requires WhitespaceFree(word)
    ensures Decide(false, Some(word), allOrDefault, verifyJwt) == Reject(Refusal())
  {
    SplitWhitespaceFree(word);
  }

  /** Whitespace after the token adds an empty third part: refused. */
  lemma TrailingWhitespaceRefused(
    scheme: string, gap: string, token: string, edge: string,
    allOrDefault: seq<string> -> seq<string>, verifyJwt: string -> Option<Session>
  )
    requires KeepsParts(allOrDefault)
    requires WhitespaceFree(scheme) && IsGap(gap) && WhitespaceFree(token) && IsGap(edge)
    requires token != ""
    ensures Decide(false, Some(scheme + gap + (token + edge)), allOrDefault, verifyJwt) == Reject(Refusal())
  {
    SplitStep(token, edge, "");
    assert token + edge + "" == token + edge;
    SplitWhitespaceFree("");
    SplitStep(scheme, gap, token + edge);
  }

  /** Whitespace before the scheme adds an empty first part: refused. */
  lemma LeadingWhitespaceRefused(
    scheme: string, gap: string, token: string, edge: string,
    allOrDefault: seq<string> -> seq<string>, verifyJwt: string -> Option<Session>
  )
    requires KeepsParts(allOrDefault)
    requires WhitespaceFree(scheme) && IsGap(gap) && WhitespaceFree(token) && IsGap(edge)
    requires scheme != ""
    ensures Decide(false, Some(edge + (scheme + gap + token)), allOrDefault, verifyJwt) == Reject(Refusal())
  {
    SplitPair(scheme, gap, token);
    var rest := scheme + gap + token;
    assert rest[0] == scheme[0];
    SplitStep("", edge, rest);
    assert "" + edge == edge;
  }

  /** The request as the middleware sees it. */
  class Request {
    const isWhiteList: bool
    const authorization: Option<string>
    var session: Option<Session>

    constructor (isWhiteList: bool, authorization: Option<string>)
      ensures this.isWhiteList == isWhiteList && this.authorization == authorization
      ensures session == None
    {
      this.isWhiteList := isWhiteList;
      this.authorization := authorization;
      session := None;
    }
  }

  /** `AuthorizationMiddleware.handle`: `next` is called exactly once, with
      the refusal or with nothing, and `req.session` is written only when a
      token verified. */
  method Handle(
    req: Request, next: NextFunction,
    allOrDefault: seq<string> -> seq<string>, verifyJwt: string -> Option<Session>
  )
    modifies req, next
    ensures var d := Decide(req.isWhiteList, req.authorization, allOrDefault, verifyJwt);
      && next.calls == old(next.calls) + [if d.Reject? then Some(d.error) else None]
      && req.session == (if d.Attach? then Some(d.session) else old(req.session))
  {
    if req.isWhiteList {
      next.Call(None);
      return;
    }
    var auth := req.authorization;
    if !Present(auth) {
      next.Call(Some(GetUnauthorized(AuthorizationRequired)));
      return;
    }
    var jwtParts := allOrDefault(Split(auth.value));
    if |jwtParts| != TOKEN_PARTS {
      next.Call(Some(GetUnauthorized(AuthorizationRequired)));
      return;
    }
    var token := jwtParts[TOKEN_POSITION_VALUE];
    var sessionResult := verifyJwt(token);
    if sessionResult.None? {
      next.Call(Some(GetUnauthorized(AuthorizationRequired)));
      return;
    }
    req.session := Some(sessionResult.value);
    next.Call(None);
  }
}
