/** The string operations the core relies on: splitting on runs of
    whitespace (the behaviour of `s.split(/\s+/)`) and ASCII lower-casing. */
module Text {

  /** The characters matched by `\s` in an ECMAScript regular expression. */
  predicate IsWhitespace(c: char) {
    || c == ' ' || c == '\t' || c == '\n' || c == '\U{000B}' || c == '\U{000C}' || c == '\r'
    || c == '\U{00A0}' || c == '\U{1680}' || ('\U{2000}' <= c <= '\U{200A}')
    || c == '\U{2028}' || c == '\U{2029}' || c == '\U{202F}' || c == '\U{205F}'
    || c == '\U{3000}' || c == '\U{FEFF}'
  }

  predicate WhitespaceFree(s: string) {
    forall k :: 0 <= k < |s| ==> !IsWhitespace(s[k])
  }

  /** A separator matched by `\s+`: one or more whitespace characters. */
  predicate IsGap(g: string) {
    |g| > 0 && forall k :: 0 <= k < |g| ==> IsWhitespace(g[k])
  }

  /** Index of the first whitespace character, or `|s|` when there is none. */
  function FirstWhitespace(s: string): (r: nat)
    ensures r <= |s|
    ensures forall k :: 0 <= k < r ==> !IsWhitespace(s[k])
    ensures r < |s| ==> IsWhitespace(s[r])
  {
    if s == [] || IsWhitespace(s[0]) then 0 else 1 + FirstWhitespace(s[1..])
  }

  /** End of the maximal whitespace run that starts at `i`. */
  function RunEnd(s: string, i: nat): (r: nat)
    requires i <= |s|
    ensures i <= r <= |s|
    ensures forall k :: i <= k < r ==> IsWhitespace(s[k])
    ensures r < |s| ==> !IsWhitespace(s[r])
    decreases |s| - i
  {
    if i == |s| || !IsWhitespace(s[i]) then i else RunEnd(s, i + 1)
  }

  /** `s.split(/\s+/)`: the pieces between maximal whitespace runs, leftmost
      run first. A leading or trailing run yields an empty first or last
      piece, and the empty string yields `[""]`. */
  function Split(s: string): (parts: seq<string>)
    ensures |parts| >= 1
    ensures forall k :: 0 <= k < |parts| ==> WhitespaceFree(parts[k])
    decreases |s|
  {
    var i := FirstWhitespace(s);
    if i == |s| then [s]
    else
      var j := RunEnd(s, i);
      [s[..i]] + Split(s[j..])
  }

  /** The whitespace runs that `Split` drops, in order. */
  function Gaps(s: string): (gaps: seq<string>)
    ensures |gaps| == |Split(s)| - 1
    ensures forall k :: 0 <= k < |gaps| ==> IsGap(gaps[k])
    decreases |s|
  {
    var i := FirstWhitespace(s);
    if i == |s| then []
    else
      var j := RunEnd(s, i);
      [s[i..j]] + Gaps(s[j..])
  }

  /** `parts[0] + gaps[0] + parts[1] + ... + parts[|parts| - 1]`. */
  function Interleave(parts: seq<string>, gaps: seq<string>): string
    requires |parts| == |gaps| + 1
    decreases |gaps|
  {
    if gaps == [] then parts[0] else parts[0] + gaps[0] + Interleave(parts[1..], gaps[1..])
  }

  /** Pieces strictly between two runs are never empty: two adjacent runs
      would have been one run. */
  predicate InnerPartsNonEmpty(parts: seq<string>) {
    forall k :: 0 < k < |parts| - 1 ==> parts[k] != ""
  }

  lemma {:induction false} InterleaveStartsWithFirst(parts: seq<string>, gaps: seq<string>)
    requires |parts| == |gaps| + 1
    ensures |Interleave(parts, gaps)| >= |parts[0]|
    ensures Interleave(parts, gaps)[..|parts[0]|] == parts[0]
    ensures gaps != [] ==> Interleave(parts, gaps)[|parts[0]|..] == gaps[0] + Interleave(parts[1..], gaps[1..])
  {
  }

  /** Split of text without whitespace is the text itself. */
  lemma {:induction false} SplitWhitespaceFree(s: string)
    requires WhitespaceFree(s)
    ensures Split(s) == [s] && Gaps(s) == []
  {
    assert FirstWhitespace(s) == |s|;
  }

  /** Every piece but the first and the last is non-empty. */
  lemma {:induction false} SplitInnerPartsNonEmpty(s: string)
    ensures InnerPartsNonEmpty(Split(s))
    decreases |s|
  {
    var i := FirstWhitespace(s);
    if i < |s| {
      var j := RunEnd(s, i);
      var t := s[j..];
      SplitInnerPartsNonEmpty(t);
      if |Split(t)| > 1 {
        assert t != [];
        assert !IsWhitespace(t[0]);
        assert FirstWhitespace(t) > 0;
        assert Split(t)[0] != "";
      }
      assert Split(s) == [s[..i]] + Split(t);
    }
  }

  /** Prepending one part and one gap prepends them to the text. */
  lemma InterleaveCons(part: string, gap: string, parts: seq<string>, gaps: seq<string>)
    requires |parts| == |gaps| + 1
    ensures Interleave([part] + parts, [gap] + gaps) == part + gap + Interleave(parts, gaps)
  {
    assert ([part] + parts)[1..] == parts && ([gap] + gaps)[1..] == gaps;
  }

  /** Three adjacent slices put back together give the whole sequence. */
  lemma SlicesJoin(s: string, i: nat, j: nat)
    requires i <= j <= |s|
    ensures s[..i] + s[i..j] + s[j..] == s
  {
    assert s[..i] + s[i..j] == s[..j];
  }

  /** One unfolding of `Split` and `Gaps` at the first whitespace run. */
  lemma SplitUnfold(s: string)
    requires FirstWhitespace(s) < |s|
    ensures var i := FirstWhitespace(s); var j := RunEnd(s, i);
      && Split(s) == [s[..i]] + Split(s[j..])
      && Gaps(s) == [s[i..j]] + Gaps(s[j..])
  {
  }

  /** Round trip one way: putting the dropped runs back between the pieces
      gives the original text. */
  lemma {:induction false} SplitGapsRoundTrip(s: string)
    ensures Interleave(Split(s), Gaps(s)) == s
    decreases |s|
  {
    var i := FirstWhitespace(s);
    if i < |s| {
      var j := RunEnd(s, i);
      var t := s[j..];
      SplitGapsRoundTrip(t);
      SplitUnfold(s);
      InterleaveCons(s[..i], s[i..j], Split(t), Gaps(t));
      SlicesJoin(s, i, j);
    } else {
      assert Split(s) == [s] && Gaps(s) == [];
    }
  }

  /** One step of `Split`: a whitespace-free prefix followed by a whole run. */
  lemma {:induction false} SplitStep(first: string, gap: string, rest: string)
    requires WhitespaceFree(first) && IsGap(gap)
    requires rest != "" ==> !IsWhitespace(rest[0])
    ensures Split(first + gap + rest) == [first] + Split(rest)
    ensures Gaps(first + gap + rest) == [gap] + Gaps(rest)
  {
    var s := first + gap + rest;
    var n := |first| + |gap|;
    assert forall k :: 0 <= k < |first| ==> s[k] == first[k];
    assert forall k :: |first| <= k < n ==> s[k] == gap[k - |first|];
    assert s[|first|] == gap[0];
    var i := FirstWhitespace(s);
    assert i == |first|;
    var j := RunEnd(s, i);
    assert forall k :: |first| <= k < n ==> IsWhitespace(s[k]);
    assert n < |s| ==> s[n] == rest[0] && !IsWhitespace(s[n]);
    assert j == n;
    assert s[..i] == first && s[i..j] == gap && s[j..] == rest;
  }

  /** What `InterleaveSplitRoundTrip` asks of its pieces. */
  predicate Assembles(parts: seq<string>, gaps: seq<string>) {
    && |parts| == |gaps| + 1
    && (forall k :: 0 <= k < |parts| ==> WhitespaceFree(parts[k]))
    && (forall k :: 0 <= k < |gaps| ==> IsGap(gaps[k]))
    && InnerPartsNonEmpty(parts)
  }

  /** Dropping the first part and gap keeps the pieces well formed, and the
      text that remains does not start with whitespace. */
  lemma {:induction false} AssemblesTail(parts: seq<string>, gaps: seq<string>)
    requires Assembles(parts, gaps) && gaps != []
    ensures Assembles(parts[1..], gaps[1..])
    ensures var rest := Interleave(parts[1..], gaps[1..]);
      rest != "" ==> !IsWhitespace(rest[0])
  {
    var rest := Interleave(parts[1..], gaps[1..]);
    if parts[1] != "" {
      InterleaveStartsWithFirst(parts[1..], gaps[1..]);
      assert rest[0] == rest[..|parts[1]|][0] == parts[1][0];
    } else {
      assert |parts| == 2;
      assert rest == parts[1];
    }
  }

  /** Round trip the other way: text assembled from whitespace-free pieces
      (inner ones non-empty) and whitespace runs splits back into exactly
      those pieces and runs. */
  lemma {:induction false} InterleaveSplitRoundTrip(parts: seq<string>, gaps: seq<string>)
    requires |parts| == |gaps| + 1
    requires forall k :: 0 <= k < |parts| ==> WhitespaceFree(parts[k])
    requires forall k :: 0 <= k < |gaps| ==> IsGap(gaps[k])
    requires InnerPartsNonEmpty(parts)
    ensures Split(Interleave(parts, gaps)) == parts
    ensures Gaps(Interleave(parts, gaps)) == gaps
    decreases |gaps|
  {
    if gaps == [] {
      SplitWhitespaceFree(parts[0]);
    } else {
      AssemblesTail(parts, gaps);
      InterleaveSplitRoundTrip(parts[1..], gaps[1..]);
      SplitStep(parts[0], gaps[0], Interleave(parts[1..], gaps[1..]));
      assert parts == [parts[0]] + parts[1..];
      assert gaps == [gaps[0]] + gaps[1..];
    }
  }

  /** The case the authorization header relies on: two pieces means the
      text is `first + run + second`, with both pieces whitespace-free. */
  lemma {:induction false} SplitTwoParts(s: string)
    requires |Split(s)| == 2
    ensures IsGap(Gaps(s)[0])
    ensures s == Split(s)[0] + Gaps(s)[0] + Split(s)[1]
  {
    SplitGapsRoundTrip(s);
    var parts, gaps := Split(s), Gaps(s);
    assert parts[1..] == [parts[1]] && gaps[1..] == [];
  }

  /** ... and conversely, such text always splits into exactly two pieces. */
  lemma {:induction false} SplitPair(first: string, gap: string, second: string)
    requires WhitespaceFree(first) && IsGap(gap) && WhitespaceFree(second)
    ensures Split(first + gap + second) == [first, second]
  {
    InterleaveSplitRoundTrip([first, second], [gap]);
    assert Interleave([first, second], [gap]) == first + gap + second;
  }

  /** `String.prototype.toLowerCase`, restricted to the ASCII letters. */
  function LowerChar(c: char): (d: char)
    ensures !('A' <= d <= 'Z')
    ensures 'A' <= c <= 'Z' ==> d as int == c as int + 32
    ensures !('A' <= c <= 'Z') ==> d == c
  {
    if 'A' <= c <= 'Z' then (c as int + 32) as char else c
  }

  function ToLower(s: string): (r: string)
    ensures |r| == |s|
    ensures forall k :: 0 <= k < |s| ==> r[k] == LowerChar(s[k])
  {
    seq(|s|, k requires 0 <= k < |s| => LowerChar(s[k]))
  }

  /** Lower-casing twice is lower-casing once. */
  lemma ToLowerIdempotent(s: string)
    ensures ToLower(ToLower(s)) == ToLower(s)
  {
  }
}
