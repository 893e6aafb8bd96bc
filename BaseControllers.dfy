/** The base controller: the process-wide table from application status to
    HTTP status that routes feed when they are added, and the dispatch of a
    use-case outcome into a response, with the trace finalised on every path. */
module BaseControllers {
  import opened Common

  // ---------------------------------------------------------------------
  // The status mapping table
  // ---------------------------------------------------------------------

  type StatusTable = map<string, int>

  /** One `{ applicationStatus, httpStatus }` entry of a route's `produces`. */
  datatype Produces = Produces(applicationStatus: string, httpStatus: int)

  /** `statusMapping[s]` is truthy: present and not 0. */
  predicate Settled(table: StatusTable, status: string) {
    status in table && table[status] != 0
  }

  /** `setProducesCode` on the table's value: an unsettled status takes the
      new HTTP status, a settled one keeps its own, and no other status is
      touched. */
  function SetProduces(table: StatusTable, status: string, httpStatus: int): (r: StatusTable)
    ensures r.Keys == table.Keys + {status}
    ensures r[status] == if Settled(table, status) then table[status] else httpStatus
    ensures forall s :: s in table && s != status ==> r[s] == table[s]
  {
    if !Settled(table, status) then table[status := httpStatus] else table
  }

  /** `produces.forEach(setProducesCode)`, in list order. */
  function RegisterAll(table: StatusTable, produces: seq<Produces>): (r: StatusTable)
    ensures table.Keys <= r.Keys
    ensures forall k :: 0 <= k < |produces| ==> produces[k].applicationStatus in r
    decreases |produces|
  {
    if produces == [] then table
    else
      var init := produces[..|produces| - 1];
      var last := produces[|produces| - 1];
      assert forall k :: 0 <= k < |init| ==> init[k] == produces[k];
      SetProduces(RegisterAll(table, init), last.applicationStatus, last.httpStatus)
  }

  /** The statuses a `produces` list mentions. */
  function Statuses(produces: seq<Produces>): set<string> {
    set k | 0 <= k < |produces| :: produces[k].applicationStatus
  }

  /** Repeating a registration changes nothing. */
  lemma SetProducesIdempotent(table: StatusTable, status: string, httpStatus: int)
    ensures SetProduces(SetProduces(table, status, httpStatus), status, httpStatus)
         == SetProduces(table, status, httpStatus)
  {
  }

  /** First write wins: a settled status is never changed by a later call. */
  lemma SetProducesFirstWriteWins(table: StatusTable, status: string, first: int, later: int)
    requires first != 0
    ensures SetProduces(SetProduces(table, status, first), status, later)
         == SetProduces(table, status, first)
  {
  }

  lemma DropLastOfAppend<T>(front: seq<T>, back: seq<T>)
    requires back != []
    ensures (front + back)[..|front + back| - 1] == front + back[..|back| - 1]
    ensures (front + back)[|front + back| - 1] == back[|back| - 1]
  {
    var all, init := front + back, back[..|back| - 1];
    assert |all[..|all| - 1]| == |front + init|;
    forall k | 0 <= k < |front + init|
      ensures all[..|all| - 1][k] == (front + init)[k]
    {
    }
  }

  /** Registering a list in two pieces is registering it whole. */
  lemma {:induction false} RegisterAllAppend(table: StatusTable, front: seq<Produces>, back: seq<Produces>)
    ensures RegisterAll(table, front + back) == RegisterAll(RegisterAll(table, front), back)
    decreases |back|
  {
    if back != [] {
      var all, init, last := front + back, back[..|back| - 1], back[|back| - 1];
      DropLastOfAppend(front, back);
      RegisterAllAppend(table, front, init);
      assert RegisterAll(table, all) ==
        SetProduces(RegisterAll(table, front + init), last.applicationStatus, last.httpStatus);
      assert RegisterAll(RegisterAll(table, front), back) ==
        SetProduces(RegisterAll(RegisterAll(table, front), init), last.applicationStatus, last.httpStatus);
    } else {
      assert front + back == front;
    }
  }

  /** The table afterwards holds exactly the old statuses and the listed ones. */
  lemma {:induction false} RegisterAllKeys(table: StatusTable, produces: seq<Produces>)
    ensures RegisterAll(table, produces).Keys == table.Keys + Statuses(produces)
    decreases |produces|
  {
    if produces != [] {
      var front := produces[..|produces| - 1];
      RegisterAllKeys(table, front);
      assert Statuses(produces) == Statuses(front) + {produces[|produces| - 1].applicationStatus} by {
        assert forall k :: 0 <= k < |front| ==> front[k] == produces[k];
      }
    }
  }

  /** Statuses a list does not mention are left exactly as they were. */
  lemma {:induction false} RegisterAllOthersUnchanged(table: StatusTable, produces: seq<Produces>, status: string)
    requires status !in Statuses(produces)
    ensures status in RegisterAll(table, produces) <==> status in table
    ensures status in table ==> RegisterAll(table, produces)[status] == table[status]
    decreases |produces|
  {
    if produces != [] {
      var front := produces[..|produces| - 1];
      assert Statuses(front) <= Statuses(produces) by {
        assert forall k :: 0 <= k < |front| ==> front[k] == produces[k];
      }
      assert produces[|produces| - 1].applicationStatus in Statuses(produces);
      RegisterAllOthersUnchanged(table, front, status);
    }
  }

  /** A settled status keeps its HTTP status whatever the list says. */
  lemma {:induction false} RegisterAllKeepsSettled(table: StatusTable, produces: seq<Produces>, status: string)
    requires Settled(table, status)
    ensures Settled(RegisterAll(table, produces), status)
    ensures RegisterAll(table, produces)[status] == table[status]
    decreases |produces|
  {
    if produces != [] {
      RegisterAllKeepsSettled(table, produces[..|produces| - 1], status);
    }
  }

  /** For an unsettled status, the first non-zero HTTP status listed for it
      is the one the table ends with. */
  lemma {:induction false} RegisterAllFirstNonZeroWins(table: StatusTable, produces: seq<Produces>, i: nat)
    requires i < |produces| && produces[i].httpStatus != 0
    requires !Settled(table, produces[i].applicationStatus)
    requires forall j :: 0 <= j < i && produces[j].applicationStatus == produces[i].applicationStatus ==>
      produces[j].httpStatus == 0
    ensures produces[i].applicationStatus in RegisterAll(table, produces)
    ensures RegisterAll(table, produces)[produces[i].applicationStatus] == produces[i].httpStatus
  {
    var status := produces[i].applicationStatus;
    var front, back := produces[..i], produces[i + 1..];
    assert produces == front + [produces[i]] + back;
    RegisterAllAppend(table, front + [produces[i]], back);
    RegisterAllAppend(table, front, [produces[i]]);
    var before := RegisterAll(table, front);
    assert !Settled(before, status) by {
      RegisterAllUnsettledStays(table, front, status);
    }
    assert [produces[i]][..0] == [];
    var after := RegisterAll(before, [produces[i]]);
    assert after == SetProduces(before, status, produces[i].httpStatus);
    RegisterAllKeepsSettled(after, back, status);
  }

  /** A list whose entries for a status are all 0 leaves it unsettled. */
  lemma {:induction false} RegisterAllUnsettledStays(table: StatusTable, produces: seq<Produces>, status: string)
    requires !Settled(table, status)
    requires forall j :: 0 <= j < |produces| && produces[j].applicationStatus == status ==> produces[j].httpStatus == 0
    ensures !Settled(RegisterAll(table, produces), status)
    decreases |produces|
  {
    if produces != [] {
      RegisterAllUnsettledStays(table, produces[..|produces| - 1], status);
    }
  }

  /** A table on which every listed entry is already a no-op. */
  predicate Absorbs(table: StatusTable, produces: seq<Produces>) {
    forall k :: 0 <= k < |produces| ==>
      produces[k].applicationStatus in table &&
      (table[produces[k].applicationStatus] != 0 || produces[k].httpStatus == 0)
  }

  lemma {:induction false} RegisterAllAbsorbed(table: StatusTable, produces: seq<Produces>)
    requires Absorbs(table, produces)
    ensures RegisterAll(table, produces) == table
    decreases |produces|
  {
    if produces != [] {
      var front := produces[..|produces| - 1];
      assert Absorbs(table, front) by {
        assert forall k :: 0 <= k < |front| ==> front[k] == produces[k];
      }
      RegisterAllAbsorbed(table, front);
      var last := produces[|produces| - 1];
      assert SetProduces(table, last.applicationStatus, last.httpStatus) == table;
    }
  }

  /** A status listed with a non-zero HTTP status is settled afterwards. */
  lemma {:induction false} RegisterAllSettlesListed(table: StatusTable, produces: seq<Produces>, k: nat)
    requires k < |produces| && produces[k].httpStatus != 0
    ensures Settled(RegisterAll(table, produces), produces[k].applicationStatus)
  {
    var status := produces[k].applicationStatus;
    var front, back := produces[..k + 1], produces[k + 1..];
    assert produces == front + back;
    RegisterAllAppend(table, front, back);
    assert front[..|front| - 1] == produces[..k];
    assert Settled(RegisterAll(table, front), status);
    RegisterAllKeepsSettled(RegisterAll(table, front), back, status);
  }

  /** Adding the same route twice leaves the table as adding it once. */
  lemma {:induction false} RegisterAllIdempotent(table: StatusTable, produces: seq<Produces>)
    ensures RegisterAll(RegisterAll(table, produces), produces) == RegisterAll(table, produces)
  {
    var result := RegisterAll(table, produces);
    RegisterAllKeys(table, produces);
    forall k | 0 <= k < |produces|
      ensures produces[k].applicationStatus in result
      ensures result[produces[k].applicationStatus] != 0 || produces[k].httpStatus == 0
    {
      assert produces[k].applicationStatus in Statuses(produces);
      if produces[k].httpStatus != 0 {
        RegisterAllSettlesListed(table, produces, k);
      }
    }
    RegisterAllAbsorbed(result, produces);
  }

  /** The process-wide `statusMapping` dictionary. */
  class StatusMapping {
    var entries: StatusTable

    constructor (entries: StatusTable)
      ensures this.entries == entries
    {
      this.entries := entries;
    }
  }

  // ---------------------------------------------------------------------
  // Response headers
  // ---------------------------------------------------------------------

  datatype Header = Header(name: string, value: string)

  /** `res.setHeader` for each header in turn. */
  function ApplyHeaders(headers: map<string, string>, toSet: seq<Header>): (r: map<string, string>)
    ensures headers.Keys <= r.Keys
    ensures forall k :: 0 <= k < |toSet| ==> toSet[k].name in r
    decreases |toSet|
  {
    if toSet == [] then headers
    else
      var init := toSet[..|toSet| - 1];
      var last := toSet[|toSet| - 1];
      assert forall k :: 0 <= k < |init| ==> init[k] == toSet[k];
      ApplyHeaders(headers, init)[last.name := last.value]
  }

  /** `headersToSet` absent, or its `Object.entries`. */
  function HeaderList(headersToSet: Option<seq<Header>>): seq<Header> {
    match headersToSet
    case None => []
    case Some(hs) => hs
  }

  /** Index `i` holds the last header written under `name`. */
  predicate LastWrittenAt(toSet: seq<Header>, i: int, name: string) {
    0 <= i < |toSet| && toSet[i].name == name &&
    forall j :: i < j < |toSet| ==> toSet[j].name != name
  }

  predicate NeverWritten(toSet: seq<Header>, name: string) {
    forall k :: 0 <= k < |toSet| ==> toSet[k].name != name
  }

  /** Names never written keep their old value. */
  lemma {:induction false} ApplyHeadersUntouched(headers: map<string, string>, toSet: seq<Header>, name: string)
    requires NeverWritten(toSet, name)
    ensures name in ApplyHeaders(headers, toSet) <==> name in headers
    ensures name in headers ==> ApplyHeaders(headers, toSet)[name] == headers[name]
    decreases |toSet|
  {
    if toSet != [] {
      var front := toSet[..|toSet| - 1];
      assert NeverWritten(front, name) by {
        assert forall k :: 0 <= k < |front| ==> front[k] == toSet[k];
      }
      ApplyHeadersUntouched(headers, front, name);
    }
  }

  /** The last header written under a name decides its value. */
  lemma {:induction false} ApplyHeadersLastWins(headers: map<string, string>, toSet: seq<Header>, name: string, i: int)
    requires LastWrittenAt(toSet, i, name)
    ensures name in ApplyHeaders(headers, toSet)
    ensures ApplyHeaders(headers, toSet)[name] == toSet[i].value
    decreases |toSet|
  {
    if i < |toSet| - 1 {
      var front := toSet[..|toSet| - 1];
      assert LastWrittenAt(front, i, name);
      ApplyHeadersLastWins(headers, front, name, i);
    }
  }

  /** The transaction id is written first, so a caller header of the same
      name replaces it; without such a header the transaction id stays. */
  lemma TransactionIdHeader(headers: map<string, string>, txName: string, txId: string, headersToSet: Option<seq<Header>>, i: int)
    ensures NeverWritten(HeaderList(headersToSet), txName) ==>
      var final := ApplyHeaders(headers[txName := txId], HeaderList(headersToSet));
      txName in final && final[txName] == txId
    ensures headersToSet.None? ==>
      ApplyHeaders(headers[txName := txId], HeaderList(headersToSet)) == headers[txName := txId]
    ensures LastWrittenAt(HeaderList(headersToSet), i, txName) ==>
      var final := ApplyHeaders(headers[txName := txId], HeaderList(headersToSet));
      txName in final && final[txName] == HeaderList(headersToSet)[i].value
  {
    if NeverWritten(HeaderList(headersToSet), txName) {
      ApplyHeadersUntouched(headers[txName := txId], HeaderList(headersToSet), txName);
    }
    if LastWrittenAt(HeaderList(headersToSet), i, txName) {
      ApplyHeadersLastWins(headers[txName := txId], HeaderList(headersToSet), txName, i);
    }
  }

  // ---------------------------------------------------------------------
  // Payloads, traces and the response sink
  // ---------------------------------------------------------------------

  /** The part of `IResult` the dispatcher reads. */
  datatype DispatchedResult = DispatchedResult(statusCode: ApplicationStatus, message: Option<string>, data: Option<string>)

  /** What `res.json` receives: the result itself, `result.toResultDto()`,
      or `result.toResultDto().data` (the conversion is not part of this
      model, so the body names the result it was taken from). */
  datatype Body = WholeResult(result: DispatchedResult) | ResultDto(result: DispatchedResult) | ResultDtoData(result: DispatchedResult)

  /** `handleResult`, `handleResultDto` and `handleResultData`. */
  datatype PayloadShape = AsResult | AsResultDto | AsResultData

  predicate Truthy(message: Option<string>) {
    message.Some? && message.value != ""
  }

  /** The payload each shape emits: always about the result received, bare
      data only for the data shape and only without a message. */
  function Payload(shape: PayloadShape, result: DispatchedResult): (body: Body)
    ensures body.result == result
    ensures body.WholeResult? <==> shape == AsResult
    ensures body.ResultDtoData? <==> shape == AsResultData && !Truthy(result.message)
  {
    match shape
    case AsResult => WholeResult(result)
    case AsResultDto => ResultDto(result)
    case AsResultData => if Truthy(result.message) then ResultDto(result) else ResultDtoData(result)
  }

  /** How the awaited use-case promise settled. */
  datatype Settlement = Resolved(result: DispatchedResult) | Rejected(error: ErrorValue)

  /** `res.trace.transactionId` read through an undefined trace. */
  const UNDEFINED_TRACE_ERROR: ErrorValue := OtherError("TypeError: reading 'transactionId' of undefined")

  /** What `HttpStatusResolver.getCode` does with a status: answer an HTTP
      status, or throw (a status it cannot map). */
  datatype StatusResolution = HttpCode(code: int) | ResolverThrew(error: ErrorValue)

  /** How a `handleResult*` call ends for the client: a status and body are
      sent, or an error is passed to `next`. */
  datatype DispatchOutcome = Sent(code: int) | Forwarded(error: ErrorValue)

  /** The outcome of the `try` block: a rejection is forwarded as it is; a
      resolved result without a trace fails on `res.trace.transactionId`; a
      status the resolver cannot map fails after the headers are written;
      only a resolved, traced, mapped result is sent. */
  function Outcome(settlement: Settlement, hasTrace: bool, resolution: StatusTable -> ApplicationStatus -> StatusResolution, table: StatusTable): (o: DispatchOutcome)
    ensures o.Sent? <==>
      settlement.Resolved? && hasTrace && resolution(table)(settlement.result.statusCode).HttpCode?
    ensures o.Sent? ==> o.code == resolution(table)(settlement.result.statusCode).code
    ensures settlement.Rejected? ==> o == Forwarded(settlement.error)
    ensures settlement.Resolved? && !hasTrace ==> o == Forwarded(UNDEFINED_TRACE_ERROR)
    ensures settlement.Resolved? && hasTrace && resolution(table)(settlement.result.statusCode).ResolverThrew? ==>
      o == Forwarded(resolution(table)(settlement.result.statusCode).error)
  {
    match settlement
    case Rejected(error) => Forwarded(error)
    case Resolved(result) =>
      if !hasTrace then Forwarded(UNDEFINED_TRACE_ERROR)
      else
        match resolution(table)(result.statusCode)
        case HttpCode(code) => Sent(code)
        case ResolverThrew(error) => Forwarded(error)
  }

  datatype TraceRecord = TraceRecord(transactionId: string, context: string, finishedAt: int)

  datatype ErrorLog = ErrorLog(context: string, name: string, message: string)

  const TRACE_ERROR_NAME: string := "ManageUseCaseTraceError"

  class UseCaseTrace {
    const transactionId: string
    const context: Option<string>
    var finishedAt: Option<int>

    constructor (transactionId: string, context: Option<string>)
      ensures this.transactionId == transactionId && this.context == context && finishedAt == None
    {
      this.transactionId := transactionId;
      this.context := context;
      finishedAt := None;
    }

    method Finish(now: int)
      modifies this
      ensures finishedAt == Some(now)
    {
      finishedAt := Some(now);
    }
  }

  /** `trace?.context` is truthy. */
  predicate Traced(trace: UseCaseTrace?) {
    trace != null && trace.context.Some? && trace.context.value != ""
  }

  /** The trace store; `failure` is the rejection its next `register` gives. */
  class TraceRepository {
    var stored: seq<TraceRecord>
    var failure: Option<string>

    constructor (failure: Option<string>)
      ensures stored == [] && this.failure == failure
    {
      stored := [];
      this.failure := failure;
    }

    method Register(trace: TraceRecord) returns (rejection: Option<string>)
      modifies this
      ensures rejection == failure == old(failure)
      ensures stored == if rejection.None? then old(stored) + [trace] else old(stored)
    {
      rejection := failure;
      if rejection.None? {
        stored := stored + [trace];
      }
    }
  }

  class LogProvider {
    var errors: seq<ErrorLog>

    constructor ()
      ensures errors == []
    {
      errors := [];
    }

    method LogError(error: ErrorLog)
      modifies this
      ensures errors == old(errors) + [error]
    {
      errors := errors + [error];
    }
  }

  /** The response sink the controller writes to. */
  class Response {
    var headers: map<string, string>
    var status: Option<int>
    var body: Option<Body>
    const trace: UseCaseTrace?

    constructor (trace: UseCaseTrace?)
      ensures this.trace == trace && headers == map[] && status == None && body == None
    {
      this.trace := trace;
      headers := map[];
      status := None;
      body := None;
    }

    method SetHeader(name: string, value: string)
      modifies this
      ensures headers == old(headers)[name := value]
      ensures status == old(status) && body == old(body)
    {
      headers := headers[name := value];
    }

    /** `res.status(code).json(body)`. */
    method Send(code: int, payload: Body)
      modifies this
      ensures status == Some(code) && body == Some(payload)
      ensures headers == old(headers)
    {
      status := Some(code);
      body := Some(payload);
    }
  }

  // ---------------------------------------------------------------------
  // Routing
  // ---------------------------------------------------------------------

  datatype Route = Route(
    httpMethod: string,
    path: string,
    handlers: seq<string>,
    contentType: string,
    requireAuth: bool,
    request: Option<string>,
    response: Option<string>,
    description: Option<string>,
    produces: seq<Produces>)

  datatype Mount = Mount(httpMethod: string, path: string, handlers: seq<string>)

  datatype RouteDoc = RouteDoc(
    controllerName: string,
    httpMethod: string,
    path: string,
    requireAuth: bool,
    contentType: string,
    request: Option<string>,
    response: Option<string>,
    produces: seq<Produces>,
    description: Option<string>)

  /** `router[method](path, ...handlers)`, recorded. */
  class Router {
    var mounted: seq<Mount>

    constructor ()
      ensures mounted == []
    {
      mounted := [];
    }

    method Add(httpMethod: string, path: string, handlers: seq<string>)
      modifies this
      ensures mounted == old(mounted) + [Mount(httpMethod, path, handlers)]
    {
      mounted := mounted + [Mount(httpMethod, path, handlers)];
    }
  }

  /** `apiDocGenerator.addRoute(...)`, recorded. */
  class ApiDocGenerator {
    var documented: seq<RouteDoc>

    constructor ()
      ensures documented == []
    {
      documented := [];
    }

    method AddRoute(doc: RouteDoc)
      modifies this
      ensures documented == old(documented) + [doc]
    {
      documented := documented + [doc];
    }
  }

  /** How `addRoute` ends. */
  datatype Completion = Normal | Threw(message: string)

  const ROUTER_NOT_INITIALIZED: string :=
    "Router not initialized, you should call setRouter method before addRoute."

  function DocOf(controllerName: string, route: Route): RouteDoc {
    RouteDoc(controllerName, route.httpMethod, route.path, route.requireAuth, route.contentType,
             route.request, route.response, route.produces, route.description)
  }

  // ---------------------------------------------------------------------
  // The controller
  // ---------------------------------------------------------------------

  class BaseController {
    const CONTEXT: string
    /** `this.constructor.name`. */
    const controllerName: string
    /** The name behind `HttpHeaderEnum.TRANSACTION_ID`. */
    const transactionIdHeader: string
    /** `HttpStatusResolver.getCode(status.toString())`, which resolves a
        status through the mapping table or throws (its rule is not part of
        this model). */
    const getCode: StatusTable -> ApplicationStatus -> StatusResolution
    const statusMapping: StatusMapping
    const traceRepository: TraceRepository
    const logProvider: LogProvider
    var router: Router?
    var apiDocGenerator: ApiDocGenerator?

    constructor (
      context: string, controllerName: string, transactionIdHeader: string,
      getCode: StatusTable -> ApplicationStatus -> StatusResolution, statusMapping: StatusMapping,
      traceRepository: TraceRepository, logProvider: LogProvider)
      ensures CONTEXT == context && this.controllerName == controllerName
      ensures this.transactionIdHeader == transactionIdHeader && this.getCode == getCode
      ensures this.statusMapping == statusMapping && this.traceRepository == traceRepository
      ensures this.logProvider == logProvider
      ensures router == null && apiDocGenerator == null
    {
      CONTEXT := context;
      this.controllerName := controllerName;
      this.transactionIdHeader := transactionIdHeader;
      this.getCode := getCode;
      this.statusMapping := statusMapping;
      this.traceRepository := traceRepository;
      this.logProvider := logProvider;
      router := null;
      apiDocGenerator := null;
    }

    method SetApiDocGenerator(generator: ApiDocGenerator)
      modifies this
      ensures apiDocGenerator == generator && router == old(router)
    {
      apiDocGenerator := generator;
    }

    method SetRouter(r: Router)
      modifies this
      ensures router == r && apiDocGenerator == old(apiDocGenerator)
    {
      router := r;
    }

    /** `setProducesCode`: first write wins on the shared table. */
    method SetProducesCode(applicationStatus: string, httpStatus: int)
      modifies statusMapping
      ensures statusMapping.entries == SetProduces(old(statusMapping.entries), applicationStatus, httpStatus)
    {
      if !(applicationStatus in statusMapping.entries && statusMapping.entries[applicationStatus] != 0) {
        statusMapping.entries := statusMapping.entries[applicationStatus := httpStatus];
      }
    }

    /** `produces.forEach(setProducesCode)`, the first statement of `addRoute`. */
    method RegisterProduces(produces: seq<Produces>)
      modifies statusMapping
      ensures statusMapping.entries == RegisterAll(old(statusMapping.entries), produces)
    {
      for i := 0 to |produces|
        invariant statusMapping.entries == RegisterAll(old(statusMapping.entries), produces[..i])
      {
        assert produces[..i + 1][..i] == produces[..i];
        SetProducesCode(produces[i].applicationStatus, produces[i].httpStatus);
      }
      assert produces[..|produces|] == produces;
    }

    /** `addRoute`: every `produces` entry is registered, in order, before the
        router is checked, so the table keeps them even when it throws; the
        documentation generator sees the route only when one is set. */
    method AddRoute(route: Route) returns (completion: Completion)
      modifies statusMapping, router, apiDocGenerator
      ensures statusMapping.entries == RegisterAll(old(statusMapping.entries), route.produces)
      ensures completion == if router == null then Threw(ROUTER_NOT_INITIALIZED) else Normal
      ensures router != null ==>
        router.mounted == old(router.mounted) + [Mount(route.httpMethod, route.path, route.handlers)]
      ensures apiDocGenerator != null ==>
        apiDocGenerator.documented == old(apiDocGenerator.documented) +
          (if router != null then [DocOf(controllerName, route)] else [])
    {
      RegisterProduces(route.produces);
      if router == null {
        return Threw(ROUTER_NOT_INITIALIZED);
      }
      router.Add(route.httpMethod, route.path, route.handlers);
      if apiDocGenerator != null {
        apiDocGenerator.AddRoute(DocOf(controllerName, route));
      }
      return Normal;
    }

    /** `setTransactionId` then `setHeaders`. */
    method WriteHeaders(res: Response, headersToSet: Option<seq<Header>>)
      requires res.trace != null
      modifies res
      ensures res.headers ==
        ApplyHeaders(old(res.headers)[transactionIdHeader := res.trace.transactionId], HeaderList(headersToSet))
      ensures res.status == old(res.status) && res.body == old(res.body)
    {
      res.SetHeader(transactionIdHeader, res.trace.transactionId);
      var start := res.headers;
      var toSet := HeaderList(headersToSet);
      for i := 0 to |toSet|
        invariant res.headers == ApplyHeaders(start, toSet[..i])
        invariant res.status == old(res.status) && res.body == old(res.body)
      {
        assert toSet[..i + 1][..i] == toSet[..i];
        res.SetHeader(toSet[i].name, toSet[i].value);
      }
      assert toSet[..|toSet|] == toSet;
    }

    /** `getResult`, `getResultDto` and `getResultData`: headers, then the
        status resolved from the application status, then the payload; a
        resolver that throws leaves the headers written and sends nothing. */
    method Emit(res: Response, result: DispatchedResult, headersToSet: Option<seq<Header>>, shape: PayloadShape)
      returns (thrown: Option<ErrorValue>)
      requires res.trace != null
      modifies res
      ensures res.headers ==
        ApplyHeaders(old(res.headers)[transactionIdHeader := res.trace.transactionId], HeaderList(headersToSet))
      ensures var resolution := getCode(statusMapping.entries)(result.statusCode);
        && thrown == (if resolution.ResolverThrew? then Some(resolution.error) else None)
        && res.status == (if resolution.HttpCode? then Some(resolution.code) else old(res.status))
        && res.body == (if resolution.HttpCode? then Some(Payload(shape, result)) else old(res.body))
    {
      WriteHeaders(res, headersToSet);
      var resolution := getCode(statusMapping.entries)(result.statusCode);
      if resolution.ResolverThrew? {
        return Some(resolution.error);
      }
      res.Send(resolution.code, Payload(shape, result));
      thrown := None;
    }

    /** What `manageUseCaseTrace` does to the trace and its store: only a
        trace with a context is finished at `now` and registered; a rejected
        registration adds one error log; otherwise nothing changes. */
    twostate predicate TraceHandled(trace: UseCaseTrace?, now: int)
      reads trace, traceRepository, logProvider
    {
      && traceRepository.failure == old(traceRepository.failure)
      && (Traced(trace) ==>
        && trace.finishedAt == Some(now)
        && traceRepository.stored == old(traceRepository.stored) +
             (if old(traceRepository.failure).None? then [TraceRecord(trace.transactionId, trace.context.value, now)] else [])
        && logProvider.errors == old(logProvider.errors) +
             (if old(traceRepository.failure).Some? then [ErrorLog(CONTEXT, TRACE_ERROR_NAME, old(traceRepository.failure).value)] else []))
      && (!Traced(trace) ==>
        && (trace != null ==> trace.finishedAt == old(trace.finishedAt))
        && traceRepository.stored == old(traceRepository.stored)
        && logProvider.errors == old(logProvider.errors))
    }

    /** `manageUseCaseTrace`: a rejected registration is logged and goes no
        further. */
    method ManageUseCaseTrace(trace: UseCaseTrace?, now: int)
      modifies trace, traceRepository, logProvider
      ensures TraceHandled(trace, now)
    {
      if Traced(trace) {
        trace.Finish(now);
        var rejection := traceRepository.Register(TraceRecord(trace.transactionId, trace.context.value, now));
        if rejection.Some? {
          logProvider.LogError(ErrorLog(CONTEXT, TRACE_ERROR_NAME, rejection.value));
        }
      }
    }

    /** The whole effect of a `handleResult*` call emitting `shape`: headers
        are written once a resolved result meets a trace; status and body are
        set exactly when the outcome is `Sent`; otherwise `next` receives the
        error once; and the trace is handled as `manageUseCaseTrace` does. */
    twostate predicate Dispatched(
      res: Response, next: NextFunction, settlement: Settlement,
      headersToSet: Option<seq<Header>>, shape: PayloadShape, now: int)
      reads this, statusMapping, res, res.trace, next, traceRepository, logProvider
    {
      var outcome := Outcome(settlement, res.trace != null, getCode, statusMapping.entries);
      && res.headers == (if settlement.Resolved? && res.trace != null then
           ApplyHeaders(old(res.headers)[transactionIdHeader := res.trace.transactionId], HeaderList(headersToSet))
         else old(res.headers))
      && res.status == (if outcome.Sent? then Some(outcome.code) else old(res.status))
      && res.body == (if outcome.Sent? then Some(Payload(shape, settlement.result)) else old(res.body))
      && next.calls == old(next.calls) + (if outcome.Sent? then [] else [Some(outcome.error)])
      && TraceHandled(res.trace, now)
    }

    /** The body shared by the three `handleResult*` methods: `try` the
        emission, `catch` into `next`, and handle the trace in `finally`. */
    method Dispatch(
      res: Response, next: NextFunction, settlement: Settlement,
      headersToSet: Option<seq<Header>>, shape: PayloadShape, now: int)
      modifies res, res.trace, next, traceRepository, logProvider
      ensures Dispatched(res, next, settlement, headersToSet, shape, now)
    {
      match settlement {
        case Rejected(error) =>
          next.Call(Some(error));
        case Resolved(result) =>
          if res.trace == null {
            next.Call(Some(UNDEFINED_TRACE_ERROR));
          } else {
            var thrown := Emit(res, result, headersToSet, shape);
            if thrown.Some? {
              next.Call(thrown);
            }
          }
      }
      ManageUseCaseTrace(res.trace, now);
    }

    /** `handleResult`: the whole result as the body. */
    method HandleResult(res: Response, next: NextFunction, settlement: Settlement, headersToSet: Option<seq<Header>>, now: int)
      modifies res, res.trace, next, traceRepository, logProvider
      ensures Dispatched(res, next, settlement, headersToSet, AsResult, now)
      ensures res.body != old(res.body) ==> res.body == Some(WholeResult(settlement.result))
      ensures settlement.Rejected? ==>
        next.calls == old(next.calls) + [Some(settlement.error)] && res.body == old(res.body) && res.status == old(res.status)
    {
      Dispatch(res, next, settlement, headersToSet, AsResult, now);
    }

    /** `handleResultDto`: the result's DTO as the body. */
    method HandleResultDto(res: Response, next: NextFunction, settlement: Settlement, headersToSet: Option<seq<Header>>, now: int)
      modifies res, res.trace, next, traceRepository, logProvider
      ensures Dispatched(res, next, settlement, headersToSet, AsResultDto, now)
      ensures res.body != old(res.body) ==> res.body == Some(ResultDto(settlement.result))
      ensures settlement.Rejected? ==>
        next.calls == old(next.calls) + [Some(settlement.error)] && res.body == old(res.body) && res.status == old(res.status)
    {
      Dispatch(res, next, settlement, headersToSet, AsResultDto, now);
    }

    /** `handleResultData`: the DTO when the result has a message, its bare
        data otherwise. */
    method HandleResultData(res: Response, next: NextFunction, settlement: Settlement, headersToSet: Option<seq<Header>>, now: int)
      modifies res, res.trace, next, traceRepository, logProvider
      ensures Dispatched(res, next, settlement, headersToSet, AsResultData, now)
      ensures res.body != old(res.body) ==>
        res.body == Some(if Truthy(settlement.result.message) then ResultDto(settlement.result) else ResultDtoData(settlement.result))
      ensures settlement.Rejected? ==>
        next.calls == old(next.calls) + [Some(settlement.error)] && res.body == old(res.body) && res.status == old(res.status)
    {
      Dispatch(res, next, settlement, headersToSet, AsResultData, now);
    }
  }
}
