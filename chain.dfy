/**
 * The middleware chain: authentication, logging and validation handlers linked
 * by `next` pointers. Each handler either stops with an error message or hands
 * the request on; the end of the chain yields null.
 */
module ChainOfResponsibility {
  import opened Wrappers

  /** A value in the request array, restricted to the scalar kinds PHP has. */
  datatype Value = Null | Bool(b: bool) | Int(i: int) | Str(s: string)

  /** The request array. */
  type Request = map<string, Value>

  /** PHP `isset($request[key])`: the key is present and its value is not null. */
  predicate IsSet(request: Request, key: string)
  {
    key in request && request[key] != Null
  }

  /** PHP `empty(v)` on scalars: null, false, 0, "" and "0". */
  predicate Empty(v: Value)
  {
    match v
    case Null => true
    case Bool(b) => !b
    case Int(i) => i == 0
    case Str(s) => s == "" || s == "0"
  }

  /** PHP_EOL on the platforms the demonstration targets. */
  const EOL: string := "\n"
  const AccessDenied: string := "Access denied" + EOL
  const InvalidData: string := "Invalid data" + EOL

  datatype Kind = Authentication | Logging | Validation

  /**
   * One handler's own decision: `None` hands the request on to the next handler,
   * `Some(message)` stops the chain with that message.
   */
  function Rule(kind: Kind, request: Request): (r: Option<string>)
    ensures r == None <==>
      && (kind == Authentication ==> IsSet(request, "user"))
      && (kind == Validation ==> IsSet(request, "data") && !Empty(request["data"]))
    ensures r.Some? ==> r.value == if kind == Authentication then AccessDenied else InvalidData
  {
    match kind
    case Authentication => if IsSet(request, "user") then None else Some(AccessDenied)
    case Logging => None
    case Validation =>
      if IsSet(request, "data") && !Empty(request["data"]) then None else Some(InvalidData)
  }

  /**
   * The result of handling `request` with the handlers `chain`, first to last.
   * An empty chain yields null; a message comes from a handler that is in the chain.
   */
  function Outcome(chain: seq<Kind>, request: Request): (r: Option<string>)
    ensures chain == [] ==> r == None
    ensures r.Some? ==>
      || (r.value == AccessDenied && Authentication in chain)
      || (r.value == InvalidData && Validation in chain)
  {
    if chain == [] then None
    else match Rule(chain[0], request)
      case Some(message) => Some(message)
      case None => Outcome(chain[1..], request)
  }

  /**
   * The chain yields null exactly when every handler passes; otherwise it yields
   * the message of the first handler that does not.
   */
  lemma {:induction false} OutcomeIsFirstFailure(chain: seq<Kind>, request: Request)
    ensures Outcome(chain, request) == None <==>
      forall i :: 0 <= i < |chain| ==> Rule(chain[i], request) == None
    ensures Outcome(chain, request).Some? ==>
      exists i :: 0 <= i < |chain|
        && Rule(chain[i], request) == Outcome(chain, request)
        && forall j :: 0 <= j < i ==> Rule(chain[j], request) == None
  {
    if chain != [] {
      OutcomeIsFirstFailure(chain[1..], request);
      if Rule(chain[0], request) == None {
        assert forall i :: 1 <= i < |chain| ==> chain[i] == chain[1..][i - 1];
        if Outcome(chain, request).Some? {
          var i :| 0 <= i < |chain[1..]|
            && Rule(chain[1..][i], request) == Outcome(chain[1..], request)
            && forall j :: 0 <= j < i ==> Rule(chain[1..][j], request) == None;
          assert Rule(chain[i + 1], request) == Outcome(chain, request);
        }
      } else {
        assert Rule(chain[0], request) == Outcome(chain, request);
      }
    }
  }

  /** A logging handler anywhere in the chain changes nothing about the result. */
  lemma {:induction false} LoggingIsTransparent(before: seq<Kind>, after: seq<Kind>, request: Request)
    ensures Outcome(before + [Logging] + after, request) == Outcome(before + after, request)
  {
    if before == [] {
      assert before + [Logging] + after == [Logging] + after;
      assert ([Logging] + after)[1..] == after;
      assert before + after == after;
    } else {
      LoggingIsTransparent(before[1..], after, request);
      assert (before + [Logging] + after)[1..] == before[1..] + [Logging] + after;
      assert (before + after)[1..] == before[1..] + after;
    }
  }

  /** The demonstration's chain: authentication, then logging, then validation. */
  const DemoChain: seq<Kind> := [Authentication, Logging, Validation]

  /**
   * For the demonstration's chain, a missing user is reported first, a missing
   * or empty data field second, and otherwise the result is null.
   */
  lemma DemoChainOutcome(request: Request)
    ensures Outcome(DemoChain, request) ==
      if !IsSet(request, "user") then Some(AccessDenied)
      else if !IsSet(request, "data") || Empty(request["data"]) then Some(InvalidData)
      else None
  {
    assert [Validation][1..] == [];
    assert Outcome([Validation], request) == Rule(Validation, request);
    assert [Logging, Validation][1..] == [Validation];
    assert Outcome([Logging, Validation], request) == Rule(Validation, request);
    assert DemoChain[1..] == [Logging, Validation];
  }

  /** What the client prints: all is well when the result is falsy. */
  datatype Report = AllOk | ErrorHappened(message: string)

  /** PHP truthiness of the chain's result: null, "" and "0" are falsy. */
  function HandleRequest(result: Option<string>): (report: Report)
    ensures report == AllOk <==> (result == None || result.value == "" || result.value == "0")
    ensures report.ErrorHappened? ==> result == Some(report.message)
  {
    match result
    case None => AllOk
    case Some(message) => if message == "" || message == "0" then AllOk else ErrorHappened(message)
  }

  /**
   * Over any chain, the client reports success exactly when the chain yields
   * null, that is when every handler passes: no handler's message is falsy.
   */
  lemma ReportOkIffAllPass(chain: seq<Kind>, request: Request)
    ensures HandleRequest(Outcome(chain, request)) == AllOk <==> Outcome(chain, request) == None
    ensures HandleRequest(Outcome(chain, request)) == AllOk <==>
      forall i :: 0 <= i < |chain| ==> Rule(chain[i], request) == None
  {
    OutcomeIsFirstFailure(chain, request);
  }

  /** The four requests of the demonstration and what the client reports for each. */
  lemma DemoRequests()
    ensures HandleRequest(Outcome(DemoChain, map["user" := Str("Alice"), "data" := Str("Some data")])) == AllOk
    ensures HandleRequest(Outcome(DemoChain, map["user" := Str("Bob"), "data" := Str("")])) == ErrorHappened(InvalidData)
    ensures HandleRequest(Outcome(DemoChain, map["data" := Str("Valid data")])) == ErrorHappened(AccessDenied)
    ensures HandleRequest(Outcome(DemoChain, map["user" := Str("Charlie")])) == ErrorHappened(InvalidData)
  {
  }

  /** A handler object, with its kind and its optional successor. */
  class Middleware {
    const kind: Kind
    var next: Middleware?

    constructor (kind: Kind)
      ensures this.kind == kind && next == null
    {
      this.kind := kind;
      next := null;
    }

    /** `setNext`: stores the successor and returns it, so calls can be chained. */
    method SetNext(middleware: Middleware) returns (r: Middleware)
      modifies this
      ensures next == middleware && r == middleware
    {
      next := middleware;
      r := middleware;
    }

    /**
     * `handle`: this handler's rule, then the successor's `handle`, and null
     * where there is no successor. `nodes` is the chain from this handler on.
     */
    method Handle(request: Request, ghost nodes: seq<Middleware>) returns (r: Option<string>)
      requires Linked(nodes) && nodes[0] == this
      ensures r == Outcome(Kinds(nodes), request)
      decreases |nodes|
    {
      var verdict := Rule(kind, request);
      if verdict.Some? {
        return verdict;
      }
      if next == null {
        return None;
      }
      assert Kinds(nodes)[1..] == Kinds(nodes[1..]);
      r := next.Handle(request, nodes[1..]);
    }
  }

  /** `nodes` is a whole chain: each handler's successor is the next one, and the last has none. */
  ghost predicate Linked(nodes: seq<Middleware>)
    reads set i | 0 <= i < |nodes| :: nodes[i]
  {
    && |nodes| > 0
    && (forall i :: 0 <= i < |nodes| - 1 ==> nodes[i].next == nodes[i + 1])
    && nodes[|nodes| - 1].next == null
  }

  /** The kinds of the handlers, in chain order. */
  function Kinds(nodes: seq<Middleware>): (kinds: seq<Kind>)
    ensures |kinds| == |nodes|
    ensures forall i :: 0 <= i < |nodes| ==> kinds[i] == nodes[i].kind
  {
    if nodes == [] then [] else [nodes[0].kind] + Kinds(nodes[1..])
  }

  /**
   * The demonstration's wiring `auth->setNext(logging)->setNext(validation)`
   * builds the chain authentication, logging, validation.
   */
  method BuildDemoChain() returns (head: Middleware, nodes: seq<Middleware>)
    ensures Linked(nodes) && nodes[0] == head
    ensures Kinds(nodes) == DemoChain
  {
    var authMiddleware := new Middleware(Authentication);
    var loggingMiddleware := new Middleware(Logging);
    var validationMiddleware := new Middleware(Validation);
    var second := authMiddleware.SetNext(loggingMiddleware);
    var third := second.SetNext(validationMiddleware);
    head := authMiddleware;
    nodes := [authMiddleware, loggingMiddleware, validationMiddleware];
  }

  /**
   * The client over any chain reports its reading of the chain's result: all is
   * well exactly when every handler passes. Over the demonstration's chain, a
   * missing user is reported as access denied, then missing or empty data as
   * invalid, and otherwise all is well.
   */
  method ClientHandleRequest(head: Middleware, ghost nodes: seq<Middleware>, request: Request) returns (report: Report)
    requires Linked(nodes) && nodes[0] == head
    ensures report == HandleRequest(Outcome(Kinds(nodes), request))
    ensures report == AllOk <==> forall i :: 0 <= i < |nodes| ==> Rule(nodes[i].kind, request) == None
    ensures Kinds(nodes) == DemoChain && !IsSet(request, "user") ==> report == ErrorHappened(AccessDenied)
    ensures Kinds(nodes) == DemoChain && IsSet(request, "user") && (!IsSet(request, "data") || Empty(request["data"])) ==>
      report == ErrorHappened(InvalidData)
    ensures Kinds(nodes) == DemoChain ==>
      (report == AllOk <==> IsSet(request, "user") && IsSet(request, "data") && !Empty(request["data"]))
  {
    var error := head.Handle(request, nodes);
    ReportOkIffAllPass(Kinds(nodes), request);
    DemoChainOutcome(request);
    report := HandleRequest(error);
  }
}
