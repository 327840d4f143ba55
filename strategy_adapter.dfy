/**
 * The adapter that runs a callback-style passport strategy and exposes its
 * verdict as one promise-like result.
 *
 * A strategy is modelled by the one handler call its `authenticate` makes for
 * a given request. The adapter builds a fresh object on top of the wrapped
 * strategy, installs `success`, `fail` and `error` handlers on it that settle
 * one promise, and lets the strategy run against a shimmed request.
 */
module Authentication {
  import opened Wrappers

  /** A header or query dictionary. */
  type Dictionary = map<string, string>

  /** The parsed incoming request; it carries more than the shim copies. */
  datatype ParsedRequest = ParsedRequest(
    headers: Dictionary,
    query: Dictionary,
    url: string,
    path: string,
    pathname: string,
    httpMethod: string)  // `method` in the source

  /** The five fields of a shimmed request as a strategy reads them; `None` is `undefined`. */
  datatype ShimView = ShimView(
    headers: Option<Dictionary>,
    query: Option<Dictionary>,
    url: Option<string>,
    path: Option<string>,
    httpMethod: Option<string>)  // `method` in the source

  /** The request object handed to a passport strategy. */
  class ShimRequest {
    var headers: Option<Dictionary>
    var query: Option<Dictionary>
    var url: Option<string>
    var path: Option<string>
    var httpMethod: Option<string>  // `method` in the source

    /** Copies exactly five fields of `request`, or leaves all of them unset without one. */
    constructor (request: Option<ParsedRequest>)
      ensures request.Some? ==>
        && headers == Some(request.value.headers)
        && query == Some(request.value.query)
        && url == Some(request.value.url)
        && path == Some(request.value.path)
        && httpMethod == Some(request.value.httpMethod)
      ensures request.None? ==>
        headers.None? && query.None? && url.None? && path.None? && httpMethod.None?
    {
      if request.Some? {
        headers := Some(request.value.headers);
        query := Some(request.value.query);
        url := Some(request.value.url);
        path := Some(request.value.path);
        httpMethod := Some(request.value.httpMethod);
      } else {
        headers, query, url, path, httpMethod := None, None, None, None, None;
      }
    }

    /** What a strategy can observe of this request. */
    function View(): ShimView
      reads this
    {
      ShimView(headers, query, url, path, httpMethod)
    }
  }

  /** The user object a strategy reports, known only by its identity. */
  datatype User = User(handle: nat)

  /** A JavaScript `Error`, of which the model keeps the message. */
  datatype ErrorObject = ErrorObject(message: string)

  /**
   * How a strategy's `authenticate` ends: with a call to `success`, `fail` or
   * `error`, or by throwing before it calls any of them.
   */
  datatype Call =
    | Success(user: User)
    | Fail(challenge: string)
    | Errored(error: string)
    | Threw(thrown: ErrorObject)

  /** The state of a promise. */
  datatype Settlement = Pending | Resolved(user: User) | Rejected(reason: ErrorObject)

  /** A promise settles once; later `resolve`/`reject` calls have no effect. */
  function Settle(current: Settlement, outcome: Settlement): (r: Settlement)
    ensures !current.Pending? ==> r == current
    ensures current.Pending? ==> r == outcome
    ensures !outcome.Pending? ==> !r.Pending?
  {
    if current.Pending? then outcome else current
  }

  /** The promise an `authenticate` call returns, with its `resolve` and `reject`. */
  class Promise {
    var state: Settlement

    constructor ()
      ensures state == Pending
    {
      state := Pending;
    }

    method Resolve(user: User)
      modifies this
      ensures state == Settle(old(state), Resolved(user))
    {
      state := Settle(state, Resolved(user));
    }

    method Reject(reason: ErrorObject)
      modifies this
      ensures state == Settle(old(state), Rejected(reason))
    {
      state := Settle(state, Rejected(reason));
    }
  }

  /** A passport strategy: for each request, the handler its `authenticate` calls. */
  class Strategy {
    const decide: ShimView -> Call

    constructor (decide: ShimView -> Call)
      ensures this.decide == decide
    {
      this.decide := decide;
    }
  }

  /**
   * `Object.create(strategy)`: a new object whose prototype is the wrapped
   * strategy and whose own fields are the three handlers. A handler is
   * represented by the promise it settles; `null` is a handler not installed.
   */
  class StrategyInstance {
    const prototype: Strategy
    var success: Promise?
    var fail: Promise?
    var error: Promise?

    constructor (prototype: Strategy)
      ensures this.prototype == prototype
      ensures success == null && fail == null && error == null
    {
      this.prototype := prototype;
      success, fail, error := null, null, null;
    }

    /**
     * The inherited `authenticate`: the strategy decides, and the matching
     * handler settles its promise. `success(user)` resolves with the user;
     * `fail(challenge)` and `error(e)` reject with an `Error` carrying the
     * challenge or `e` as its message. A strategy that throws settles
     * nothing and hands the thrown value back.
     */
    method Authenticate(req: ShimRequest) returns (thrown: Option<ErrorObject>)
      requires success != null && fail != null && error != null
      modifies success, fail, error
      ensures thrown.Some? <==> prototype.decide(req.View()).Threw?
      ensures thrown.Some? ==>
        && thrown.value == prototype.decide(req.View()).thrown
        && success.state == old(success.state)
        && fail.state == old(fail.state)
        && error.state == old(error.state)
      ensures prototype.decide(req.View()).Success? ==>
        && success.state == Settle(old(success.state), Resolved(prototype.decide(req.View()).user))
        && (fail != success ==> fail.state == old(fail.state))
        && (error != success ==> error.state == old(error.state))
      ensures prototype.decide(req.View()).Fail? ==>
        && fail.state == Settle(old(fail.state), Rejected(ErrorObject(prototype.decide(req.View()).challenge)))
        && (success != fail ==> success.state == old(success.state))
        && (error != fail ==> error.state == old(error.state))
      ensures prototype.decide(req.View()).Errored? ==>
        && error.state == Settle(old(error.state), Rejected(ErrorObject(prototype.decide(req.View()).error)))
        && (success != error ==> success.state == old(success.state))
        && (fail != error ==> fail.state == old(fail.state))
    {
      thrown := None;
      match prototype.decide(req.View())
      case Success(user) =>
        success.Resolve(user);
      case Fail(challenge) =>
        fail.Reject(ErrorObject(challenge));
      case Errored(e) =>
        error.Reject(ErrorObject(e));
      case Threw(reason) =>
        thrown := Some(reason);
    }
  }

  /** What a handler call, or a throw before any, settles a fresh promise to. */
  function Outcome(call: Call): (r: Settlement)
    ensures r != Pending
  {
    match call
    case Success(user) => Resolved(user)
    case Fail(challenge) => Rejected(ErrorObject(challenge))
    case Errored(e) => Rejected(ErrorObject(e))
    case Threw(reason) => Rejected(reason)
  }

  /** Runs a passport strategy and turns its callbacks into one result. */
  class StrategyAdapter {
    const strategyCtor: Strategy

    constructor (strategy: Strategy)
      ensures strategyCtor == strategy
    {
      strategyCtor := strategy;
    }

    /**
     * Each call shims the request, builds a fresh instance on top of the
     * wrapped strategy, installs the three handlers on that instance only, and
     * returns the promise they settle. A throw inside the promise executor
     * rejects that promise with the thrown value. With no `modifies` clause,
     * no object that existed before the call is changed: the handlers live on
     * the fresh instance, never on the wrapped strategy.
     */
    method Authenticate(req: ParsedRequest)
      returns (result: Promise, ghost shim: ShimRequest, ghost instance: StrategyInstance)
      ensures fresh(result) && fresh(shim) && fresh(instance)
      ensures shim.View() == ShimView(Some(req.headers), Some(req.query), Some(req.url), Some(req.path), Some(req.httpMethod))
      ensures instance.prototype == strategyCtor
      ensures instance.success == result && instance.fail == result && instance.error == result
      ensures result.state == Outcome(strategyCtor.decide(shim.View()))
    {
      var shimReq := new ShimRequest(Some(req));
      result := new Promise();
      var strategy := new StrategyInstance(strategyCtor);
      strategy.success := result;
      strategy.fail := result;
      strategy.error := result;
      var thrown := strategy.Authenticate(shimReq);
      if thrown.Some? {
        result.Reject(thrown.value);
      }
      shim, instance := shimReq, strategy;
    }
  }

  /**
   * The result resolves to a user exactly when the strategy called
   * `success` with that user, and rejects with message `m` exactly when it
   * called `fail(m)` or `error(m)`, or threw an `Error` with message `m`.
   */
  lemma OutcomeCharacterized(call: Call, user: User, m: string)
    ensures Outcome(call) == Resolved(user) <==> call == Success(user)
    ensures Outcome(call) == Rejected(ErrorObject(m)) <==>
      call == Fail(m) || call == Errored(m) || call == Threw(ErrorObject(m))
  {
  }
}
