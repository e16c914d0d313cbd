/** The tagged success/failure container and its railway-style composition. */
module Results {
  import opened Values

  /** `SuccessResult | ErrorResult`. The `debug` field is absent on construction and is
      filled in afterwards by the debug-result helper with the collected log entries. */
  datatype Result<+D, +E> =
    | Success(data: D, debug: Option<seq<Entry>>)
    | Failure(error: E, debug: Option<seq<Entry>>)

  /** The object an action resolves with. The helper that drains the log writes its
      `debug` field in place, so every holder of the same object sees that write. */
  class ResultObject<D, E> {
    var value: Result<D, E>

    constructor (value: Result<D, E>)
      ensures this.value == value
    {
      this.value := value;
    }
  }

  /** `ok(data)`: a success carrying `data` and no debug trail. */
  function Ok<D, E>(data: D): (r: Result<D, E>)
    ensures r.Success? && r.data == data
    ensures r.debug.None?
  {
    Success(data, None)
  }

  /** `fail(error)`: a failure carrying `error` and no debug trail.
      The argument-less `fail()` is `Fail(Undefined)`. */
  function Fail<D, E>(error: E): (r: Result<D, E>)
    ensures r.Failure? && r.error == error
    ensures r.debug.None?
  {
    Failure(error, None)
  }

  /** `empty()`: a success whose payload is `undefined`. */
  function Empty<E>(): (r: Result<Undefined, E>)
    ensures r.Success? && r.debug.None?
  {
    Ok(Undefined)
  }

  /** `bind(fn)(result)`: apply `fn` to the payload of a success; hand a failure on
      as it is, with its error and debug trail. */
  function Bind<D, E, N>(fn: D -> Result<N, E>, result: Result<D, E>): (r: Result<N, E>)
    ensures result.Success? ==> r == fn(result.data)
    ensures result.Failure? ==> r.Failure? && r.error == result.error && r.debug == result.debug
  {
    match result
    case Success(data, _) => fn(data)
    case Failure(error, debug) => Failure(error, debug)
  }

  /** A failure never reaches `fn`: the outcome does not depend on which function is bound. */
  lemma BindFailureIgnoresFn<D, E, N>(f: D -> Result<N, E>, g: D -> Result<N, E>, result: Result<D, E>)
    requires result.Failure?
    ensures Bind(f, result) == Bind(g, result)
  {
  }

  /** Left identity: binding onto `ok(d)` is calling the function on `d`. */
  lemma BindOk<D, E, N>(fn: D -> Result<N, E>, data: D)
    ensures Bind(fn, Ok<D, E>(data)) == fn(data)
  {
  }

  /** A failure built by `fail(e)` comes out of any chain of binds as `fail(e)`. */
  lemma BindFail<D, E, N>(fn: D -> Result<N, E>, error: E)
    ensures Bind(fn, Fail<D, E>(error)) == Fail<N, E>(error)
  {
  }

  /** Right identity, for results that carry no debug trail yet. */
  lemma BindOkIdentity<D, E>(result: Result<D, E>)
    requires result.debug.None?
    ensures Bind((d: D) => Ok<D, E>(d), result) == result
  {
  }

  /** Associativity: chaining two binds is binding their composition. */
  lemma BindAssociative<D, E, N, M>(f: D -> Result<N, E>, g: N -> Result<M, E>, result: Result<D, E>)
    ensures Bind(g, Bind(f, result)) == Bind((d: D) => Bind(g, f(d)), result)
  {
  }
}
