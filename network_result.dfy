/** The tri-state outcome every store call returns, and its pass-through chaining helpers.
    A helper's callback is the only effect it has; here it is returned as the payload the
    callback would have received. */
module NetworkResults {
  import opened Models

  /** The runtime classes of the causes the error handler tells apart. UnknownHostException
      and SocketTimeoutException are both subclasses of IOException; NonIO stands for every
      other `Exception`. */
  datatype FailureKind = UnknownHost | SocketTimeout | OtherIO | NonIO

  /** A thrown cause: its class and its message. */
  datatype Throwable = Throwable(kind: FailureKind, message: Option<string>)

  /** `Error`'s code defaults to null, as in Kotlin. */
  datatype NetworkResult<T> =
    | Success(data: T)
    | Error(message: string, code: Option<Int32> := None)
    | Exception(exception: Throwable)

  /** The arguments one callback was invoked with. */
  datatype Invocation<T> =
    | SuccessAction(value: T)
    | ErrorAction(message: string, code: Option<Int32>)
    | ExceptionAction(exception: Throwable)

  /** An `Error` built from a message alone carries no code. */
  lemma ErrorWithoutCode<T>(message: string)
    ensures var r: NetworkResult<T> := Error(message); r.Error? && r.message == message && r.code == None
  {
  }

  /** What a matching callback receives from a result. */
  function Payload<T>(r: NetworkResult<T>): Invocation<T>
  {
    match r
    case Success(d) => SuccessAction(d)
    case Error(m, c) => ErrorAction(m, c)
    case Exception(e) => ExceptionAction(e)
  }

  /** `onSuccess`: the callback runs exactly on a Success, with its data; the receiver is returned. */
  function OnSuccess<T>(r: NetworkResult<T>): (out: (NetworkResult<T>, Option<Invocation<T>>))
    ensures out.0 == r
    ensures out.1.Some? <==> r.Success?
    ensures out.1.Some? ==> out.1.value == SuccessAction(r.data)
  {
    if r.Success? then (r, Some(SuccessAction(r.data))) else (r, None)
  }

  /** `onError`: the callback runs exactly on an Error, with its message and code. */
  function OnError<T>(r: NetworkResult<T>): (out: (NetworkResult<T>, Option<Invocation<T>>))
    ensures out.0 == r
    ensures out.1.Some? <==> r.Error?
    ensures out.1.Some? ==> out.1.value == ErrorAction(r.message, r.code)
  {
    if r.Error? then (r, Some(ErrorAction(r.message, r.code))) else (r, None)
  }

  /** `onException`: the callback runs exactly on an Exception, with its cause. */
  function OnException<T>(r: NetworkResult<T>): (out: (NetworkResult<T>, Option<Invocation<T>>))
    ensures out.0 == r
    ensures out.1.Some? <==> r.Exception?
    ensures out.1.Some? ==> out.1.value == ExceptionAction(r.exception)
  {
    if r.Exception? then (r, Some(ExceptionAction(r.exception))) else (r, None)
  }

  /** One link of a fluent chain `r.onSuccess { }.onError { }.onException { }`. */
  datatype Helper = OnSuccessHelper | OnErrorHelper | OnExceptionHelper

  predicate Handles<T>(h: Helper, r: NetworkResult<T>)
  {
    match h
    case OnSuccessHelper => r.Success?
    case OnErrorHelper => r.Error?
    case OnExceptionHelper => r.Exception?
  }

  function Apply<T>(h: Helper, r: NetworkResult<T>): (NetworkResult<T>, Option<Invocation<T>>)
  {
    match h
    case OnSuccessHelper => OnSuccess(r)
    case OnErrorHelper => OnError(r)
    case OnExceptionHelper => OnException(r)
  }

  /** Runs a chain of helpers left to right: the value the chain ends with and the callbacks
      invoked, in order. */
  function Chain<T>(r: NetworkResult<T>, hs: seq<Helper>): (NetworkResult<T>, seq<Invocation<T>>)
    decreases |hs|
  {
    if hs == [] then (r, [])
    else
      var (r1, fired) := Apply(hs[0], r);
      var (r2, rest) := Chain(r1, hs[1..]);
      (r2, (if fired.Some? then [fired.value] else []) + rest)
  }

  /** The helpers of a chain that match the result's variant. */
  function CountHandling<T>(hs: seq<Helper>, r: NetworkResult<T>): nat
    decreases |hs|
  {
    if hs == [] then 0 else (if Handles(hs[0], r) then 1 else 0) + CountHandling(hs[1..], r)
  }

  /** Any chain of helpers returns the value it started from. */
  lemma {:induction false} ChainReturnsReceiver<T>(r: NetworkResult<T>, hs: seq<Helper>)
    ensures Chain(r, hs).0 == r
    decreases |hs|
  {
    if hs != [] {
      ChainReturnsReceiver(Apply(hs[0], r).0, hs[1..]);
    }
  }

  /** Along a chain, exactly the helpers matching the variant fire, each with the result's own
      payload. */
  lemma {:induction false} ChainInvocations<T>(r: NetworkResult<T>, hs: seq<Helper>)
    ensures |Chain(r, hs).1| == CountHandling(hs, r)
    ensures forall k :: 0 <= k < |Chain(r, hs).1| ==> Chain(r, hs).1[k] == Payload(r)
    decreases |hs|
  {
    if hs != [] {
      ChainInvocations(r, hs[1..]);
      var (r1, fired) := Apply(hs[0], r);
      assert r1 == r;
      assert fired.Some? <==> Handles(hs[0], r);
      assert fired.Some? ==> fired.value == Payload(r);
    }
  }
}
