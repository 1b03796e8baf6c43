/**
 * The `CompletableFuture` a stream listener completes and the requesting thread waits on:
 * only the first completion counts, and a bounded wait returns the value, rethrows the
 * failure, times out or is interrupted.
 */
module Awaiter {
  import opened Errors

  /** The failures a listener completes its future with. */
  datatype AwaitError = UnauthorizedException | Http2Exception(error: Http2Error)

  datatype Completion<T> = Incomplete | Completed(value: T) | CompletedExceptionally(failure: AwaitError)

  predicate IsDone<T>(c: Completion<T>) {
    !c.Incomplete?
  }

  /** `complete(v)`: takes effect only while the future is not yet done. */
  function Complete<T>(c: Completion<T>, v: T): (r: Completion<T>)
    ensures IsDone(r)
    ensures IsDone(c) ==> r == c
    ensures !IsDone(c) ==> r == Completed(v)
  {
    if IsDone(c) then c else Completed(v)
  }

  /** `completeExceptionally(e)`: takes effect only while the future is not yet done. */
  function CompleteExceptionally<T>(c: Completion<T>, e: AwaitError): (r: Completion<T>)
    ensures IsDone(r)
    ensures IsDone(c) ==> r == c
    ensures !IsDone(c) ==> r == CompletedExceptionally(e)
  {
    if IsDone(c) then c else CompletedExceptionally(e)
  }

  /** The failure a listener reports an error with: authorisation failures are abstracted into their own exception. */
  function ExceptionFor(error: Http2Error): (e: AwaitError)
    ensures e == UnauthorizedException <==> error == Unauthorized
    ensures e.Http2Exception? ==> e.error == error
  {
    if error == Unauthorized then UnauthorizedException else Http2Exception(error)
  }

  /** An attempt to complete a future. */
  datatype Write<T> = Value(v: T) | Failure(e: AwaitError)

  function ApplyWrite<T>(c: Completion<T>, w: Write<T>): Completion<T> {
    match w
    case Value(v) => Complete(c, v)
    case Failure(e) => CompleteExceptionally(c, e)
  }

  function ApplyWrites<T>(c: Completion<T>, ws: seq<Write<T>>): Completion<T>
    decreases |ws|
  {
    if ws == [] then c else ApplyWrites(ApplyWrite(c, ws[0]), ws[1..])
  }

  function Outcome<T>(w: Write<T>): Completion<T> {
    match w
    case Value(v) => Completed(v)
    case Failure(e) => CompletedExceptionally(e)
  }

  /** A done future never changes again, whatever is written to it later. */
  lemma {:induction false} DoneIsFinal<T>(c: Completion<T>, ws: seq<Write<T>>)
    requires IsDone(c)
    ensures ApplyWrites(c, ws) == c
    decreases |ws|
  {
    if ws != [] {
      DoneIsFinal(ApplyWrite(c, ws[0]), ws[1..]);
    }
  }

  /** The first write to a fresh future decides it: later completions are ignored. */
  lemma FirstWriteWins<T>(ws: seq<Write<T>>)
    requires ws != []
    ensures ApplyWrites(Incomplete, ws) == Outcome(ws[0])
  {
    var first := ApplyWrite(Incomplete, ws[0]);
    DoneIsFinal(first, ws[1..]);
  }

  /** What `get(timeout)` yields for the waiting thread. */
  datatype Awaited<T> = Got(value: T) | ExecutionFailed(cause: AwaitError) | TimedOut | WaitInterrupted

  /**
   * A bounded wait on a future: a done future answers at once; otherwise the wait ends either
   * by an interrupt or, with the future still not done, by the timeout.
   */
  function Await<T>(c: Completion<T>, interrupted: bool): (r: Awaited<T>)
    ensures r.Got? <==> c.Completed?
    ensures r.Got? ==> r.value == c.value
    ensures r.ExecutionFailed? <==> c.CompletedExceptionally?
    ensures r.ExecutionFailed? ==> r.cause == c.failure
    ensures r.TimedOut? <==> !IsDone(c) && !interrupted
    ensures r.WaitInterrupted? <==> !IsDone(c) && interrupted
  {
    match c
    case Completed(v) => Got(v)
    case CompletedExceptionally(e) => ExecutionFailed(e)
    case Incomplete => if interrupted then WaitInterrupted else TimedOut
  }
}
