/**
 * The stream listeners of the bridge. Every listener owns the future the requesting thread
 * waits on and the content type of the response; a GET/PUT listener also collects the
 * response body, an SSE listener the text of the message being received. Each callback says
 * which error, if any, it hands on to the bridge's delayed fatal-error handling.
 */
module Listeners {
  import opened Wrappers
  import opened Text
  import opened Errors
  import opened Awaiter
  import opened Collector
  import Sse

  const UNDEFINED_CONTENT_TYPE: string := "UNDEFINED"

  /** The part every stream listener shares (`BaseStreamListenerAdapter`). */
  class BaseStreamListener<T> {
    var completable: Completion<T>
    var contentType: string

    constructor ()
      ensures completable == Incomplete && contentType == UNDEFINED_CONTENT_TYPE
    {
      completable := Incomplete;
      contentType := UNDEFINED_CONTENT_TYPE;
    }

    /** Completes the future normally, unless it is already done. */
    method Complete(v: T)
      modifies this
      ensures completable == Awaiter.Complete(old(completable), v)
      ensures contentType == old(contentType)
    {
      if !IsDone(completable) {
        completable := Completed(v);
      }
    }

    /**
     * Fails the future with the exception for `error` (an authorisation failure becomes its own
     * exception), unless it is already done; the caller then reports `error` to the bridge.
     */
    method HandleHttp2Error(error: Http2Error)
      modifies this
      ensures completable == CompleteExceptionally(old(completable), ExceptionFor(error))
      ensures contentType == old(contentType)
    {
      var e := if error == Unauthorized then UnauthorizedException else Http2Exception(error);
      if !IsDone(completable) {
        completable := CompletedExceptionally(e);
      }
    }

    /**
     * A HEADERS frame arrived. A 401 or 403 response fails the future and is reported; any
     * response, including those, records its Content-Type header in lower case.
     */
    method OnHeaders(isResponse: bool, status: int, contentTypeField: string) returns (reported: Option<Http2Error>)
      modifies this
      ensures reported == HeaderError(isResponse, status)
      ensures completable == if reported.Some? then CompleteExceptionally(old(completable), UnauthorizedException)
                             else old(completable)
      ensures contentType == if isResponse then ToLower(contentTypeField) else old(contentType)
    {
      reported := None;
      if isResponse {
        if status == UNAUTHORIZED_401 || status == FORBIDDEN_403 {
          HandleHttp2Error(Unauthorized);
          reported := Some(Unauthorized);
        }
        contentType := ToLower(contentTypeField);
      }
    }

    /** The requesting thread's bounded wait on the future. */
    method AwaitResult(interrupted: bool) returns (r: Awaited<T>)
      ensures r == Await(completable, interrupted)
    {
      match completable
      case Completed(v) => r := Got(v);
      case CompletedExceptionally(e) => r := ExecutionFailed(e);
      case Incomplete => r := if interrupted then WaitInterrupted else TimedOut;
    }
  }

  /** The listener of a GET or PUT stream (`ContentStreamListenerAdapter`). */
  class ContentStreamListener {
    const base: BaseStreamListener<string>
    const content: DataFrameCollector

    ghost predicate Valid()
      reads this, content
    {
      content.Valid()
    }

    constructor ()
      ensures Valid() && fresh(base) && fresh(content) && fresh(content.buffer)
      ensures base.completable == Incomplete && base.contentType == UNDEFINED_CONTENT_TYPE
      ensures content.Content() == []
    {
      base := new BaseStreamListener<string>();
      content := new DataFrameCollector();
    }

    /**
     * A DATA frame arrived: its bytes are collected; the frame that ends the stream completes a
     * future that is not yet done with the trimmed body and empties the collector.
     */
    method OnData(chunk: seq<byte>, endStream: bool)
      requires Valid()
      modifies base, content, content.buffer
      ensures Valid()
      ensures var finished := endStream && !IsDone(old(base.completable));
              && base.completable == (if finished then Completed(Trim(AsText(old(content.Content()) + chunk)))
                                      else old(base.completable))
              && content.Content() == (if finished then [] else old(content.Content()) + chunk)
      ensures base.contentType == old(base.contentType)
    {
      content.Append(chunk);
      if endStream && !IsDone(base.completable) {
        var text := content.ContentAsString();
        base.Complete(Trim(text));
        content.Reset();
      }
    }

    /** A lifecycle callback: idle timeout and timeout fail the future and are reported; the rest are ignored. */
    method OnSignal(signal: Signal) returns (reported: Option<Http2Error>)
      modifies base
      ensures reported == Classify(ContentListener, signal)
      ensures base.completable == if reported.Some? then CompleteExceptionally(old(base.completable), Http2Exception(reported.value))
                                  else old(base.completable)
      ensures base.contentType == old(base.contentType)
    {
      reported := None;
      if signal == OnIdleTimeout {
        base.HandleHttp2Error(Idle);
        reported := Some(Idle);
      } else if signal == OnTimeout {
        base.HandleHttp2Error(Timeout);
        reported := Some(Timeout);
      }
    }
  }

  /** The listener of the SSE stream (`EventStreamListenerAdapter`). */
  class EventStreamListener {
    const base: BaseStreamListener<bool>
    const eventData: DataFrameCollector

    ghost predicate Valid()
      reads this, eventData
    {
      eventData.Valid()
    }

    constructor ()
      ensures Valid() && fresh(base) && fresh(eventData) && fresh(eventData.buffer)
      ensures base.completable == Incomplete && base.contentType == UNDEFINED_CONTENT_TYPE
      ensures eventData.Content() == []
    {
      base := new BaseStreamListener<bool>();
      eventData := new DataFrameCollector();
    }

    /**
     * A DATA frame arrived: the whole buffered text is scanned again. A complete message empties
     * the buffer and completes the future with true (any message proves the stream is up); the
     * joined payload of its data lines, trimmed, is the event handed to the bridge when it is
     * not empty.
     */
    method OnData(chunk: seq<byte>) returns (event: Option<string>)
      requires Valid()
      modifies base, eventData, eventData.buffer
      ensures Valid()
      ensures var step := Sse.OnChunk(AsText(old(eventData.Content())), AsText(chunk));
              && AsText(eventData.Content()) == step.buffer
              && eventData.Content() == (if step.complete then [] else old(eventData.Content()) + chunk)
              && event == step.event
              && base.completable == (if step.complete then Awaiter.Complete(old(base.completable), true)
                                      else old(base.completable))
      ensures base.contentType == old(base.contentType)
    {
      ghost var before := eventData.Content();
      eventData.Append(chunk);
      var text := eventData.ContentAsString();
      AsTextAppend(before, chunk);
      var frame := Sse.FrameText(text);
      event := None;
      if frame.complete {
        eventData.Reset();
        base.Complete(true);
        event := frame.event;
      }
    }

    /** A lifecycle callback: being closed or reset fails the future and is reported; idle timeouts are ignored. */
    method OnSignal(signal: Signal) returns (reported: Option<Http2Error>)
      modifies base
      ensures reported == Classify(EventListener, signal)
      ensures base.completable == if reported.Some? then CompleteExceptionally(old(base.completable), Http2Exception(reported.value))
                                  else old(base.completable)
      ensures base.contentType == old(base.contentType)
    {
      reported := None;
      if signal == OnClose {
        base.HandleHttp2Error(Closed);
        reported := Some(Closed);
      } else if signal == OnReset {
        base.HandleHttp2Error(Reset);
        reported := Some(Reset);
      }
    }
  }
}
