/** `RealDownloadCall`: the older engine. It writes a response body into a
    caller-supplied output stream and reports through a three-method callback
    (success, failure, progress); every callback task catches and prints what
    the caller's code throws. */
module RealDownload {
  import opened Common
  import opened Transport

  /** The caller's callback, represented by what each of its methods throws. */
  datatype DownloadCallback = DownloadCallback(
    onSuccess: () -> Option<Throwable>,
    onFailure: Throwable -> Option<Throwable>,
    onProgress: (int, int) -> Option<Throwable>)

  /** One entry of the callback trace: a call into the caller's callback, or
      the stack trace a callback task printed after catching its exception. */
  datatype CallEvent =
    | OnSuccess
    | OnFailure(error: Throwable)
    | OnProgress(totalBytesDownloaded: int, totalBytes: int)
    | StackTrace(error: Throwable)

  /** The failure reported for an unsuccessful response. */
  function HttpFailure(response: Response): Throwable
  {
    Exception("HTTP: " + IntString(response.code) + " " + response.message)
  }

  /** The rejected response's status can be read back from the message. */
  lemma HttpFailureNamesCode(response: Response)
    requires response.code >= 0
    ensures var m := HttpFailure(response).message;
            var digits := NatString(response.code);
            && m[..6] == "HTTP: " && m[6 + |digits|] == ' '
            && DigitsValue(m[6..6 + |digits|]) == response.code
            && m[7 + |digits|..] == response.message
  {
    var digits := NatString(response.code);
    var m := HttpFailure(response).message;
    assert m == "HTTP: " + digits + " " + response.message;
    assert m[6..6 + |digits|] == digits;
    NatStringRoundTrip(response.code);
  }

  // ---------------------------------------------------------------------
  // One notification
  // ---------------------------------------------------------------------

  /** The outcome of a copy: the bytes written to the stream, the callback
      calls it made, and what stopped it. */
  datatype Transfer = Transfer(raw: seq<byte>, events: seq<CallEvent>, failure: Option<Throwable>)

  /** The forwarding source's reads from read `k` on: "Canceled" before any
      read once the flag is set; otherwise the total grows by the bytes read
      (by nothing at the end of the stream) and every read, the end-of-stream
      one included, reports the total. */
  function Drain(body: Body, interference: Interference, canceled: bool, k: nat,
                 raw: seq<byte>, events: seq<CallEvent>, total: int): Transfer
    requires k <= |body.chunks|
    decreases |body.chunks| - k
  {
    if canceled || interference == CancelBeforeRead(k) then Transfer(raw, events, Some(CANCELED))
    else if k == |body.chunks| then Transfer(raw, events + [OnProgress(total, body.contentLength)], None)
    else
      var chunk := body.chunks[k];
      Drain(body, interference, false, k + 1, raw + chunk,
            events + [OnProgress(total + |chunk|, body.contentLength)], total + |chunk|)
  }

  /** The progress reports of the first `m` reads of chunks. */
  function Totals(chunks: seq<seq<byte>>, m: nat, contentLength: int): seq<CallEvent>
    requires m <= |chunks|
  {
    seq(m, i requires 0 <= i < m => OnProgress(|Flatten(chunks[..i + 1])|, contentLength))
  }

  /** Where a copy that starts with flag `canceled` stops: at the first read
      if the flag is set, before read `j` if the cancel comes then, or never. */
  function CancelPoint(body: Body, interference: Interference, canceled: bool): Option<nat>
  {
    if canceled then Some(0)
    else if interference.CancelBeforeRead? && interference.read <= |body.chunks| then Some(interference.read)
    else None
  }

  lemma {:induction false} DrainFrom(body: Body, interference: Interference, canceled: bool, k: nat,
                                     raw: seq<byte>, events: seq<CallEvent>, total: int)
    requires k <= |body.chunks|
    requires raw == Flatten(body.chunks[..k]) && total == |raw|
    requires events == Totals(body.chunks, k, body.contentLength)
    requires canceled ==> k == 0
    requires interference.CancelBeforeRead? ==> k <= interference.read
    ensures Drain(body, interference, canceled, k, raw, events, total) ==
      match CancelPoint(body, interference, canceled)
      case Some(j) =>
        Transfer(Flatten(body.chunks[..j]), Totals(body.chunks, j, body.contentLength), Some(CANCELED))
      case None =>
        Transfer(Flatten(body.chunks),
                 Totals(body.chunks, |body.chunks|, body.contentLength)
                   + [OnProgress(|Flatten(body.chunks)|, body.contentLength)],
                 None)
    decreases |body.chunks| - k
  {
    if canceled || interference == CancelBeforeRead(k) {
    } else if k == |body.chunks| {
      assert body.chunks[..k] == body.chunks;
    } else {
      var chunk := body.chunks[k];
      var e := OnProgress(total + |chunk|, body.contentLength);
      FlattenStep(body.chunks, k);
      assert events + [e] == Totals(body.chunks, k + 1, body.contentLength);
      DrainFrom(body, interference, false, k + 1, raw + chunk, events + [e], total + |chunk|);
    }
  }

  /** The stream and the callback after one notification. */
  datatype Delivery = Delivery(events: seq<CallEvent>, written: seq<byte>, canceled: bool)

  /** Whether the handler copies the reply's body, and so opens (and later
      closes) a source over it. */
  predicate CopiesBody(reply: Reply)
  {
    reply.Replied? && reply.response.IsSuccessful()
  }

  /** The notification handler installed by `enqueue`, given the delegate's
      reply and the flag when the reply arrived. The callback calls are
      listed without the stack traces the tasks may print. */
  function EnqueueSpec(reply: Reply, canceled: bool, interference: Interference): Delivery
  {
    match reply
    case Failed(t) => Delivery([OnFailure(t)], [], canceled)
    case Replied(response) =>
      if !response.IsSuccessful() then Delivery([OnFailure(HttpFailure(response))], [], canceled)
      else Completed(Drain(response.body, interference, canceled, 0, [], [], 0))
  }

  /** The completion call reporting how a copy ended. */
  function Completion(failure: Option<Throwable>): CallEvent
  {
    if failure.None? then OnSuccess else OnFailure(failure.value)
  }

  /** A copy followed by its completion call; the flag is set exactly when
      the copy stopped on a cancel. */
  function Completed(run: Transfer): Delivery
  {
    Delivery(run.events + [Completion(run.failure)], run.raw, run.failure == Some(CANCELED))
  }

  /** A successful response is copied whole unless a cancel stops it. A
      complete copy reports every chunk's read and then the end-of-stream
      read, which repeats the final total, and ends in onSuccess; a canceled
      copy reports only the reads before the cancel, ends in
      onFailure("Canceled") and leaves the flag set. */
  lemma CopyOutcome(response: Response, canceled: bool, interference: Interference)
    requires response.IsSuccessful()
    ensures var body := response.body;
            EnqueueSpec(Replied(response), canceled, interference) ==
              match CancelPoint(body, interference, canceled)
              case None =>
                Delivery(Totals(body.chunks, |body.chunks|, body.contentLength)
                           + [OnProgress(|Flatten(body.chunks)|, body.contentLength), OnSuccess],
                         Flatten(body.chunks), false)
              case Some(j) =>
                Delivery(Totals(body.chunks, j, body.contentLength) + [OnFailure(CANCELED)],
                         Flatten(body.chunks[..j]), true)
  {
    assert response.body.chunks[..0] == [];
    DrainFrom(response.body, interference, canceled, 0, [], [], 0);
  }

  /** The progress reports never go down, all carry the content length, and
      the last of them equals the bytes read so far. */
  lemma TotalsGrow(chunks: seq<seq<byte>>, m: nat, contentLength: int)
    requires m <= |chunks|
    ensures var p := Totals(chunks, m, contentLength);
            && (forall i, j :: 0 <= i <= j < m ==> p[i].totalBytesDownloaded <= p[j].totalBytesDownloaded)
            && (forall i :: 0 <= i < m ==> p[i].totalBytes == contentLength)
            && (m > 0 ==> p[m - 1].totalBytesDownloaded == |Flatten(chunks[..m])|)
  {
    var p := Totals(chunks, m, contentLength);
    forall i, j | 0 <= i <= j < m
      ensures p[i].totalBytesDownloaded <= p[j].totalBytesDownloaded
    {
      FlattenPrefixGrows(chunks, i + 1, j + 1);
    }
  }

  /** An unsuccessful response or a transport failure yields exactly one
      onFailure, and no byte reaches the stream. */
  lemma EnqueueRejects(reply: Reply, canceled: bool, interference: Interference)
    requires reply.Failed? || !reply.response.IsSuccessful()
    ensures var d := EnqueueSpec(reply, canceled, interference);
            && d.written == []
            && d.events == [OnFailure(if reply.Failed? then reply.error else HttpFailure(reply.response))]
  {
  }

  // ---------------------------------------------------------------------
  // Dispatching callbacks
  // ---------------------------------------------------------------------

  /** What the caller's code throws when the call `e` is run. */
  function Thrown(callback: DownloadCallback, e: CallEvent): Option<Throwable>
  {
    match e
    case OnSuccess => callback.onSuccess()
    case OnFailure(t) => callback.onFailure(t)
    case OnProgress(done, total) => callback.onProgress(done, total)
    case StackTrace(_) => None
  }

  /** The trace entries of one callback task: the call, then the stack trace
      it printed if the caller's code threw. */
  function Task(callback: DownloadCallback, e: CallEvent): seq<CallEvent>
  {
    match Thrown(callback, e)
    case None => [e]
    case Some(t) => [e, StackTrace(t)]
  }

  /** The trace of a sequence of callback tasks. */
  function Dispatched(callback: DownloadCallback, es: seq<CallEvent>): seq<CallEvent>
  {
    if es == [] then [] else Dispatched(callback, es[..|es| - 1]) + Task(callback, es[|es| - 1])
  }

  lemma DispatchedAppend(callback: DownloadCallback, es: seq<CallEvent>, e: CallEvent)
    ensures Dispatched(callback, es + [e]) == Dispatched(callback, es) + Task(callback, e)
  {
    assert (es + [e])[..|es|] == es;
  }

  /** The calls in a trace, without the printed stack traces. */
  function Calls(trace: seq<CallEvent>): seq<CallEvent>
  {
    if trace == [] then []
    else Calls(trace[..|trace| - 1]) + (if trace[|trace| - 1].StackTrace? then [] else [trace[|trace| - 1]])
  }

  lemma CallsAppend(a: seq<CallEvent>, b: seq<CallEvent>)
    ensures Calls(a + b) == Calls(a) + Calls(b)
    decreases |b|
  {
    if b == [] {
      assert a + b == a;
    } else {
      assert (a + b)[..|a + b| - 1] == a + b[..|b| - 1];
      assert (a + b)[|a + b| - 1] == b[|b| - 1];
      CallsAppend(a, b[..|b| - 1]);
    }
  }

  /** Whatever the caller's code throws, the tasks catch it: the calls made
      are exactly the ones dispatched, in order. */
  lemma {:induction false} CallerExceptionsStayInTasks(callback: DownloadCallback, es: seq<CallEvent>)
    requires forall i :: 0 <= i < |es| ==> !es[i].StackTrace?
    ensures Calls(Dispatched(callback, es)) == es
    decreases |es|
  {
    if es != [] {
      var init := es[..|es| - 1];
      var last := es[|es| - 1];
      assert init + [last] == es;
      CallerExceptionsStayInTasks(callback, init);
      CallsAppend(Dispatched(callback, init), Task(callback, last));
      var task := Task(callback, last);
      assert Calls([last]) == [last] by {
        assert [last][..0] == [];
      }
      if Thrown(callback, last).Some? {
        assert task[..1] == [last];
        assert Calls(task) == Calls([last]);
      }
      assert Calls(task) == [last];
    }
  }

  // ---------------------------------------------------------------------
  // The call and the stream it writes
  // ---------------------------------------------------------------------

  /** The caller's output stream. */
  class OutputStream {
    var content: seq<byte>
    var closed: bool

    constructor ()
      ensures content == [] && !closed
    {
      content := [];
      closed := false;
    }
  }

  class RealDownloadCall {
    const call: Call
    const callbackExecutor: Executor
    var canceled: bool
    /** The callback tasks handed to the executor, in order, as they ran. */
    var trace: seq<CallEvent>
    /** Whether the forwarding source over a response body has been closed. */
    ghost var sourceClosed: bool

    constructor (call: Call, callbackExecutor: Executor)
      ensures this.call == call && this.callbackExecutor == callbackExecutor
      ensures !canceled && trace == [] && !sourceClosed
    {
      this.call := call;
      this.callbackExecutor := callbackExecutor;
      canceled := false;
      trace := [];
      sourceClosed := false;
    }

    function IsCanceled(): bool
      reads this
    {
      canceled
    }

    function IsExecuted(): bool
      reads call
    {
      call.executed
    }

    /** Forwards the cancel to the call only if the flag was clear, then sets
        the flag; a second cancel does nothing. */
    method Cancel()
      modifies this`canceled, call`cancels
      ensures canceled && IsCanceled()
      ensures call.cancels == old(call.cancels) + (if old(canceled) then 0 else 1)
    {
      if !canceled {
        call.Cancel();
      }
      canceled := true;
    }

    /** A new call over a clone of the underlying call, with the same executor
        and a clear flag. */
    method Clone() returns (c: RealDownloadCall)
      ensures fresh(c) && fresh(c.call) && c.callbackExecutor == callbackExecutor
      ensures c.call.reply == call.reply && !c.call.executed && c.call.cancels == 0
      ensures !c.canceled && c.trace == [] && !c.sourceClosed
    {
      var clone := call.Clone();
      c := new RealDownloadCall(clone, callbackExecutor);
    }

    /** Hands one callback task to the executor. */
    method Dispatch(callback: DownloadCallback, e: CallEvent)
      modifies this`trace
      ensures trace == old(trace) + Task(callback, e)
    {
      trace := trace + [e];
      var thrown := Thrown(callback, e);
      if thrown.Some? {
        trace := trace + [StackTrace(thrown.value)];
      }
    }

    /** `sink.writeAll(source)` over the counting source: reads until the end
        of the stream or "Canceled", writing each chunk to `to` and reporting
        the total after every read. Another thread may cancel between reads. */
    method WriteAll(to: OutputStream, callback: DownloadCallback, body: Body, interference: Interference)
      returns (failure: Option<Throwable>)
      modifies this`canceled, this`trace, call`cancels, to`content
      ensures var run := Drain(body, interference, old(canceled), 0, [], [], 0);
              && failure == run.failure
              && to.content == old(to.content) + run.raw
              && trace == old(trace) + Dispatched(callback, run.events)
              && canceled == (old(canceled) || failure == Some(CANCELED))
              && call.cancels == old(call.cancels) + (if !old(canceled) && canceled then 1 else 0)
    {
      var next := 0;
      var totalBytesRead := 0;
      ghost var raw: seq<byte> := [];
      ghost var events: seq<CallEvent> := [];
      ghost var drained := Drain(body, interference, canceled, 0, [], [], 0);
      failure := None;
      var done := false;
      while !done
        invariant next <= |body.chunks|
        invariant to.content == old(to.content) + raw
        invariant trace == old(trace) + Dispatched(callback, events)
        invariant !done ==> failure.None?
                            && drained == Drain(body, interference, canceled, next, raw, events, totalBytesRead)
                            && canceled == old(canceled) && call.cancels == old(call.cancels)
        invariant done ==> drained == Transfer(raw, events, failure)
                           && canceled == (old(canceled) || failure == Some(CANCELED))
                           && call.cancels == old(call.cancels) + (if !old(canceled) && canceled then 1 else 0)
        decreases |body.chunks| - next, if done then 0 else 1
      {
        if interference == CancelBeforeRead(next) {
          Cancel();
        }
        if canceled {
          failure := Some(CANCELED);
          done := true;
        } else {
          var bytesRead;
          if next == |body.chunks| {
            bytesRead := -1;
          } else {
            var chunk := body.chunks[next];
            to.content := to.content + chunk;
            raw := raw + chunk;
            bytesRead := |chunk|;
            next := next + 1;
          }
          totalBytesRead := totalBytesRead + if bytesRead != -1 then bytesRead else 0;
          var e := OnProgress(totalBytesRead, body.contentLength);
          assert (events + [e])[..|events|] == events;
          events := events + [e];
          Dispatch(callback, e);
          done := bytesRead == -1;
        }
      }
    }

    /** The handler of the one notification: a transport failure or an
        unsuccessful response is reported through onFailure; a successful
        body is copied into `to`, then onSuccess or onFailure reports how the
        copy ended. The stream is closed on every path, and the source over
        a copied body once the completion call is made. */
    method Deliver(to: OutputStream, callback: DownloadCallback, reply: Reply, interference: Interference)
      modifies this`canceled, this`trace, this`sourceClosed, call`cancels, to
      ensures var d := EnqueueSpec(reply, old(canceled), interference);
              && trace == old(trace) + Dispatched(callback, d.events)
              && to.content == old(to.content) + d.written && to.closed
              && canceled == d.canceled
              && call.cancels == old(call.cancels) + (if !old(canceled) && canceled then 1 else 0)
              && sourceClosed == (CopiesBody(reply) || old(sourceClosed))
    {
      match reply {
        case Failed(t) =>
          Dispatch(callback, OnFailure(t));
          to.closed := true;
        case Replied(response) =>
          if !response.IsSuccessful() {
            Dispatch(callback, OnFailure(HttpFailure(response)));
            to.closed := true;
          } else {
            CopyBody(to, callback, response.body, interference);
          }
      }
    }

    /** The successful-response branch of the handler: the copy, its
        completion call, then the sink (and with it the stream) and the
        source closed. */
    method CopyBody(to: OutputStream, callback: DownloadCallback, body: Body, interference: Interference)
      modifies this`canceled, this`trace, this`sourceClosed, call`cancels, to
      ensures var d := Completed(Drain(body, interference, old(canceled), 0, [], [], 0));
              && trace == old(trace) + Dispatched(callback, d.events)
              && to.content == old(to.content) + d.written && to.closed
              && canceled == d.canceled
              && call.cancels == old(call.cancels) + (if !old(canceled) && canceled then 1 else 0)
              && sourceClosed
    {
      ghost var run := Drain(body, interference, canceled, 0, [], [], 0);
      var failure := WriteAll(to, callback, body, interference);
      DispatchedAppend(callback, run.events, Completion(failure));
      Finish(to, callback, failure);
    }

    /** After `writeAll`: the completion call reporting `failure`, then the
        `finally` block closing the sink, hence the stream, and the source. */
    method Finish(to: OutputStream, callback: DownloadCallback, failure: Option<Throwable>)
      modifies this`trace, this`sourceClosed, to`closed
      ensures trace == old(trace) + Task(callback, Completion(failure))
      ensures to.closed && sourceClosed
    {
      Dispatch(callback, Completion(failure));
      to.closed := true;
      sourceClosed := true;
    }

    /** `enqueue(to, callback)`: null arguments are refused before the call is
        issued; the one notification is then handled as `EnqueueSpec` says,
        every callback runs in a task that catches what it throws, the
        stream is closed on every path, and a copied body's source is closed
        after the completion call. */
    method Enqueue(to: OutputStream?, callback: Option<DownloadCallback>, interference: Interference)
      returns (thrown: Option<Throwable>)
      modifies this, call, to
      ensures to == null ==> thrown == Some(NullPointerException("to == null"))
      ensures to != null && callback.None? ==> thrown == Some(NullPointerException("callback == null"))
      ensures to == null || callback.None? ==>
                call.executed == old(call.executed) && call.cancels == old(call.cancels)
                && trace == old(trace) && canceled == old(canceled) && sourceClosed == old(sourceClosed)
      ensures to != null && callback.None? ==> to.content == old(to.content) && to.closed == old(to.closed)
      ensures to != null && callback.Some? && old(call.executed) ==>
                thrown == Some(IllegalStateException("Already executed.")) && trace == old(trace)
                && to.content == old(to.content) && to.closed == old(to.closed)
                && canceled == old(canceled) && call.cancels == old(call.cancels)
                && sourceClosed == old(sourceClosed)
      ensures to != null && callback.Some? && !old(call.executed) ==>
                var d := EnqueueSpec(call.reply, old(canceled) || interference == CancelWhileWaiting, interference);
                && thrown == None && call.executed
                && trace == old(trace) + Dispatched(callback.value, d.events)
                && to.content == old(to.content) + d.written && to.closed
                && canceled == d.canceled
                && call.cancels == old(call.cancels) + (if !old(canceled) && canceled then 1 else 0)
                && sourceClosed == (CopiesBody(call.reply) || old(sourceClosed))
    {
      if to == null {
        return Some(NullPointerException("to == null"));
      }
      if callback.None? {
        return Some(NullPointerException("callback == null"));
      }
      var accepted := call.Enqueue();
      if accepted.Failure? {
        return Some(accepted.error);
      }
      thrown := None;
      if interference == CancelWhileWaiting {
        Cancel();
      }
      Deliver(to, callback.value, accepted.value, interference);
    }
  }
}
