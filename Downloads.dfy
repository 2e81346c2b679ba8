/** `Download`: a configured download of one HTTP response body into a file,
    run either blocking (`Execute`) or with callbacks (`Enqueue`), with
    per-read progress, an optional digest checked by a validation callback,
    an ordered chain of filters, and a one-way cancel flag. Its `Builder`
    accumulates the configuration.

    The first half of the module states what one run does, as functions of
    the configuration, the network's answer and the moment another thread
    cancels; the second half holds the classes, whose methods are proved to
    do exactly that. */
module Downloads {
  import opened Common
  import opened Transport
  import opened Pipeline

  datatype File = File(path: string)

  /** The caller's opaque tag. */
  datatype Tag = Tag(id: nat)

  /** A progress listener. `NONE` ignores every event; a caller's listener is
      represented by what it throws when told `(bytesRead, total, length)`. */
  datatype ProgressListener =
    | NONE
    | Listener(onProgress: (int, int, int) -> Option<Throwable>)

  /** A checksum validation callback: given the hex digest, accept or reject. */
  type Validator = string -> bool

  /** The caller's completion callback, represented by what each of its two
      methods throws. */
  datatype Callback = Callback(
    onResponse: Response -> Option<Throwable>,
    onFailure: Throwable -> Option<Throwable>)

  /** One call into caller code. */
  datatype Event =
    | Progress(bytesRead: int, totalBytesRead: int, contentLength: int)
    | Validate(checksum: string)
    | OnResponse(response: Response)
    | OnFailure(error: Throwable)
  {
    predicate IsCompletion() { OnResponse? || OnFailure? }
  }

  /** A download's configuration (every field of `Download` but the delegate
      call and the cancel flag). */
  datatype Config = Config(
    callbackExecutor: Executor,
    checksumAlgorithm: ChecksumAlgorithm,
    checksumValidationCallback: Option<Validator>,
    filters: seq<Filter>,
    progressListener: ProgressListener,
    tag: Option<Tag>,
    file: Option<File>)

  /** The configuration of a fresh builder. */
  const DEFAULTS: Config := Config(CurrentThread, ChecksumAlgorithm.NONE, None, [],
                                   ProgressListener.NONE, None, None)

  /** What a task handed to `executor` throws back at the code that handed it
      over: everything on the current-thread executor, nothing otherwise. */
  function Rethrown(executor: Executor, thrown: Option<Throwable>): Option<Throwable>
  {
    if executor.CurrentThread? then thrown else None
  }

  /** What the listener throws when the progress event `e` is run. */
  function Notify(listener: ProgressListener, e: Event): Option<Throwable>
    requires e.Progress?
  {
    match listener
    case NONE => None
    case Listener(onProgress) => onProgress(e.bytesRead, e.totalBytesRead, e.contentLength)
  }

  /** The listener throws for no event at all. */
  ghost predicate NeverThrows(listener: ProgressListener)
  {
    listener.NONE? || forall a, b, c :: listener.onProgress(a, b, c).None?
  }

  /** No progress event can throw back into the copy: the listener's tasks
      run on another thread, or the listener never throws. */
  ghost predicate Quiet(cfg: Config)
  {
    cfg.callbackExecutor.Queued? || NeverThrows(cfg.progressListener)
  }

  // ---------------------------------------------------------------------
  // One copy of a body into the file
  // ---------------------------------------------------------------------

  /** The outcome of a copy: the raw body bytes written into the output chain,
      the caller code it called, whether it stopped on the cancel flag, and
      what it threw. */
  datatype CopyRun = CopyRun(raw: seq<byte>, events: seq<Event>, canceled: bool,
                             failure: Option<Throwable>)

  /** The progress source's reads from read `k` on, given the bytes, events
      and running total of the reads before it. Before each read the cancel
      flag is checked; each read of a chunk adds it to the total and emits one
      progress event, which may throw back; the end-of-stream read emits
      nothing. */
  function Drain(body: Body, executor: Executor, listener: ProgressListener,
                 interference: Interference, k: nat, raw: seq<byte>,
                 events: seq<Event>, total: int): CopyRun
    requires k <= |body.chunks|
    decreases |body.chunks| - k
  {
    if interference == CancelBeforeRead(k) then CopyRun(raw, events, true, Some(CANCELED))
    else if k == |body.chunks| then CopyRun(raw, events, false, None)
    else
      var chunk := body.chunks[k];
      var e := Progress(|chunk|, total + |chunk|, body.contentLength);
      var thrown := Rethrown(executor, Notify(listener, e));
      if thrown.Some? then CopyRun(raw + chunk, events + [e], false, thrown)
      else Drain(body, executor, listener, interference, k + 1, raw + chunk, events + [e],
                 total + |chunk|)
  }

  function DrainAll(cfg: Config, body: Body, interference: Interference): CopyRun
  {
    Drain(body, cfg.callbackExecutor, cfg.progressListener, interference, 0, [], [], 0)
  }

  /** The whole copy: drain the body, then, only when an algorithm is
      configured, hand the digest of the raw bytes to the validation
      callback; a rejection is an InvalidChecksumException, and a missing
      callback a NullPointerException. */
  function Copy(cfg: Config, body: Body, digest: Digest, interference: Interference): CopyRun
  {
    var run := DrainAll(cfg, body, interference);
    if run.failure.Some? || cfg.checksumAlgorithm == ChecksumAlgorithm.NONE then run
    else
      var hex := digest(cfg.checksumAlgorithm, run.raw);
      match cfg.checksumValidationCallback
      case None => run.(failure := Some(NullPointerException("")))
      case Some(validate) =>
        run.(events := run.events + [Validate(hex)],
             failure := if validate(hex) then None else Some(InvalidChecksumException))
  }

  /** The progress events of reading the first `m` chunks. */
  function ProgressEvents(chunks: seq<seq<byte>>, m: nat, contentLength: int): (es: seq<Event>)
    requires m <= |chunks|
  {
    seq(m, i requires 0 <= i < m => Progress(|chunks[i]|, |Flatten(chunks[..i + 1])|, contentLength))
  }

  lemma {:induction false} DrainFrom(body: Body, executor: Executor, listener: ProgressListener,
                                     interference: Interference, k: nat, raw: seq<byte>,
                                     events: seq<Event>, total: int)
    requires k <= |body.chunks|
    requires raw == Flatten(body.chunks[..k]) && total == |raw|
    requires events == ProgressEvents(body.chunks, k, body.contentLength)
    ensures var run := Drain(body, executor, listener, interference, k, raw, events, total);
            var m := |run.events|;
            && k <= m <= |body.chunks|
            && run.raw == Flatten(body.chunks[..m])
            && run.events == ProgressEvents(body.chunks, m, body.contentLength)
            && (run.failure.None? ==> m == |body.chunks| && !run.canceled)
            && (run.canceled ==> run.failure == Some(CANCELED) && interference == CancelBeforeRead(m))
    decreases |body.chunks| - k
  {
    if interference != CancelBeforeRead(k) && k < |body.chunks| {
      var chunk := body.chunks[k];
      var e := Progress(|chunk|, total + |chunk|, body.contentLength);
      FlattenStep(body.chunks, k);
      assert events + [e] == ProgressEvents(body.chunks, k + 1, body.contentLength);
      if Rethrown(executor, Notify(listener, e)).None? {
        DrainFrom(body, executor, listener, interference, k + 1, raw + chunk, events + [e],
                  total + |chunk|);
      }
    }
  }

  /** Whatever happens, the copy has read some first `m` chunks: the raw
      bytes are exactly those chunks and one progress event was emitted per
      chunk; a copy that threw nothing read the whole body, and one stopped by
      the flag stopped at the read where the cancel came. */
  lemma DrainReadsPrefix(cfg: Config, body: Body, interference: Interference)
    ensures var run := DrainAll(cfg, body, interference);
            var m := |run.events|;
            && m <= |body.chunks|
            && run.raw == Flatten(body.chunks[..m])
            && run.events == ProgressEvents(body.chunks, m, body.contentLength)
            && (run.failure.None? ==> m == |body.chunks| && run.raw == Flatten(body.chunks))
            && (run.canceled ==> run.failure == Some(CANCELED) && interference == CancelBeforeRead(m))
  {
    assert body.chunks[..0] == [];
    DrainFrom(body, cfg.callbackExecutor, cfg.progressListener, interference, 0, [], [], 0);
    assert body.chunks[..|body.chunks|] == body.chunks;
  }

  /** Progress totals: each is the previous one plus the bytes of its read,
      they never decrease, and the last is the number of bytes read. */
  lemma ProgressTotals(chunks: seq<seq<byte>>, m: nat, contentLength: int)
    requires m <= |chunks|
    ensures var es := ProgressEvents(chunks, m, contentLength);
            && (m > 0 ==> es[0].totalBytesRead == es[0].bytesRead)
            && (forall i :: 0 < i < m ==>
                  es[i].totalBytesRead == es[i - 1].totalBytesRead + es[i].bytesRead)
            && (forall i, j :: 0 <= i <= j < m ==> es[i].totalBytesRead <= es[j].totalBytesRead)
            && (m > 0 ==> es[m - 1].totalBytesRead == |Flatten(chunks[..m])|)
  {
    var es := ProgressEvents(chunks, m, contentLength);
    if m > 0 {
      FlattenStep(chunks, 0);
      assert chunks[..0] == [];
    }
    forall i | 0 < i < m
      ensures es[i].totalBytesRead == es[i - 1].totalBytesRead + es[i].bytesRead
    {
      FlattenStep(chunks, i);
    }
    forall i, j | 0 <= i <= j < m
      ensures es[i].totalBytesRead <= es[j].totalBytesRead
    {
      FlattenPrefixGrows(chunks, i + 1, j + 1);
    }
  }

  lemma {:induction false} DrainQuietFrom(body: Body, executor: Executor, listener: ProgressListener,
                                          interference: Interference, k: nat, raw: seq<byte>,
                                          events: seq<Event>, total: int)
    requires executor.Queued? || NeverThrows(listener)
    requires k <= |body.chunks|
    requires raw == Flatten(body.chunks[..k]) && total == |raw|
    requires events == ProgressEvents(body.chunks, k, body.contentLength)
    requires interference.CancelBeforeRead? ==> k <= interference.read
    ensures Drain(body, executor, listener, interference, k, raw, events, total) ==
      if interference.CancelBeforeRead? && interference.read <= |body.chunks| then
        var j := interference.read;
        CopyRun(Flatten(body.chunks[..j]), ProgressEvents(body.chunks, j, body.contentLength),
                true, Some(CANCELED))
      else
        CopyRun(Flatten(body.chunks), ProgressEvents(body.chunks, |body.chunks|, body.contentLength),
                false, None)
    decreases |body.chunks| - k
  {
    if interference == CancelBeforeRead(k) {
    } else if k == |body.chunks| {
      assert body.chunks[..k] == body.chunks;
    } else {
      var chunk := body.chunks[k];
      var e := Progress(|chunk|, total + |chunk|, body.contentLength);
      FlattenStep(body.chunks, k);
      assert events + [e] == ProgressEvents(body.chunks, k + 1, body.contentLength);
      DrainQuietFrom(body, executor, listener, interference, k + 1, raw + chunk, events + [e],
                     total + |chunk|);
    }
  }

  /** When no progress event can throw back, a copy canceled before read `j`
      (j <= number of chunks) fails with "Canceled" having written exactly the
      first `j` chunks and emitted their `j` progress events; this holds even
      for j == number of chunks, when every byte was read but the
      end-of-stream read was not. Canceling before the first read writes no
      body bytes at all. */
  lemma CancelStopsCopy(cfg: Config, body: Body, digest: Digest, j: nat)
    requires Quiet(cfg) && j <= |body.chunks|
    ensures var run := Copy(cfg, body, digest, CancelBeforeRead(j));
            && run.canceled && run.failure == Some(CANCELED)
            && run.raw == Flatten(body.chunks[..j])
            && run.events == ProgressEvents(body.chunks, j, body.contentLength)
            && (j == 0 ==> run.raw == [] && run.events == [])
  {
    assert body.chunks[..0] == [];
    DrainQuietFrom(body, cfg.callbackExecutor, cfg.progressListener, CancelBeforeRead(j), 0, [], [], 0);
  }

  /** The default current-thread executor with a listener that never throws
      is quiet: the quiet-copy lemmas cover it. */
  lemma SilentListenerIsQuiet(cfg: Config)
    requires cfg.callbackExecutor == CurrentThread
    requires cfg.progressListener == Listener((a: int, b: int, c: int) => None)
    ensures Quiet(cfg)
  {
  }

  /** When nothing cancels and no progress event can throw back, the copy
      writes the whole body, emits one progress event per chunk and, only
      when an algorithm is configured, calls the validation callback exactly
      once with the digest of the raw body; it then succeeds exactly when the
      callback accepts. */
  lemma QuietCopy(cfg: Config, body: Body, digest: Digest, interference: Interference)
    requires Quiet(cfg)
    requires interference.CancelBeforeRead? ==> interference.read > |body.chunks|
    ensures var run := Copy(cfg, body, digest, interference);
            var progress := ProgressEvents(body.chunks, |body.chunks|, body.contentLength);
            var hex := digest(cfg.checksumAlgorithm, Flatten(body.chunks));
            && run.raw == Flatten(body.chunks) && !run.canceled
            && (cfg.checksumAlgorithm == ChecksumAlgorithm.NONE ==>
                  run.events == progress && run.failure == None)
            && (cfg.checksumAlgorithm != ChecksumAlgorithm.NONE && cfg.checksumValidationCallback.Some? ==>
                  && run.events == progress + [Validate(hex)]
                  && (run.failure == None <==> cfg.checksumValidationCallback.value(hex))
                  && (run.failure != None ==> run.failure == Some(InvalidChecksumException)))
  {
    assert body.chunks[..0] == [];
    DrainQuietFrom(body, cfg.callbackExecutor, cfg.progressListener, interference, 0, [], [], 0);
  }

  /** A copy that read the whole body but whose digest the callback rejects
      fails with InvalidChecksumException, though every byte was written;
      and the validation callback is never called without an algorithm. */
  lemma ChecksumVerdict(cfg: Config, body: Body, digest: Digest, interference: Interference)
    ensures var run := Copy(cfg, body, digest, interference);
            var drained := DrainAll(cfg, body, interference);
            && (cfg.checksumAlgorithm == ChecksumAlgorithm.NONE ==>
                  forall i :: 0 <= i < |run.events| ==> !run.events[i].Validate?)
            && (drained.failure.None? && cfg.checksumAlgorithm != ChecksumAlgorithm.NONE
                && cfg.checksumValidationCallback.Some?
                && !cfg.checksumValidationCallback.value(digest(cfg.checksumAlgorithm, Flatten(body.chunks)))
                ==> run.failure == Some(InvalidChecksumException) && run.raw == Flatten(body.chunks))
  {
    DrainReadsPrefix(cfg, body, interference);
  }

  // ---------------------------------------------------------------------
  // Choosing the outcome of a run
  // ---------------------------------------------------------------------

  /** A blocking run: what `execute()` returns or throws, and the copy it
      performed, if any. */
  datatype Execution = Execution(result: Result<Response, Throwable>, copy: Option<CopyRun>)

  /** A callback run: the calls into caller code made for the one
      notification the delegate delivers, and the copy performed, if any. */
  datatype Notification = Notification(events: seq<Event>, copy: Option<CopyRun>)

  /** `execute()` given what the delegate's execute returned (`issued`) and
      whether the flag was set once it returned. */
  function ExecuteSpec(cfg: Config, issued: Result<Response, Throwable>, canceled: bool,
                       digest: Digest, interference: Interference): Execution
  {
    match issued
    case Failure(t) => Execution(Failure(t), None)
    case Success(response) =>
      if canceled then Execution(Failure(CANCELED), None)
      else if !response.IsSuccessful() then Execution(Success(response), None)
      else
        var run := Copy(cfg, response.body, digest, interference);
        Execution(if run.failure.Some? then Failure(run.failure.value) else Success(response), Some(run))
  }

  /** The notification handler installed by `enqueue()`, given the delegate's
      reply and whether the flag was set when the reply arrived. */
  function EnqueueSpec(cfg: Config, callback: Callback, reply: Reply, canceled: bool,
                       digest: Digest, interference: Interference): Notification
  {
    match reply
    case Failed(t) => Notification([OnFailure(t)], None)
    case Replied(response) =>
      if canceled then Notification([OnFailure(CANCELED)], None)
      else if !response.IsSuccessful() then Notification([OnResponse(response)], None)
      else
        var run := Copy(cfg, response.body, digest, interference);
        if run.failure.Some? then Notification(run.events + [OnFailure(run.failure.value)], Some(run))
        else
          match Rethrown(cfg.callbackExecutor, callback.onResponse(response))
          case None => Notification(run.events + [OnResponse(response)], Some(run))
          case Some(t) => Notification(run.events + [OnResponse(response), OnFailure(t)], Some(run))
  }

  /** The callback that reports a blocking run's result. */
  function Completion(result: Result<Response, Throwable>): (e: Event)
    ensures e.IsCompletion()
  {
    match result
    case Success(response) => OnResponse(response)
    case Failure(t) => OnFailure(t)
  }

  function CopyEvents(copy: Option<CopyRun>): seq<Event>
  {
    if copy.Some? then copy.value.events else []
  }

  /** The file is touched only when the response arrived, the flag was not
      set and the response is successful; otherwise `execute()` throws the
      transport failure or "Canceled", or returns the unsuccessful response
      untouched. */
  lemma ExecuteRoutes(cfg: Config, issued: Result<Response, Throwable>, canceled: bool,
                      digest: Digest, interference: Interference)
    ensures var x := ExecuteSpec(cfg, issued, canceled, digest, interference);
            && (x.copy.Some? <==> issued.Success? && !canceled && issued.value.IsSuccessful())
            && (issued.Failure? ==> x.result == issued)
            && (issued.Success? && canceled ==> x.result == Failure(CANCELED))
            && (issued.Success? && !canceled && !issued.value.IsSuccessful() ==> x.result == issued)
            && (x.copy.Some? ==> (x.result == issued <==> x.copy.value.failure.None?))
  {
  }

  /** Both modes agree: when the caller's onResponse cannot throw back, the
      callback run performs the same copy as the blocking run and then makes
      exactly one completion call, reporting what `execute()` would return or
      throw; no completion call comes before it. */
  lemma {:induction false} ModesAgree(cfg: Config, callback: Callback, reply: Reply, canceled: bool,
                                      digest: Digest, interference: Interference)
    requires reply.Replied? ==> Rethrown(cfg.callbackExecutor, callback.onResponse(reply.response)) == None
    ensures var x := ExecuteSpec(cfg, Answer(reply), canceled, digest, interference);
            var n := EnqueueSpec(cfg, callback, reply, canceled, digest, interference);
            && n.copy == x.copy
            && n.events == CopyEvents(x.copy) + [Completion(x.result)]
            && forall i :: 0 <= i < |n.events| - 1 ==> !n.events[i].IsCompletion()
  {
    if reply.Replied? && !canceled && reply.response.IsSuccessful() {
      var body := reply.response.body;
      DrainReadsPrefix(cfg, body, interference);
    }
  }

  /** On the current-thread executor, an onResponse that throws after a
      successful copy is followed by a call to onFailure with what it threw:
      the caller sees two completion calls. */
  lemma ThrowingOnResponse(cfg: Config, callback: Callback, response: Response, digest: Digest,
                           interference: Interference, t: Throwable)
    requires cfg.callbackExecutor == CurrentThread && response.IsSuccessful()
    requires Copy(cfg, response.body, digest, interference).failure.None?
    requires callback.onResponse(response) == Some(t)
    ensures var n := EnqueueSpec(cfg, callback, Replied(response), false, digest, interference);
            |n.events| >= 2 && n.events[|n.events| - 2..] == [OnResponse(response), OnFailure(t)]
  {
  }

  // ---------------------------------------------------------------------
  // The builder, the download and its progress source
  // ---------------------------------------------------------------------

  /** The mutable configuration a download is built from. */
  class Builder {
    var delegate: Call
    var callbackExecutor: Executor
    var checksumAlgorithm: ChecksumAlgorithm
    var checksumValidationCallback: Option<Validator>
    var filters: seq<Filter>
    var progressListener: ProgressListener
    var tag: Option<Tag>
    var file: Option<File>

    function Settings(): Config
      reads this
    {
      Config(callbackExecutor, checksumAlgorithm, checksumValidationCallback, filters,
             progressListener, tag, file)
    }

    /** A builder over a fresh call: the current-thread executor, no checksum,
        the silent listener, no filters, no tag, no file. */
    constructor (delegate: Call)
      ensures this.delegate == delegate && Settings() == DEFAULTS
    {
      this.delegate := delegate;
      callbackExecutor := CurrentThread;
      checksumAlgorithm := ChecksumAlgorithm.NONE;
      checksumValidationCallback := None;
      filters := [];
      progressListener := ProgressListener.NONE;
      tag := None;
      file := None;
    }

    /** A builder holding every setting of `download` over a clone of its
        delegate. */
    constructor FromDownload(download: Download)
      ensures fresh(delegate) && delegate.reply == download.delegate.reply
      ensures !delegate.executed && delegate.cancels == 0
      ensures Settings() == download.Settings()
    {
      var clone := download.delegate.Clone();
      delegate := clone;
      callbackExecutor := download.callbackExecutor;
      checksumAlgorithm := download.checksumAlgorithm;
      progressListener := download.progressListener;
      checksumValidationCallback := download.checksumValidationCallback;
      filters := [] + download.filters;
      tag := download.tag;
      file := Some(download.file);
    }

    method SetCallbackExecutor(executor: Option<Executor>) returns (thrown: Option<Throwable>)
      modifies this`callbackExecutor
      ensures executor.None? ==> thrown == Some(NullPointerException("callbackExecutor == null"))
                                 && callbackExecutor == old(callbackExecutor)
      ensures executor.Some? ==> thrown == None && callbackExecutor == executor.value
    {
      if executor.None? {
        return Some(NullPointerException("callbackExecutor == null"));
      }
      callbackExecutor := executor.value;
      thrown := None;
    }

    /** Stores the algorithm before checking the callback, so a null callback
        throws but leaves a non-null algorithm in place. */
    method Checksum(algorithm: Option<ChecksumAlgorithm>, validationCallback: Option<Validator>)
      returns (thrown: Option<Throwable>)
      modifies this`checksumAlgorithm, this`checksumValidationCallback
      ensures algorithm.None? ==> thrown == Some(NullPointerException("algorithm == null"))
                                  && checksumAlgorithm == old(checksumAlgorithm)
                                  && checksumValidationCallback == old(checksumValidationCallback)
      ensures algorithm.Some? ==> checksumAlgorithm == algorithm.value
      ensures algorithm.Some? && validationCallback.None? ==>
                thrown == Some(NullPointerException("validationCallback = null"))
                && checksumValidationCallback == old(checksumValidationCallback)
      ensures algorithm.Some? && validationCallback.Some? ==>
                thrown == None && checksumValidationCallback == validationCallback
    {
      if algorithm.None? {
        return Some(NullPointerException("algorithm == null"));
      }
      checksumAlgorithm := algorithm.value;
      if validationCallback.None? {
        return Some(NullPointerException("validationCallback = null"));
      }
      checksumValidationCallback := validationCallback;
      thrown := None;
    }

    method AddFilter(filter: Option<Filter>) returns (thrown: Option<Throwable>)
      modifies this`filters
      ensures filter.None? ==> thrown == Some(NullPointerException("newFilter == null"))
                               && filters == old(filters)
      ensures filter.Some? ==> thrown == None && filters == old(filters) + [filter.value]
    {
      if filter.None? {
        return Some(NullPointerException("newFilter == null"));
      }
      filters := filters + [filter.value];
      thrown := None;
    }

    method OnProgress(listener: Option<ProgressListener>) returns (thrown: Option<Throwable>)
      modifies this`progressListener
      ensures listener.None? ==> thrown == Some(NullPointerException("progressListener == null"))
                                 && progressListener == old(progressListener)
      ensures listener.Some? ==> thrown == None && progressListener == listener.value
    {
      if listener.None? {
        return Some(NullPointerException("progressListener == null"));
      }
      progressListener := listener.value;
      thrown := None;
    }

    /** The tag may be null. */
    method SetTag(tag: Option<Tag>)
      modifies this`tag
      ensures this.tag == tag
    {
      this.tag := tag;
    }

    /** Records the file and freezes the configuration into a download that
        shares this builder's delegate (it is not cloned here). */
    method To(file: Option<File>) returns (r: Result<Download, Throwable>)
      modifies this`file
      ensures file.None? ==> r == Failure(NullPointerException("file == null"))
                             && this.file == old(this.file)
      ensures file.Some? ==> this.file == file && r.Success?
      ensures r.Success? ==> && fresh(r.value) && r.value.delegate == delegate
                             && r.value.Settings() == Settings()
                             && !r.value.canceled && r.value.trace == [] && r.value.written == None
    {
      if file.None? {
        return Failure(NullPointerException("file == null"));
      }
      this.file := file;
      var download := new Download(this);
      r := Success(download);
    }
  }

  class Download {
    const delegate: Call
    const callbackExecutor: Executor
    const checksumAlgorithm: ChecksumAlgorithm
    const checksumValidationCallback: Option<Validator>
    const filters: seq<Filter>
    const progressListener: ProgressListener
    const tag: Option<Tag>
    const file: File

    var canceled: bool
    /** The calls into caller code, in the order they were made or handed to
        the executor. */
    var trace: seq<Event>
    /** What this download has left in its file; None until it opens it. */
    var written: Option<seq<byte>>
    ghost var inputClosed: bool
    ghost var outputClosed: bool

    function Settings(): Config
    {
      Config(callbackExecutor, checksumAlgorithm, checksumValidationCallback, filters,
             progressListener, tag, Some(file))
    }

    /** Takes the builder's settings; the filter list is a copy, so later
        additions to the builder do not reach this download. */
    constructor (builder: Builder)
      requires builder.file.Some?
      ensures delegate == builder.delegate && Settings() == builder.Settings()
      ensures !canceled && trace == [] && written == None
      ensures !inputClosed && !outputClosed
    {
      delegate := builder.delegate;
      callbackExecutor := builder.callbackExecutor;
      checksumAlgorithm := builder.checksumAlgorithm;
      checksumValidationCallback := builder.checksumValidationCallback;
      filters := [] + builder.filters;
      progressListener := builder.progressListener;
      tag := builder.tag;
      file := builder.file.value;
      canceled := false;
      trace := [];
      written := None;
      inputClosed := false;
      outputClosed := false;
    }

    function IsCanceled(): bool
      reads this
    {
      canceled
    }

    function IsExecuted(): bool
      reads delegate
    {
      delegate.executed
    }

    /** Sets the one-way flag and forwards the cancel to the delegate, every
        time. */
    method Cancel()
      modifies this`canceled, delegate`cancels
      ensures canceled && IsCanceled()
      ensures delegate.cancels == old(delegate.cancels) + 1
    {
      canceled := true;
      delegate.Cancel();
    }

    /** A new download with every setting of this one over a fresh clone of
        the delegate, not canceled. */
    method Clone() returns (c: Download)
      ensures fresh(c) && fresh(c.delegate) && c.Settings() == Settings()
      ensures c.delegate.reply == delegate.reply && !c.delegate.executed && c.delegate.cancels == 0
      ensures !c.canceled && c.trace == [] && c.written == None
    {
      var builder := new Builder.FromDownload(this);
      c := new Download(builder);
    }

    method NewBuilder() returns (b: Builder)
      ensures fresh(b) && fresh(b.delegate) && b.Settings() == Settings()
      ensures b.delegate.reply == delegate.reply && !b.delegate.executed && b.delegate.cancels == 0
    {
      b := new Builder.FromDownload(this);
    }

    /** Hands the response callback to the executor; returns what it throws
        back. */
    method CallResponse(callback: Callback, response: Response) returns (thrown: Option<Throwable>)
      modifies this`trace
      ensures trace == old(trace) + [OnResponse(response)]
      ensures thrown == Rethrown(callbackExecutor, callback.onResponse(response))
    {
      trace := trace + [OnResponse(response)];
      thrown := Rethrown(callbackExecutor, callback.onResponse(response));
    }

    /** Hands the failure callback to the executor; whatever it throws leaves
        the notification handler, towards the HTTP client's thread. */
    method CallFailure(callback: Callback, error: Throwable)
      modifies this`trace
      ensures trace == old(trace) + [OnFailure(error)]
    {
      trace := trace + [OnFailure(error)];
    }

    /** The buffered sink's `writeAll`: reads `input` until the end of the
        stream or until a read throws, and returns the bytes it moved. Another
        thread may cancel between two reads, as `interference` says. */
    method WriteAll(input: ProgressSource, interference: Interference)
      returns (raw: seq<byte>, failure: Option<Throwable>)
      requires input.download == this && input.next == 0 && input.totalBytesRead == 0
      requires !canceled
      modifies this`canceled, this`trace, delegate`cancels, input
      ensures var run := DrainAll(Settings(), input.body, interference);
              && raw == run.raw && failure == run.failure
              && canceled == run.canceled
              && trace == old(trace) + run.events
              && delegate.cancels == old(delegate.cancels) + (if run.canceled then 1 else 0)
    {
      var body := input.body;
      raw := [];
      failure := None;
      ghost var events: seq<Event> := [];
      ghost var drained := DrainAll(Settings(), body, interference);
      var done := false;
      while !done
        invariant input.download == this && input.body == body
        invariant input.next <= |body.chunks|
        invariant trace == old(trace) + events
        invariant !done ==> !canceled && failure.None?
                            && delegate.cancels == old(delegate.cancels)
                            && drained == Drain(body, callbackExecutor, progressListener, interference,
                                                input.next, raw, events, input.totalBytesRead)
        invariant done ==> drained == CopyRun(raw, events, canceled, failure)
                           && delegate.cancels == old(delegate.cancels) + (if canceled then 1 else 0)
        decreases |body.chunks| - input.next, if done then 0 else 1
      {
        if interference == CancelBeforeRead(input.next) {
          Cancel();
        }
        var bytesRead, data, thrown := input.Read();
        raw := raw + data;
        if thrown.Some? {
          if !canceled {
            events := events + [Progress(bytesRead, input.totalBytesRead, body.contentLength)];
          }
          failure := thrown;
          done := true;
        } else if bytesRead == -1 {
          done := true;
        } else {
          events := events + [Progress(bytesRead, input.totalBytesRead, body.contentLength)];
        }
      }
    }

    /** Copies `body` into the file through the filters, then validates the
        digest. Called only right after the flag was seen clear. */
    method CopyToFile(body: Body, digest: Digest, interference: Interference)
      returns (failure: Option<Throwable>)
      requires !canceled
      modifies this, delegate`cancels
      ensures var run := Copy(Settings(), body, digest, interference);
              && failure == run.failure
              && trace == old(trace) + run.events
              && written == Some(Chain(filters, run.raw))
              && canceled == run.canceled
              && delegate.cancels == old(delegate.cancels) + (if run.canceled then 1 else 0)
              && inputClosed && outputClosed
    {
      var output := BuildOutput(filters, checksumAlgorithm);
      var input := new ProgressSource(this, body);
      var raw;
      raw, failure := WriteAll(input, interference);
      if failure.None? {
        var hashed := Hashed(output, raw);
        if hashed.Some? {
          var hex := digest(hashed.value.algorithm, hashed.value.bytes);
          match checksumValidationCallback {
            case None =>
              failure := Some(NullPointerException(""));
            case Some(validate) =>
              trace := trace + [Validate(hex)];
              if !validate(hex) {
                failure := Some(InvalidChecksumException);
              }
          }
        }
      }
      inputClosed := true;
      written := Some(Delivered(output, raw));
      outputClosed := true;
    }

    /** `execute()`: issue the delegate, then refuse if canceled, pass an
        unsuccessful response through, or copy its body. */
    method Execute(digest: Digest, interference: Interference) returns (r: Result<Response, Throwable>)
      modifies this, delegate
      ensures delegate.executed
      ensures var issued := if old(delegate.executed)
                            then Failure(IllegalStateException("Already executed."))
                            else Answer(delegate.reply);
              var flag := old(canceled) || interference == CancelWhileWaiting;
              var x := ExecuteSpec(Settings(), issued, flag, digest, interference);
              && r == x.result
              && trace == old(trace) + CopyEvents(x.copy)
              && written == (if x.copy.Some? then Some(Chain(filters, x.copy.value.raw)) else old(written))
              && (x.copy.Some? ==> inputClosed && outputClosed && canceled == x.copy.value.canceled)
              && (x.copy.None? ==> canceled == flag && inputClosed == old(inputClosed)
                                   && outputClosed == old(outputClosed))
              && delegate.cancels == old(delegate.cancels) + (if interference == CancelWhileWaiting then 1 else 0)
                                     + (if x.copy.Some? && x.copy.value.canceled then 1 else 0)
    {
      var issued := delegate.Execute();
      if interference == CancelWhileWaiting {
        Cancel();
      }
      if issued.Failure? {
        return Failure(issued.error);
      }
      var response := issued.value;
      if canceled {
        return Failure(CANCELED);
      }
      if !response.IsSuccessful() {
        return Success(response);
      }
      var failure := CopyToFile(response.body, digest, interference);
      if failure.Some? {
        return Failure(failure.value);
      }
      r := Success(response);
    }

    /** `enqueue(callback)`: issue the delegate asynchronously; the one
        notification it delivers is handled as below, and every callback is
        handed to the executor. */
    method Enqueue(callback: Callback, digest: Digest, interference: Interference)
      returns (thrown: Option<Throwable>)
      modifies this, delegate
      ensures delegate.executed
      ensures old(delegate.executed) ==>
                thrown == Some(IllegalStateException("Already executed."))
                && trace == old(trace) && written == old(written) && canceled == old(canceled)
                && delegate.cancels == old(delegate.cancels)
                && inputClosed == old(inputClosed) && outputClosed == old(outputClosed)
      ensures !old(delegate.executed) ==>
                var flag := old(canceled) || interference == CancelWhileWaiting;
                var n := EnqueueSpec(Settings(), callback, delegate.reply, flag, digest, interference);
                && thrown == None
                && trace == old(trace) + n.events
                && written == (if n.copy.Some? then Some(Chain(filters, n.copy.value.raw)) else old(written))
                && (n.copy.Some? ==> inputClosed && outputClosed && canceled == n.copy.value.canceled)
                && (n.copy.None? ==> canceled == flag && inputClosed == old(inputClosed)
                                     && outputClosed == old(outputClosed))
                && delegate.cancels == old(delegate.cancels) + (if interference == CancelWhileWaiting then 1 else 0)
                                       + (if n.copy.Some? && n.copy.value.canceled then 1 else 0)
    {
      var accepted := delegate.Enqueue();
      if accepted.Failure? {
        return Some(accepted.error);
      }
      thrown := None;
      if interference == CancelWhileWaiting {
        Cancel();
      }
      match accepted.value {
        case Failed(t) =>
          CallFailure(callback, t);
        case Replied(response) =>
          if canceled {
            CallFailure(callback, CANCELED);
          } else if !response.IsSuccessful() {
            var _ := CallResponse(callback, response);
          } else {
            var failure := CopyToFile(response.body, digest, interference);
            if failure.None? {
              failure := CallResponse(callback, response);
            }
            if failure.Some? {
              CallFailure(callback, failure.value);
            }
          }
      }
    }
  }

  /** The forwarding source a copy reads the body through: it checks the
      download's cancel flag before every read, keeps the running total and
      hands one progress event per chunk to the executor. */
  class ProgressSource {
    const download: Download
    const body: Body
    /** The index of the chunk the underlying source returns next. */
    var next: nat
    var totalBytesRead: int

    constructor (download: Download, body: Body)
      ensures this.download == download && this.body == body
      ensures next == 0 && totalBytesRead == 0
    {
      this.download := download;
      this.body := body;
      next := 0;
      totalBytesRead := 0;
    }

    /** One read: -1 at the end of the stream. `data` is what the read moved
        into the caller's buffer, even when the progress event then threw. */
    method Read() returns (bytesRead: int, data: seq<byte>, thrown: Option<Throwable>)
      requires next <= |body.chunks|
      modifies this, download`trace
      ensures next <= |body.chunks|
      ensures download.canceled ==>
                thrown == Some(CANCELED) && data == [] && download.trace == old(download.trace)
                && next == old(next) && totalBytesRead == old(totalBytesRead)
      ensures !download.canceled && old(next) == |body.chunks| ==>
                bytesRead == -1 && data == [] && thrown == None && download.trace == old(download.trace)
                && next == old(next) && totalBytesRead == old(totalBytesRead)
      ensures !download.canceled && old(next) < |body.chunks| ==>
                var chunk := body.chunks[old(next)];
                var e := Progress(|chunk|, old(totalBytesRead) + |chunk|, body.contentLength);
                && bytesRead == |chunk| && data == chunk
                && next == old(next) + 1 && totalBytesRead == old(totalBytesRead) + |chunk|
                && download.trace == old(download.trace) + [e]
                && thrown == Rethrown(download.callbackExecutor, Notify(download.progressListener, e))
    {
      if download.canceled {
        return -1, [], Some(CANCELED);
      }
      if next == |body.chunks| {
        return -1, [], None;
      }
      data := body.chunks[next];
      bytesRead := |data|;
      next := next + 1;
      totalBytesRead := totalBytesRead + bytesRead;
      thrown := CallProgress(bytesRead);
    }

    method CallProgress(bytesRead: int) returns (thrown: Option<Throwable>)
      modifies download`trace
      ensures var e := Progress(bytesRead, totalBytesRead, body.contentLength);
              && download.trace == old(download.trace) + [e]
              && thrown == Rethrown(download.callbackExecutor, Notify(download.progressListener, e))
    {
      var e := Progress(bytesRead, totalBytesRead, body.contentLength);
      download.trace := download.trace + [e];
      thrown := Rethrown(download.callbackExecutor, Notify(download.progressListener, e));
    }
  }
}
