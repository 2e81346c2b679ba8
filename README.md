# retrofit2-download-adapter, modelled in Dafny

This project models the two download engines of `retrofit2-download-adapter`, a Retrofit
call adapter that writes an HTTP response body to a destination instead of handing it
to a converter.

- **`Download`** (with its `Builder`) holds an immutable configuration. The configuration
  covers the callback executor, the checksum algorithm and its validation callback, an
  ordered list of output filters, a progress listener, a tag and the destination file.
  Built with `to(file)`, a download can be run blocking (`execute()`) or with callbacks
  (`enqueue(callback)`). A successful response's body is copied through a counting source
  into a chain of sinks:
  - the filters, registered order outermost;
  - a stream-to-sink adapter;
  - a hashing sink when an algorithm is set;
  - a buffer.

  After the copy the hex digest goes to the validation callback. A one-way cancel flag
  is checked before every read.
- **`RealDownloadCall`** is the older engine. It copies the body into a caller's
  `OutputStream`. It reports through a callback with `onSuccess`, `onFailure` and
  `onProgress`; every callback task catches and prints what the caller's code throws.

The model is split into five modules:

- **`Common`**: bytes, `Option`/`Result`, the exceptions, decimal rendering of a status
  code, the executor, and the points at which another thread may cancel.
- **`Transport`**: Retrofit's `Call`, the delegate both engines wrap. It is modelled by its
  observable contract: one answer per call, single use, "Already executed." on a second
  issue, clone, and cancel.
- **`Pipeline`**: the sink chain `copyToFile` builds, and what the file and the hashing
  stage each see.
- **`Downloads`** (`Download.java`):
  - pure functions saying what one run does (`Drain`, `Copy`, `ExecuteSpec`,
    `EnqueueSpec`) and the lemmas about them;
  - the classes `Builder`, `Download` and `ProgressSource`, whose methods update their
    fields in place and are proved equal to those functions.
- **`RealDownload`** (`RealDownloadCall.java`): the same split, with the classes
  `RealDownloadCall` and `OutputStream`.

Caller-supplied code is represented by what it does:

- a listener or callback is a function from its arguments to the exception it throws,
  if any;
- a validation callback is a predicate on the hex digest;
- a filter is the transformation it applies to the stream written through it.

Another thread's `cancel()` is the parameter `Interference`. It says whether the cancel
comes while the engine waits for the response, just before a given read, or never.
Every call into caller code is appended to a trace field, in the order it happens. The
digest function (MD5, SHA-1, SHA-256 and hex encoding) is a parameter.

Behaviours of the code a reader might not expect:

- `Builder.to(file)` does not clone the delegate call. Two downloads built by one builder
  share one delegate, so the second to run gets "Already executed.". Only
  `Builder(Download)` (used by `clone()` and `newBuilder()`) clones it.
- The validation callback runs only when an algorithm is configured. It gets the hex
  digest and answers with a boolean.
- `checksum(algorithm, null)` stores the algorithm before rejecting the null callback, and
  keeps whatever callback the builder already held. If the builder held none (a builder
  from the call, not from `newBuilder()` of a download that had one), a download built
  afterwards has an algorithm and no callback. A copy of it that reads the whole body
  without another failure then ends in a `NullPointerException` at the validation step.
- There is no default validation callback.
- `RealDownloadCall` reports an unsuccessful response as a failure with the message
  `"HTTP: <code> <message>"`. It reports progress on every read, including the
  end-of-stream read.

## Model

Source paths are relative to the repository root.

| member | source | states |
|---|---|---|
| Common.NatStringRoundTrip | src/main/java/com/github/samizerouta/retrofit2/adapter/download/RealDownloadCall.java:52 | The decimal rendering of a status code loses nothing: reading the digits back gives the code. |
| Pipeline.BuildOutput | src/main/java/com/github/samizerouta/retrofit2/adapter/download/Download.java:171-196 | Builds the output chain (filters wrapped last to first around the file stream, stream adapted to a sink, hashing sink only for MD5/SHA1/SHA256, buffer on top). For every byte string written at the top, the file receives the filters' output applied in registration order, and the hashing stage (present exactly when an algorithm is set) sees the raw bytes. |
| Pipeline.WrapDelivers | src/main/java/com/github/samizerouta/retrofit2/adapter/download/Download.java:173-176 | The filter streams wrapped by the reverse loop deliver `Chain(filters, bytes)` to the file. |
| Pipeline.ChainAppend | src/main/java/com/github/samizerouta/retrofit2/adapter/download/Download.java:173-176 | A filter added last is applied last, closest to the file: `Chain(fs + [f], b) == f(Chain(fs, b))`. |
| Downloads.DrainReadsPrefix | src/main/java/com/github/samizerouta/retrofit2/adapter/download/Download.java:210-228 | However a copy's reads end, it has read a prefix of the chunks. The raw bytes are exactly that prefix, with one progress event per chunk read. A copy that threw nothing read the whole body. A copy stopped by the flag stopped at the read where the cancel came. |
| Downloads.ProgressTotals | src/main/java/com/github/samizerouta/retrofit2/adapter/download/Download.java:220-225 | Each progress total is the previous total plus the bytes of its read; the first equals its read. The totals never decrease. The last equals the number of bytes read. |
| Downloads.CancelStopsCopy | src/main/java/com/github/samizerouta/retrofit2/adapter/download/Download.java:215-218 | With the listener's tasks on a queued executor or a listener that never throws (the default current-thread executor included), a cancel before read `j` stops the copy with IOException("Canceled"), having written exactly the first `j` chunks and emitted their `j` progress events. This holds also when only the end-of-stream read remained. A cancel before the first read writes no body bytes; the file, opened and truncated before the first read, then holds only what the filters produce for empty input (nothing without filters). |
| Downloads.SilentListenerIsQuiet | src/main/java/com/github/samizerouta/retrofit2/adapter/download/Download.java:34-39 | The default current-thread executor, which runs each progress task on the copying thread, with a listener that never throws meets the condition of the quiet-copy lemmas. |
| Downloads.QuietCopy | src/main/java/com/github/samizerouta/retrofit2/adapter/download/Download.java:195-204 | Without a cancel, and with the listener's tasks on a queued executor or a listener that never throws (the default current-thread executor included), the whole body is written with one progress event per chunk. With an algorithm, the validation callback is called exactly once, with the digest of the raw body, and the copy succeeds if and only if the callback accepts. Without an algorithm the callback is never called and the copy succeeds. |
| Downloads.ChecksumVerdict | src/main/java/com/github/samizerouta/retrofit2/adapter/download/Download.java:201-204 | No validation call happens without an algorithm. A rejected digest after a complete read fails with InvalidChecksumException although every byte was written. |
| Downloads.ExecuteRoutes | src/main/java/com/github/samizerouta/retrofit2/adapter/download/Download.java:64-78 | The file is written if and only if the delegate answered, the flag was clear and the response is successful. Otherwise the result is the transport failure, "Canceled", or the unsuccessful response itself. After a copy, the response is returned if and only if the copy threw nothing. |
| Downloads.ModesAgree | src/main/java/com/github/samizerouta/retrofit2/adapter/download/Download.java:81-102 | When onResponse throws nothing back, `enqueue` performs the same copy as `execute`. It then makes exactly one completion call, onResponse or onFailure, carrying what `execute` would return or throw. No completion call precedes it. |
| Downloads.ThrowingOnResponse | src/main/java/com/github/samizerouta/retrofit2/adapter/download/Download.java:89-95 | On the current-thread executor, an onResponse that throws after a successful copy is followed by onFailure with the thrown exception. The caller sees two completion calls. |
| Downloads.Builder.constructor | src/main/java/com/github/samizerouta/retrofit2/adapter/download/Download.java:251-256 | A new builder holds the given delegate and the defaults. The defaults are the current-thread executor, algorithm NONE, listener NONE, no validation callback, no filters, no tag and no file. |
| Downloads.Builder.FromDownload | src/main/java/com/github/samizerouta/retrofit2/adapter/download/Download.java:258-267 | A builder made from a download holds a fresh, unissued clone of its delegate and every configured setting of the download. |
| Downloads.Builder.SetCallbackExecutor | src/main/java/com/github/samizerouta/retrofit2/adapter/download/Download.java:269-272 | A null executor throws NullPointerException("callbackExecutor == null") and changes nothing. Otherwise the executor is stored. |
| Downloads.Builder.Checksum | src/main/java/com/github/samizerouta/retrofit2/adapter/download/Download.java:274-278 | A null algorithm throws and changes nothing. A null callback stores the algorithm, then throws NullPointerException("validationCallback = null"). Otherwise both are stored. |
| Downloads.Builder.AddFilter | src/main/java/com/github/samizerouta/retrofit2/adapter/download/Download.java:280-283 | A null filter throws NullPointerException("newFilter == null") and changes nothing. Otherwise the filter is appended at the end. |
| Downloads.Builder.OnProgress | src/main/java/com/github/samizerouta/retrofit2/adapter/download/Download.java:285-288 | A null listener throws NullPointerException("progressListener == null") and changes nothing. Otherwise the listener is stored. |
| Downloads.Builder.SetTag | src/main/java/com/github/samizerouta/retrofit2/adapter/download/Download.java:290-293 | The tag is stored as given, null included. |
| Downloads.Builder.To | src/main/java/com/github/samizerouta/retrofit2/adapter/download/Download.java:295-298 | A null file throws NullPointerException("file == null"). Otherwise the file is stored and a fresh download is returned that shares the builder's delegate and copies its settings. |
| Downloads.Download.constructor | src/main/java/com/github/samizerouta/retrofit2/adapter/download/Download.java:52-61 | A download takes the builder's delegate and a snapshot of every setting. It starts with the flag clear, an empty trace and the file unwritten. |
| Downloads.Download.Cancel | src/main/java/com/github/samizerouta/retrofit2/adapter/download/Download.java:130-133 | Sets the flag and forwards the cancel to the delegate on every call. |
| Downloads.Download.Clone | src/main/java/com/github/samizerouta/retrofit2/adapter/download/Download.java:141-143 | Returns a fresh download over a fresh, unissued clone of the delegate, with the same settings, the flag clear and nothing written. |
| Downloads.Download.NewBuilder | src/main/java/com/github/samizerouta/retrofit2/adapter/download/Download.java:150-152 | Returns a fresh builder over a fresh, unissued clone of the delegate, holding every setting of the download. |
| Downloads.Download.CallResponse | src/main/java/com/github/samizerouta/retrofit2/adapter/download/Download.java:104-111 | Records the onResponse call. What it throws comes back to the engine only on the current-thread executor. |
| Downloads.Download.CallFailure | src/main/java/com/github/samizerouta/retrofit2/adapter/download/Download.java:113-120 | Records the onFailure call with the given error. |
| Downloads.Download.WriteAll | src/main/java/com/github/samizerouta/retrofit2/adapter/download/Download.java:198 | The read loop of `writeAll` produces exactly the raw bytes, trace, flag, cancel count and failure that `DrainAll` specifies. |
| Downloads.Download.CopyToFile | src/main/java/com/github/samizerouta/retrofit2/adapter/download/Download.java:166-208 | The copy's failure, trace and flag are those of `Copy`. On every exit path the file holds the filters' output for the raw bytes read, and the source and the output chain are closed. |
| Downloads.Download.Execute | src/main/java/com/github/samizerouta/retrofit2/adapter/download/Download.java:64-78 | The result, trace, file and flag are those `ExecuteSpec` gives for the delegate's answer: "Already executed." on a second issue, and the flag as it stands once the delegate returns. The delegate receives one cancel for a cancel while waiting and one for a cancel that stopped the copy. Without a copy, no source or output chain is opened or closed. |
| Downloads.Download.Enqueue | src/main/java/com/github/samizerouta/retrofit2/adapter/download/Download.java:81-122 | A second issue throws "Already executed." and changes nothing. Otherwise the trace, file and flag are those `EnqueueSpec` gives for the delegate's reply, and the delegate receives one cancel for a cancel while waiting and one for a cancel that stopped the copy. Without a copy, no source or output chain is opened or closed. |
| Downloads.ProgressSource.constructor | src/main/java/com/github/samizerouta/retrofit2/adapter/download/Download.java:210-212 | A new source is positioned at the first read with a running total of zero. |
| Downloads.ProgressSource.Read | src/main/java/com/github/samizerouta/retrofit2/adapter/download/Download.java:215-228 | With the flag set, throws "Canceled" and reads nothing. At the end of the stream, returns -1 and emits nothing. Otherwise returns the next chunk, adds it to the running total and emits one progress event with the chunk size, the new total and the content length; what the listener throws comes back only on the current-thread executor. |
| Downloads.ProgressSource.CallProgress | src/main/java/com/github/samizerouta/retrofit2/adapter/download/Download.java:230-237 | Records one progress event. The listener's exception comes back only on the current-thread executor. |
| RealDownload.HttpFailureNamesCode | src/main/java/com/github/samizerouta/retrofit2/adapter/download/RealDownloadCall.java:51-52 | The failure reported for an unsuccessful response reads "HTTP: ", then the status digits (which parse back to the status), a space, and the response message. |
| RealDownload.CopyOutcome | src/main/java/com/github/samizerouta/retrofit2/adapter/download/RealDownloadCall.java:54-82 | A successful response is copied whole unless a cancel stops it. A complete copy reports one progress per chunk, then the end-of-stream progress repeating the final total, then onSuccess, and leaves the flag clear. A cancel before read `j` (or a flag already set) writes exactly the first `j` chunks, reports their `j` progress totals, ends in onFailure("Canceled") and leaves the flag set. |
| RealDownload.TotalsGrow | src/main/java/com/github/samizerouta/retrofit2/adapter/download/RealDownloadCall.java:58-68 | The reported totals never decrease and all carry the content length. The last equals the number of bytes read. |
| RealDownload.EnqueueRejects | src/main/java/com/github/samizerouta/retrofit2/adapter/download/RealDownloadCall.java:51-53 | An unsuccessful response yields exactly onFailure("HTTP: …") and writes nothing. So does a transport failure (lines 85-89), with its error. |
| RealDownload.CallerExceptionsStayInTasks | src/main/java/com/github/samizerouta/retrofit2/adapter/download/RealDownloadCall.java:91-128 | Whatever the caller's callbacks throw, every task catches it. The callback calls made are exactly the ones dispatched, in order, and only printed stack traces are interleaved. |
| RealDownload.RealDownloadCall.constructor | src/main/java/com/github/samizerouta/retrofit2/adapter/download/RealDownloadCall.java:37-41 | A new call wraps the given call and executor, with the flag clear. |
| RealDownload.RealDownloadCall.Cancel | src/main/java/com/github/samizerouta/retrofit2/adapter/download/RealDownloadCall.java:138-143 | Sets the flag. The cancel is forwarded to the wrapped call only when the flag was clear, so at most once. |
| RealDownload.RealDownloadCall.Clone | src/main/java/com/github/samizerouta/retrofit2/adapter/download/RealDownloadCall.java:151-153 | Returns a fresh call over a fresh, unissued clone of the wrapped call, with the same executor and the flag clear. |
| RealDownload.RealDownloadCall.Dispatch | src/main/java/com/github/samizerouta/retrofit2/adapter/download/RealDownloadCall.java:91-128 | One callback task: the call, followed by a printed stack trace exactly when the caller's code threw. |
| RealDownload.RealDownloadCall.WriteAll | src/main/java/com/github/samizerouta/retrofit2/adapter/download/RealDownloadCall.java:57-74 | The counting source read by `writeAll` produces exactly the bytes, progress reports, failure, flag and forwarded cancels that `Drain` specifies. The model appends each chunk read to the stream's content; in the source the bytes pass through a buffered sink and have all reached the stream only once that sink is closed (see "Left out"). |
| RealDownload.RealDownloadCall.Deliver | src/main/java/com/github/samizerouta/retrofit2/adapter/download/RealDownloadCall.java:50-89 | The handler of the one notification yields the trace, the stream content and the flag that `EnqueueSpec` gives; the cancel reaches the wrapped call only if the flag was clear. The stream is closed on every path, and the source over the body is closed exactly when the body was copied. |
| RealDownload.RealDownloadCall.CopyBody | src/main/java/com/github/samizerouta/retrofit2/adapter/download/RealDownloadCall.java:73-81 | The copy, then onSuccess or onFailure with what stopped it, then the stream and the source over the body closed. |
| RealDownload.RealDownloadCall.Finish | src/main/java/com/github/samizerouta/retrofit2/adapter/download/RealDownloadCall.java:75-80 | After `writeAll`: one callback task reporting success or the failure that stopped the copy, then the `finally` block closes the sink (and with it the stream) and the source. |
| RealDownload.RealDownloadCall.Enqueue | src/main/java/com/github/samizerouta/retrofit2/adapter/download/RealDownloadCall.java:44-130 | A null stream or callback throws NullPointerException("to == null") or ("callback == null") before the call is issued. A second issue throws "Already executed." and touches neither trace nor stream. A second issue also leaves the flag and the wrapped call's cancels as they were. Otherwise the trace, the stream and the flag are those `EnqueueSpec` gives for the call's reply, and the wrapped call receives one cancel exactly when the flag goes from clear to set. The source over the body is closed exactly when the reply was a successful response; the paths that throw leave it as it was. |

## Left out

- Transport.Call: Retrofit's `Call` and OkHttp behind it are not part of this model. The delegate's answer is fixed when it is built. A cancel does not change it: cancellation is seen only through the engines' own flag.
- `request()` (Download.java:146-148), the accessors `checksumAlgorithm()`, `tag()` and `file()` (fields of the class), and `isExecuted()`/`isCanceled()` are read-only and modelled as fields and functions without further contract.
- `DownloadCallAdapterFactory` and `DownloadCall` are not part of this model.
- Reads of the network body never fail in the model. Only the cancel flag, a progress listener that throws back, or checksum validation stop a copy. Opening the destination file, creating a filter stream, writing, flushing and closing never throw either. `closeQuietly` swallowing close errors is therefore not modelled.
- Buffering (okio's 8 KiB segments, the sizes of individual writes) is not modelled. The body is a sequence of chunks, one per read, and the file content is what the whole chain delivers after it is closed.
- The hash algorithms and hex encoding are a parameter function. Gzip or any other concrete filter is a parameter transformation of the whole stream.
- Threads: callbacks handed to a queued executor are recorded in the trace in submission order, as if they ran in that order. Another thread's `cancel()` is reduced to the points listed by `Interference`.
- Downloads.ProgressSource.CallProgress: the source's progress task reads the running total when it runs, not when it is submitted. The model records the total at submission, which is what the current-thread executor sees; a queued task may observe a larger total.
- RealDownload.RealDownloadCall.CopyBody: `onSuccess` (or `onFailure`) is handed to the executor right after `writeAll` returns. The buffered sink is not flushed there; it is closed only afterwards, in the `finally` block. So on every executor, the current-thread one included, the callback runs while the last buffered bytes have not reached `to` and `to` is still open. For a body shorter than one buffer segment, `to` is still empty at that point. The model appends each chunk to `to` as it is read and states only the content and the closed state after the handler ends, not what `to` holds while the completion callback runs.
- Downloads.Copy: a missing validation callback produces a `NullPointerException` whose message is not modelled (the model uses the empty message). A validation callback that throws is not modelled; it only accepts or rejects.
- Downloads.Download.Enqueue: a null callback is not modelled. The source dereferences it only when a notification is dispatched.
- Downloads.Builder.SetTag: the source's parameter type is `java.util.Objects`, which has no instances, so only null can be passed in practice. The model accepts any tag value.
