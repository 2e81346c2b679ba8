/** Values shared by both download engines: bytes, optional values and
    results, the exceptions the engines throw or report, the executor that
    runs callbacks, and the points at which another thread may cancel. */
module Common {

  type byte = bv8

  datatype Option<+T> = None | Some(value: T)

  datatype Result<+T, +E> = Success(value: T) | Failure(error: E)

  /** The throwables that cross the engines' boundaries. `UserException`
      stands for anything a caller-supplied callback or listener throws. */
  datatype Throwable =
    | IOException(message: string)
    | NullPointerException(message: string)
    | IllegalStateException(message: string)
    | InvalidChecksumException
    | Exception(message: string)
    | UserException(id: nat)

  /** The exception both engines throw when they observe the cancel flag. */
  const CANCELED: Throwable := IOException("Canceled")

  /** Where dispatched callbacks run. `CurrentThread` is the executor that
      runs each task immediately on the calling thread, so whatever the task
      throws reaches the caller; `Queued` hands the task to another thread,
      which runs the tasks in submission order and keeps their exceptions. */
  datatype Executor = CurrentThread | Queued(id: nat)

  /** When another thread calls `cancel()` during one run: never, while the
      engine waits for the response, or just before the read numbered `read`
      (reads are numbered from 0; read `|chunks|` is the end-of-stream read). */
  datatype Interference = NoCancel | CancelWhileWaiting | CancelBeforeRead(read: nat)

  /** The bytes of a streamed body, chunk after chunk. */
  function Flatten(chunks: seq<seq<byte>>): (r: seq<byte>)
  {
    if chunks == [] then [] else Flatten(chunks[..|chunks| - 1]) + chunks[|chunks| - 1]
  }

  lemma FlattenStep(chunks: seq<seq<byte>>, k: nat)
    requires k < |chunks|
    ensures Flatten(chunks[..k + 1]) == Flatten(chunks[..k]) + chunks[k]
  {
    assert chunks[..k + 1][..k] == chunks[..k];
  }

  /** A longer prefix of the chunks never holds fewer bytes. */
  lemma {:induction false} FlattenPrefixGrows(chunks: seq<seq<byte>>, i: nat, j: nat)
    requires i <= j <= |chunks|
    ensures |Flatten(chunks[..i])| <= |Flatten(chunks[..j])|
    decreases j - i
  {
    if i < j {
      FlattenStep(chunks, i);
      FlattenPrefixGrows(chunks, i + 1, j);
    }
  }

  /** Decimal text of a natural number, most significant digit first. */
  function NatString(n: nat): (s: string)
    ensures |s| > 0
    ensures forall i :: 0 <= i < |s| ==> '0' <= s[i] <= '9'
    ensures s[0] == '0' ==> n == 0
  {
    if n < 10 then [Digit(n)] else NatString(n / 10) + [Digit(n % 10)]
  }

  function Digit(d: nat): (c: char)
    requires d < 10
    ensures '0' <= c <= '9' && c as int - '0' as int == d
  {
    ('0' as int + d) as char
  }

  /** Java's decimal rendering of an int, as string concatenation uses it. */
  function IntString(i: int): (s: string)
    ensures |s| > 0 && (i < 0 <==> s[0] == '-')
  {
    if i < 0 then "-" + NatString(-i) else NatString(i)
  }

  /** The value a string of decimal digits denotes. */
  function DigitsValue(s: string): nat
    requires forall i :: 0 <= i < |s| ==> '0' <= s[i] <= '9'
  {
    if s == [] then 0 else DigitsValue(s[..|s| - 1]) * 10 + (s[|s| - 1] as int - '0' as int)
  }

  /** NatString loses nothing: reading the digits back gives the number. */
  lemma {:induction false} NatStringRoundTrip(n: nat)
    ensures DigitsValue(NatString(n)) == n
  {
    if n >= 10 {
      var s := NatString(n);
      assert s[..|s| - 1] == NatString(n / 10);
      NatStringRoundTrip(n / 10);
    }
  }
}
