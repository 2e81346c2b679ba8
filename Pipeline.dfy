/** The write side of `Download.copyToFile`: the chain of sinks the copy
    writes into, built from the file outwards, and what each stage sees of
    the bytes written at the top. */
module Pipeline {
  import opened Common

  /** A caller-supplied filter, seen as the transformation it applies to the
      whole stream written through it (compression, encryption, ...). */
  type Filter = seq<byte> -> seq<byte>

  datatype ChecksumAlgorithm = NONE | MD5 | SHA1 | SHA256

  /** The hash library: the lowercase hex digest of some bytes. */
  type Digest = (ChecksumAlgorithm, seq<byte>) -> string

  /** One stage of the output chain, outermost first. */
  datatype Stage =
    | FileOut                                          // the file's own stream
    | Filtered(filter: Filter, downstream: Stage)      // a filter's stream
    | StreamSink(downstream: Stage)                    // stream seen as a sink
    | Hashing(algorithm: ChecksumAlgorithm, downstream: Stage)
    | Buffered(downstream: Stage)

  /** Which digest the outermost hashing stage computes, over which bytes. */
  datatype DigestInput = DigestInput(algorithm: ChecksumAlgorithm, bytes: seq<byte>)

  /** What reaches the file when `bytes` are written into `s` and the chain
      is closed (closing flushes every stage, so nothing stays buffered). */
  function Delivered(s: Stage, bytes: seq<byte>): seq<byte>
  {
    match s
    case FileOut => bytes
    case Filtered(f, d) => Delivered(d, f(bytes))
    case StreamSink(d) => Delivered(d, bytes)
    case Hashing(_, d) => Delivered(d, bytes)
    case Buffered(d) => Delivered(d, bytes)
  }

  /** The outermost hashing stage of `s` and the bytes it sees, if any. */
  function Hashed(s: Stage, bytes: seq<byte>): Option<DigestInput>
  {
    match s
    case FileOut => None
    case Filtered(f, d) => Hashed(d, f(bytes))
    case StreamSink(d) => Hashed(d, bytes)
    case Hashing(a, _) => Some(DigestInput(a, bytes))
    case Buffered(d) => Hashed(d, bytes)
  }

  /** Filters applied in registration order: the first-added sees the raw
      bytes, the last-added produces what the file holds. */
  function Chain(filters: seq<Filter>, bytes: seq<byte>): seq<byte>
  {
    if filters == [] then bytes else Chain(filters[1..], filters[0](bytes))
  }

  /** The filter part of the chain: `filters[0]` outermost, the file last. */
  function Wrap(filters: seq<Filter>): Stage
  {
    if filters == [] then FileOut else Filtered(filters[0], Wrap(filters[1..]))
  }

  /** The stage the switch on the checksum algorithm puts over `s`. */
  function DigestStage(algorithm: ChecksumAlgorithm, s: Stage): Stage
  {
    if algorithm == NONE then s else Hashing(algorithm, s)
  }

  lemma {:induction false} WrapDelivers(filters: seq<Filter>, bytes: seq<byte>)
    ensures Delivered(Wrap(filters), bytes) == Chain(filters, bytes)
    decreases |filters|
  {
    if filters != [] {
      WrapDelivers(filters[1..], filters[0](bytes));
    }
  }

  lemma {:induction false} WrapHashesNothing(filters: seq<Filter>, bytes: seq<byte>)
    ensures Hashed(Wrap(filters), bytes) == None
    decreases |filters|
  {
    if filters != [] {
      WrapHashesNothing(filters[1..], filters[0](bytes));
    }
  }

  /** The last-added filter is the one closest to the file. */
  lemma {:induction false} ChainAppend(filters: seq<Filter>, last: Filter, bytes: seq<byte>)
    ensures Chain(filters + [last], bytes) == last(Chain(filters, bytes))
    decreases |filters|
  {
    if filters != [] {
      assert (filters + [last])[1..] == filters[1..] + [last];
      ChainAppend(filters[1..], last, filters[0](bytes));
    }
  }

  /** Builds the output chain as `copyToFile` does: filters wrapped from
      the last to the first around the file stream, the stream adapted to a
      sink, the hashing sink (if any) outside the filters, a buffer on top.
      Hence the file receives the filters' output in registration order and
      the digest covers the raw bytes written at the top. */
  method BuildOutput(filters: seq<Filter>, algorithm: ChecksumAlgorithm) returns (output: Stage)
    ensures output == Buffered(DigestStage(algorithm, StreamSink(Wrap(filters))))
    ensures forall bytes :: Delivered(output, bytes) == Chain(filters, bytes)
    ensures forall bytes :: (Hashed(output, bytes)
      == if algorithm == NONE then None else Some(DigestInput(algorithm, bytes)))
  {
    output := FileOut;
    var i := |filters|;
    while i > 0
      invariant 0 <= i <= |filters|
      invariant output == Wrap(filters[i..])
    {
      assert filters[i - 1..][1..] == filters[i..];
      output := Filtered(filters[i - 1], output);
      i := i - 1;
    }
    assert filters[0..] == filters;
    output := StreamSink(output);
    match algorithm {
      case MD5 => output := Hashing(MD5, output);
      case SHA1 => output := Hashing(SHA1, output);
      case SHA256 => output := Hashing(SHA256, output);
      case NONE =>
    }
    output := Buffered(output);
    assert output == Buffered(DigestStage(algorithm, StreamSink(Wrap(filters))));
    forall bytes
      ensures Delivered(output, bytes) == Chain(filters, bytes)
      ensures Hashed(output, bytes)
        == (if algorithm == NONE then None else Some(DigestInput(algorithm, bytes)))
    {
      var inner := StreamSink(Wrap(filters));
      var hashing := DigestStage(algorithm, inner);
      assert Delivered(output, bytes) == Delivered(hashing, bytes);
      assert Delivered(hashing, bytes) == Delivered(inner, bytes) by {
        if algorithm != NONE {
          assert hashing == Hashing(algorithm, inner);
        }
      }
      assert Delivered(inner, bytes) == Delivered(Wrap(filters), bytes);
      WrapDelivers(filters, bytes);
      WrapHashesNothing(filters, bytes);
    }
  }
}
