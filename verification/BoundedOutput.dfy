/** Bounding a command's output (src/remote/agent-executor.ts): the agent collects it chunk by chunk into
    an accumulator and cuts it at the end; a file is read up to a bound and cut at once. */
module BoundedOutput {
  import Decimals
  import opened ByteStrings

  datatype Bounded = Bounded(value: Bytes, truncated: bool)

  function Min(a: int, b: int): int { if a < b then a else b }

  /** `buffer.subarray(0, n)`. */
  function Take(buffer: Bytes, n: int): Bytes {
    if n <= 0 then [] else buffer[..Min(n, |buffer|)]
  }

  function Join(chunks: seq<Bytes>): Bytes {
    if chunks == [] then [] else Join(chunks[..|chunks| - 1]) + chunks[|chunks| - 1]
  }

  /** `Buffer.concat(chunks, length)`: cut to `length`, or filled up with zeros. */
  function Concat(chunks: seq<Bytes>, length: nat): Bytes {
    var all := Join(chunks);
    if length <= |all| then all[..length] else all + seq(length - |all|, _ => 0)
  }

  /** The UTF-8 bytes of the marker; its text is ASCII. */
  function Marker(maxBytes: int): (m: Bytes)
    ensures |m| > 25
  {
    var text := "\n[truncated after " + Decimals.Decimal(maxBytes) + " bytes]\n";
    assert forall i :: 0 <= i < |text| ==> text[i] < 128 as char;
    seq(|text|, i requires 0 <= i < |text| && text[i] < 128 as char => text[i] as int)
  }

  function AppendTruncationMarker(buffer: Bytes, maxBytes: int): Bounded {
    if maxBytes <= 0 then Bounded([], true)
    else
      var marker := Marker(maxBytes);
      if |marker| >= maxBytes then Bounded(Take(marker, maxBytes), true)
      else Bounded(Concat([Take(buffer, maxBytes - |marker|), marker], maxBytes), true)
  }

  function TruncateBuffer(buffer: Bytes, maxBytes: int): Bounded {
    if |buffer| <= maxBytes then Bounded(buffer, false) else AppendTruncationMarker(buffer, maxBytes)
  }

  /** What has been collected so far. */
  datatype Collected = Collected(bytes: nat, chunks: seq<Bytes>, truncated: bool)

  const NOTHING := Collected(0, [], false)

  function Append(c: Collected, chunk: Bytes, maxBytes: int): Collected {
    if maxBytes <= 0 then c.(truncated := c.truncated || |chunk| > 0)
    else if maxBytes - c.bytes <= 0 then c.(truncated := true)
    else
      var slice := Take(chunk, maxBytes - c.bytes);
      Collected(c.bytes + |slice|, c.chunks + [slice], c.truncated || |slice| != |chunk|)
  }

  function Finalize(c: Collected, maxBytes: int): Bounded {
    var value := Concat(c.chunks, c.bytes);
    if !c.truncated then Bounded(value, false) else AppendTruncationMarker(value, maxBytes)
  }

  class OutputAccumulator {
    var bytes: nat
    var chunks: seq<Bytes>
    var truncated: bool

    function State(): Collected
      reads this
    {
      Collected(bytes, chunks, truncated)
    }

    constructor ()
      ensures State() == NOTHING
    {
      bytes, chunks, truncated := 0, [], false;
    }

    method AppendBoundedOutput(chunk: Bytes, maxBytes: int)
      modifies this
      ensures State() == Append(old(State()), chunk, maxBytes)
    {
      if maxBytes <= 0 {
        truncated := truncated || |chunk| > 0;
        return;
      }
      var remaining := maxBytes - bytes;
      if remaining <= 0 {
        truncated := true;
        return;
      }
      var slice := Take(chunk, remaining);
      chunks := chunks + [slice];
      bytes := bytes + |slice|;
      truncated := truncated || |slice| != |chunk|;
    }
  }

  function Streamed(chunks: seq<Bytes>, maxBytes: int): Collected {
    if chunks == [] then NOTHING
    else Append(Streamed(chunks[..|chunks| - 1], maxBytes), chunks[|chunks| - 1], maxBytes)
  }

  /** Some empty chunk arrives when the accumulator is already exactly full. */
  predicate EmptyWhenFull(chunks: seq<Bytes>, maxBytes: int) {
    maxBytes > 0 && exists i :: 0 <= i < |chunks| && chunks[i] == [] && |Join(chunks[..i])| == maxBytes
  }

  predicate Holds(c: Collected, all: Bytes, overfull: bool, maxBytes: int) {
    && Join(c.chunks) == Take(all, maxBytes)
    && c.bytes == |Join(c.chunks)|
    && (c.truncated <==> |all| > (if maxBytes > 0 then maxBytes else 0) || overfull)
  }

  /** The accumulator holds the first `maxBytes` bytes, exactly counted, and its flag says that more came
      (or that an empty chunk came when it was full). */
  lemma {:induction false} StreamedContents(chunks: seq<Bytes>, maxBytes: int)
    ensures Holds(Streamed(chunks, maxBytes), Join(chunks), EmptyWhenFull(chunks, maxBytes), maxBytes)
  {
    if chunks != [] {
      var prefix, last := chunks[..|chunks| - 1], chunks[|chunks| - 1];
      StreamedContents(prefix, maxBytes);
      AppendContents(Streamed(prefix, maxBytes), Join(prefix), EmptyWhenFull(prefix, maxBytes), last, maxBytes);
      EmptyWhenFullNext(prefix, last, maxBytes);
      assert chunks == prefix + [last];
    }
  }

  lemma AppendContents(c: Collected, all: Bytes, overfull: bool, chunk: Bytes, maxBytes: int)
    requires Holds(c, all, overfull, maxBytes)
    ensures Holds(Append(c, chunk, maxBytes), all + chunk,
                  overfull || (maxBytes > 0 && chunk == [] && |all| == maxBytes), maxBytes)
  {
    if maxBytes > 0 && c.bytes < maxBytes {
      var slice := Take(chunk, maxBytes - c.bytes);
      assert (c.chunks + [slice])[..|c.chunks|] == c.chunks;
      assert Take(all + chunk, maxBytes) == all + slice;
    } else if maxBytes > 0 {
      assert Take(all + chunk, maxBytes) == Take(all, maxBytes);
    }
  }

  lemma EmptyWhenFullNext(prefix: seq<Bytes>, last: Bytes, maxBytes: int)
    ensures EmptyWhenFull(prefix + [last], maxBytes)
       <==> EmptyWhenFull(prefix, maxBytes) || (maxBytes > 0 && last == [] && |Join(prefix)| == maxBytes)
  {
    var chunks := prefix + [last];
    assert chunks[..|prefix|] == prefix;
    assert forall i :: 0 <= i < |prefix| ==> chunks[..i] == prefix[..i] && chunks[i] == prefix[i];
    if EmptyWhenFull(prefix, maxBytes) {
      var i :| 0 <= i < |prefix| && prefix[i] == [] && |Join(prefix[..i])| == maxBytes;
      assert chunks[i] == [] && |Join(chunks[..i])| == maxBytes;
    } else if maxBytes > 0 && last == [] && |Join(prefix)| == maxBytes {
      assert chunks[|prefix|] == [] && |Join(chunks[..|prefix|])| == maxBytes;
    }
  }

  /** The fixed-length concatenation neither cuts nor zero-fills: it is the plain join, both times it is
      used. */
  lemma ConcatNeverPads(chunks: seq<Bytes>, maxBytes: int, buffer: Bytes)
    ensures var c := Streamed(chunks, maxBytes); Concat(c.chunks, c.bytes) == Join(c.chunks)
    ensures |Marker(maxBytes)| < maxBytes <= |buffer| ==>
              Concat([Take(buffer, maxBytes - |Marker(maxBytes)|), Marker(maxBytes)], maxBytes)
              == buffer[..maxBytes - |Marker(maxBytes)|] + Marker(maxBytes)
  {
    StreamedContents(chunks, maxBytes);
    JoinTwo(Take(buffer, maxBytes - |Marker(maxBytes)|), Marker(maxBytes));
  }

  lemma JoinTwo(a: Bytes, b: Bytes)
    ensures Join([a, b]) == a + b
  {
    var none: seq<Bytes> := [];
    assert [a][..|[a]| - 1] == none;
    assert Join([a]) == a;
    assert [a, b][..|[a, b]| - 1] == [a];
  }

  /** Cutting depends only on the bytes that fit. */
  lemma MarkerIgnoresExcess(buffer: Bytes, maxBytes: int)
    ensures AppendTruncationMarker(Take(buffer, maxBytes), maxBytes) == AppendTruncationMarker(buffer, maxBytes)
  {
    if maxBytes > 0 && |Marker(maxBytes)| < maxBytes {
      var n := maxBytes - |Marker(maxBytes)|;
      assert Take(Take(buffer, maxBytes), n) == Take(buffer, n);
    }
  }

  /** Streaming then finalising equals cutting the whole output, for exactly these inputs. Limits of zero
      or more and non-empty chunks are the case the agent is in. */
  lemma StreamedEqualsBatch(chunks: seq<Bytes>, maxBytes: int)
    ensures Finalize(Streamed(chunks, maxBytes), maxBytes) == TruncateBuffer(Join(chunks), maxBytes)
       <==> (if maxBytes < 0 then Join(chunks) != []
             else |Join(chunks)| > maxBytes || !EmptyWhenFull(chunks, maxBytes))
  {
    StreamedContents(chunks, maxBytes);
    ConcatNeverPads(chunks, maxBytes, []);
    MarkerIgnoresExcess(Join(chunks), maxBytes);
  }

  lemma NonEmptyChunksAreBatch(chunks: seq<Bytes>, maxBytes: nat)
    requires forall i :: 0 <= i < |chunks| ==> chunks[i] != []
    ensures Finalize(Streamed(chunks, maxBytes), maxBytes) == TruncateBuffer(Join(chunks), maxBytes)
  {
    StreamedEqualsBatch(chunks, maxBytes);
  }

  /** The bounded value never exceeds the limit, is flagged exactly when the output was longer, and is the
      output itself when it is not flagged. */
  lemma BoundHolds(buffer: Bytes, maxBytes: nat)
    ensures var r := TruncateBuffer(buffer, maxBytes);
            && |r.value| <= maxBytes
            && (r.truncated <==> |buffer| > maxBytes)
            && (!r.truncated ==> r.value == buffer)
            && (r.truncated && |Marker(maxBytes)| < maxBytes ==>
                  r.value == buffer[..maxBytes - |Marker(maxBytes)|] + Marker(maxBytes))
  {
    if |Marker(maxBytes)| < maxBytes < |buffer| {
      ConcatNeverPads([], maxBytes, buffer);
    }
  }

  /** Reading one byte past the bound is enough to cut a file as if all of it had been read. */
  lemma BoundedReadEqualsBatch(file: Bytes, maxBytes: int)
    ensures var capped := if maxBytes < 0 then 0 else maxBytes;
            TruncateBuffer(Take(file, capped + 1), capped) == TruncateBuffer(file, capped)
  {
    var capped := if maxBytes < 0 then 0 else maxBytes;
    if |file| > capped {
      MarkerIgnoresExcess(file, capped);
      MarkerIgnoresExcess(Take(file, capped + 1), capped);
      assert Take(Take(file, capped + 1), capped) == Take(file, capped);
    }
  }
}
