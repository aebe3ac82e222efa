/**
The loop that copies a child's output stream into its log file under a byte limit, and reports
samples of it as events.
*/
module OutputPump {
  newtype byte = x: int | 0 <= x < 0x100

  /** What one read of the pipe yields; an empty read is the end of the stream. */
  datatype Read = Bytes(chunk: seq<byte>) | Failed

  datatype Sample = Sample(bytesSeen: nat, bytesWritten: nat, truncated: bool)

  datatype Limits = Limits(maxBytes: nat, sampleBytes: nat)

  /** The stream's content: every byte up to the first empty or failed read. */
  function Content(pieces: seq<Read>): seq<byte> {
    if pieces == [] || pieces[0].Failed? || pieces[0].chunk == [] then []
    else pieces[0].chunk + Content(pieces[1..])
  }

  function Prefix(bytes: seq<byte>, n: nat): seq<byte> {
    if |bytes| <= n then bytes else bytes[..n]
  }

  function Written(samples: seq<Sample>): nat {
    if samples == [] then 0 else Written(samples[..|samples| - 1]) + samples[|samples| - 1].bytesWritten
  }

  ghost predicate Announced(samples: seq<Sample>) {
    exists s :: s in samples && s.truncated
  }

  lemma ContentStep(pieces: seq<Read>, i: nat, seen: seq<byte>)
    requires i < |pieces| && pieces[i].Bytes? && pieces[i].chunk != []
    requires Content(pieces) == seen + Content(pieces[i..])
    ensures Content(pieces) == seen + pieces[i].chunk + Content(pieces[i + 1..])
  {
    assert pieces[i..][1..] == pieces[i + 1..];
    assert seen + (pieces[i].chunk + Content(pieces[i + 1..])) == seen + pieces[i].chunk + Content(pieces[i + 1..]);
  }

  lemma ContentEnds(pieces: seq<Read>, i: nat)
    requires i == |pieces| || (i < |pieces| && (pieces[i].Failed? || pieces[i].chunk == []))
    ensures Content(pieces[i..]) == []
  {
  }

  class ManagedStream {
    var file: seq<byte>
    var used: nat
    var truncated: bool
    var samples: seq<Sample>

    constructor ()
      ensures file == [] && used == 0 && !truncated && samples == []
    {
      file, used, truncated, samples := [], 0, false, [];
    }

    /** The locked section of one read: write what still fits, and flag what does not. */
    method WriteChunk(chunk: seq<byte>, maxBytes: nat, ghost seen: seq<byte>)
        returns (bytesWritten: nat, truncatedNow: bool)
      requires file == Prefix(seen, maxBytes) && used == |file| && chunk != []
      modifies this`file, this`used, this`truncated
      ensures file == Prefix(seen + chunk, maxBytes) && used == |file|
      ensures |file| == |old(file)| + bytesWritten
      ensures truncatedNow <==> |seen + chunk| > maxBytes
      ensures truncated <==> old(truncated) || truncatedNow
    {
      var remaining := if maxBytes > used then maxBytes - used else 0;
      bytesWritten := if remaining < |chunk| then remaining else |chunk|;
      truncatedNow := bytesWritten < |chunk|;
      PrefixGrows(seen, chunk, maxBytes);
      if bytesWritten > 0 {
        file := file + chunk[..bytesWritten];
        used := used + bytesWritten;
      }
      if truncatedNow {
        truncated := true;
      }
    }

    method Report(sample: Sample)
      modifies this`samples
      ensures samples == old(samples) + [sample]
      ensures Written(samples) == Written(old(samples)) + sample.bytesWritten
      ensures Announced(samples) <==> Announced(old(samples)) || sample.truncated
    {
      samples := samples + [sample];
      assert samples[..|samples| - 1] == old(samples);
    }

    /** The state after `seen` bytes: what is kept, what is counted, and whether a cut was announced. */
    ghost predicate Copied(seen: seq<byte>, maxBytes: nat)
      reads this
    {
      && file == Prefix(seen, maxBytes)
      && used == |file|
      && (truncated <==> |seen| > maxBytes)
      && (truncated <==> Announced(samples))
      && Written(samples) <= |file|
    }

    /** One pass of the loop body. */
    method Accept(chunk: seq<byte>, limits: Limits, emittedBudget: nat, ghost seen: seq<byte>)
        returns (budget: nat)
      requires Copied(seen, limits.maxBytes) && chunk != []
      modifies this
      ensures Copied(seen + chunk, limits.maxBytes)
    {
      var sampleBytes := if limits.sampleBytes > 1 then limits.sampleBytes else 1;
      var bytesWritten, truncatedNow := WriteChunk(chunk, limits.maxBytes, seen);
      budget := emittedBudget + |chunk|;
      if budget >= sampleBytes || truncatedNow {
        budget := 0;
        Report(Sample(|chunk|, bytesWritten, truncatedNow));
      }
    }

    /**
    However the stream is split into reads, the log file is the first `maxBytes` bytes of the
    content, the counter is the file's length, and the flag says whether anything was dropped.
    A sample marked truncated is reported exactly when something was dropped.
    */
    method Pump(pieces: seq<Read>, limits: Limits)
      requires file == [] && used == 0 && !truncated && samples == []
      modifies this
      ensures file == Prefix(Content(pieces), limits.maxBytes)
      ensures used == |file|
      ensures truncated <==> |Content(pieces)| > limits.maxBytes
      ensures truncated <==> Announced(samples)
      ensures Written(samples) <= |file|
    {
      var emittedBudget := 0;
      ghost var seen := [];
      var i := 0;
      assert pieces[0..] == pieces;
      while i < |pieces|
        invariant 0 <= i <= |pieces|
        invariant Content(pieces) == seen + Content(pieces[i..])
        invariant Copied(seen, limits.maxBytes)
      {
        if pieces[i].Failed? || pieces[i].chunk == [] {
          break;
        }
        ContentStep(pieces, i, seen);
        emittedBudget := Accept(pieces[i].chunk, limits, emittedBudget, seen);
        seen := seen + pieces[i].chunk;
        i := i + 1;
      }
      ContentEnds(pieces, i);
      assert seen + [] == seen;
    }
  }

  lemma PrefixGrows(seen: seq<byte>, chunk: seq<byte>, max: nat)
    ensures
      var used := |Prefix(seen, max)|;
      var room := max - used;
      Prefix(seen + chunk, max) == Prefix(seen, max) + Prefix(chunk, room)
  {
  }

  /** Two ways of splitting the same bytes leave the same file, counter and flag. */
  method SplitsAgree(one: seq<Read>, other: seq<Read>, limits: Limits)
      returns (a: seq<byte>, b: seq<byte>, cutA: bool, cutB: bool)
    requires Content(one) == Content(other)
    ensures a == b && cutA == cutB
    ensures |a| <= limits.maxBytes && a <= Content(one)
    ensures !cutA <==> a == Content(one)
  {
    var first := new ManagedStream();
    first.Pump(one, limits);
    var second := new ManagedStream();
    second.Pump(other, limits);
    a, b, cutA, cutB := first.file, second.file, first.truncated, second.truncated;
  }
}
