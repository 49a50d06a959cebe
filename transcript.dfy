/** The transcript accumulator of server/transcriber.js: each new chunk is
    appended to the stored raw transcript behind a local-time marker. */
module Transcript {

  /** The separator written in front of every chunk but the first:
      a blank line, then the time in brackets on a line of its own. */
  function Marker(timestamp: string): string {
    "\n\n[" + timestamp + "]\n"
  }

  /** The merged transcript: an empty existing transcript yields the chunk
      verbatim; otherwise the existing text is kept whole, followed by the
      marker and the chunk, so both can be read back from the result. */
  function Merge(existing: string, timestamp: string, chunk: string): (r: string)
    ensures existing == "" ==> r == chunk
    ensures existing <= r
    ensures existing != "" ==>
              |r| == |existing| + |Marker(timestamp)| + |chunk|
              && r[|existing|..|existing| + |Marker(timestamp)|] == Marker(timestamp)
              && r[|existing| + |Marker(timestamp)|..] == chunk
  {
    if existing != "" then existing + Marker(timestamp) + chunk else chunk
  }

  /** The transcript obtained by merging `chunks` one after another into
      `existing`, chunk `k` stamped with `stamps[k]`. */
  function Accumulate(existing: string, chunks: seq<string>, stamps: seq<string>): string
    requires |stamps| == |chunks|
    decreases |chunks|
  {
    if chunks == [] then existing
    else Accumulate(Merge(existing, stamps[0], chunks[0]), chunks[1..], stamps[1..])
  }

  /** Each chunk preceded by its own marker, in order. */
  function Delimited(chunks: seq<string>, stamps: seq<string>): string
    requires |stamps| == |chunks|
  {
    if chunks == [] then ""
    else Marker(stamps[0]) + chunks[0] + Delimited(chunks[1..], stamps[1..])
  }

  /** Accumulating onto a non-empty transcript only appends: every chunk
      arrives behind its marker, in capture order, none dropped or
      reordered. */
  lemma {:induction false} AccumulateOntoNonEmpty(existing: string, chunks: seq<string>, stamps: seq<string>)
    requires |stamps| == |chunks|
    requires existing != ""
    ensures Accumulate(existing, chunks, stamps) == existing + Delimited(chunks, stamps)
    decreases |chunks|
  {
    if chunks != [] {
      var m, c, rest := Marker(stamps[0]), chunks[0], Delimited(chunks[1..], stamps[1..]);
      var next := existing + m + c;
      assert Merge(existing, stamps[0], c) == next;
      assert Accumulate(existing, chunks, stamps) == Accumulate(next, chunks[1..], stamps[1..]);
      AccumulateOntoNonEmpty(next, chunks[1..], stamps[1..]);
      assert Delimited(chunks, stamps) == m + c + rest;
      assert next + rest == existing + (m + c + rest);
    }
  }

  /** From an empty transcript, as long as the first chunk is not empty,
      the result is c1 + marker(t2) + c2 + ... + marker(tn) + cn: the first
      chunk carries no marker and every later one does. */
  lemma {:induction false} AccumulateFromEmpty(chunks: seq<string>, stamps: seq<string>)
    requires |stamps| == |chunks|
    requires chunks != [] && chunks[0] != ""
    ensures Accumulate("", chunks, stamps) == chunks[0] + Delimited(chunks[1..], stamps[1..])
  {
    AccumulateOntoNonEmpty(chunks[0], chunks[1..], stamps[1..]);
  }

  /** Accumulation never alters text already in the transcript. */
  lemma {:induction false} AccumulateExtends(existing: string, chunks: seq<string>, stamps: seq<string>)
    requires |stamps| == |chunks|
    ensures existing <= Accumulate(existing, chunks, stamps)
    decreases |chunks|
  {
    if chunks != [] {
      AccumulateExtends(Merge(existing, stamps[0], chunks[0]), chunks[1..], stamps[1..]);
    }
  }
}
