/** The transcript built by the speech `onresult` callback of the new-note card:
    a left fold over the recognition results that concatenates the transcript of
    the first alternative of each result, starting from the empty string. */
module Transcription {

  /** One recognition result: its alternatives' transcripts, best first. The
      recognizer is asked for one alternative and always delivers at least one. */
  type Alternatives = r: seq<string> | |r| > 0 witness [""]

  /** The `reduce` of the callback, with its accumulator made explicit. */
  function FoldFrom(acc: string, results: seq<Alternatives>): (t: string)
    ensures acc <= t
    ensures |t| == |acc| + TotalLength(results)
    decreases results
  {
    if results == [] then acc
    else FoldFrom(acc + results[0][0], results[1..])
  }

  /** The text the callback passes to `setContent`. */
  function Transcript(results: seq<Alternatives>): (t: string)
    ensures |t| == TotalLength(results)
  {
    FoldFrom("", results)
  }

  /** Reference definition: the first alternatives, in order ... */
  function Firsts(results: seq<Alternatives>): (fs: seq<string>)
    ensures |fs| == |results|
    ensures forall i :: 0 <= i < |results| ==> fs[i] == results[i][0]
  {
    if results == [] then [] else [results[0][0]] + Firsts(results[1..])
  }

  /** ... joined together, right to left. */
  function Concat(parts: seq<string>): string
  {
    if parts == [] then "" else parts[0] + Concat(parts[1..])
  }

  /** Sum of the lengths of the first alternatives. */
  function TotalLength(results: seq<Alternatives>): nat
  {
    if results == [] then 0 else |results[0][0]| + TotalLength(results[1..])
  }

  lemma {:induction false} ConcatAppend(a: seq<string>, b: seq<string>)
    ensures Concat(a + b) == Concat(a) + Concat(b)
  {
    if a == [] {
      assert a + b == b;
    } else {
      assert (a + b)[1..] == a[1..] + b;
      ConcatAppend(a[1..], b);
    }
  }

  lemma {:induction false} FoldFromIsConcat(acc: string, results: seq<Alternatives>)
    ensures FoldFrom(acc, results) == acc + Concat(Firsts(results))
    decreases results
  {
    if results != [] {
      FoldFromIsConcat(acc + results[0][0], results[1..]);
    }
  }

  /** The fold computes the in-order concatenation of the first alternatives. */
  lemma TranscriptIsConcat(results: seq<Alternatives>)
    ensures Transcript(results) == Concat(Firsts(results))
  {
    FoldFromIsConcat("", results);
  }

  /** An empty result list gives the empty transcript. */
  lemma TranscriptEmpty()
    ensures Transcript([]) == ""
  {
  }

  /** One more result extends the transcript by that result's first alternative. */
  lemma TranscriptSnoc(results: seq<Alternatives>, r: Alternatives)
    ensures Transcript(results + [r]) == Transcript(results) + r[0]
  {
    TranscriptIsConcat(results + [r]);
    TranscriptIsConcat(results);
    assert Firsts(results + [r]) == Firsts(results) + [r[0]];
    ConcatAppend(Firsts(results), [r[0]]);
    assert Concat([r[0]]) == r[0] + Concat([]);
  }

  /** Transcripts of consecutive batches of results join up. */
  lemma TranscriptAppend(xs: seq<Alternatives>, ys: seq<Alternatives>)
    ensures Transcript(xs + ys) == Transcript(xs) + Transcript(ys)
  {
    TranscriptIsConcat(xs + ys);
    TranscriptIsConcat(xs);
    TranscriptIsConcat(ys);
    assert Firsts(xs + ys) == Firsts(xs) + Firsts(ys);
    ConcatAppend(Firsts(xs), Firsts(ys));
  }
}
