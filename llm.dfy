/** The fragment filter in front of the text-generation backend
    (app/llm.py, `stream_llm_response`). The backend call itself is an
    oracle: what it produced for a prompt is given as a `Stream`. */
module Llm {
  import opened Text

  /** What the backend produced for one prompt: the text of each chunk, in the
      order produced, and whether the stream ended normally (`completes`) or
      raised a generation error after the last of those chunks. */
  datatype Stream = Stream(chunks: seq<string>, completes: bool)

  /** Reference definition: the chunks with every empty one removed, the rest
      kept in order. */
  function NonEmpty(chunks: seq<string>): seq<string>
  {
    if chunks == [] then []
    else (if chunks[0] == "" then [] else [chunks[0]]) + NonEmpty(chunks[1..])
  }

  /** The generator loop: every chunk whose text is empty is skipped, every
      other chunk is yielded as it comes. The fragments it yields are the
      chunks with the empty ones removed, none of them is empty, and together
      they spell the same text as the backend's chunks. */
  method StreamLlmResponse(response: seq<string>) returns (fragments: seq<string>)
    ensures fragments == NonEmpty(response)
    ensures forall i :: 0 <= i < |fragments| ==> fragments[i] != ""
    ensures Concat(fragments) == Concat(response)
  {
    fragments := [];
    for i := 0 to |response|
      invariant fragments == NonEmpty(response[..i])
    {
      assert response[..i + 1] == response[..i] + [response[i]];
      NonEmptyAppend(response[..i], [response[i]]);
      if response[i] == "" {
        continue;
      }
      fragments := fragments + [response[i]];
    }
    assert response[..|response|] == response;
    NonEmptyHasNoEmpty(response);
    NonEmptyConcat(response);
  }

  /** Filtering distributes over appending two runs of chunks. */
  lemma {:induction false} NonEmptyAppend(a: seq<string>, b: seq<string>)
    ensures NonEmpty(a + b) == NonEmpty(a) + NonEmpty(b)
  {
    if a == [] {
      assert a + b == b;
    } else {
      assert (a + b)[1..] == a[1..] + b;
      NonEmptyAppend(a[1..], b);
    }
  }

  /** No yielded fragment is the empty string. */
  lemma {:induction false} NonEmptyHasNoEmpty(chunks: seq<string>)
    ensures forall i :: 0 <= i < |NonEmpty(chunks)| ==> NonEmpty(chunks)[i] != ""
  {
    if chunks != [] {
      NonEmptyHasNoEmpty(chunks[1..]);
    }
  }

  /** Dropping empty chunks does not change the text they spell. */
  lemma {:induction false} NonEmptyConcat(chunks: seq<string>)
    ensures Concat(NonEmpty(chunks)) == Concat(chunks)
  {
    if chunks != [] {
      NonEmptyConcat(chunks[1..]);
      var head := if chunks[0] == "" then [] else [chunks[0]];
      ConcatAppend(head, NonEmpty(chunks[1..]));
      assert Concat(head) == chunks[0] by {
        if head != [] {
          assert head[1..] == [];
        }
      }
    }
  }

  /** The filter never lengthens the stream, and keeps its length exactly
      when no chunk is empty (in which case it returns the stream itself). */
  lemma {:induction false} NonEmptyLength(chunks: seq<string>)
    ensures |NonEmpty(chunks)| <= |chunks|
    ensures |NonEmpty(chunks)| == |chunks| <==> forall i :: 0 <= i < |chunks| ==> chunks[i] != ""
    ensures (forall i :: 0 <= i < |chunks| ==> chunks[i] != "") ==> NonEmpty(chunks) == chunks
  {
    if chunks != [] {
      NonEmptyLength(chunks[1..]);
      assert forall i :: 1 <= i < |chunks| ==> chunks[i] == chunks[1..][i - 1];
      if |NonEmpty(chunks)| == |chunks| {
        assert chunks[0] != "";
      }
    }
  }

  /** The positions of the non-empty chunks, in increasing order. */
  function Kept(chunks: seq<string>): seq<nat>
  {
    if chunks == [] then []
    else
      var n := |chunks| - 1;
      Kept(chunks[..n]) + (if chunks[n] == "" then [] else [n])
  }

  /** The kept positions are positions of the input, in strictly increasing
      order. */
  lemma {:induction false} KeptIncreasing(chunks: seq<string>)
    ensures forall j :: 0 <= j < |Kept(chunks)| ==> Kept(chunks)[j] < |chunks|
    ensures forall j, k :: 0 <= j < k < |Kept(chunks)| ==> Kept(chunks)[j] < Kept(chunks)[k]
  {
    if chunks != [] {
      var n := |chunks| - 1;
      KeptIncreasing(chunks[..n]);
    }
  }

  /** A position is kept exactly when its chunk is non-empty. */
  lemma {:induction false} KeptExactly(chunks: seq<string>)
    ensures forall i :: 0 <= i < |chunks| ==> (i in Kept(chunks) <==> chunks[i] != "")
  {
    if chunks != [] {
      var n := |chunks| - 1;
      var init := chunks[..n];
      KeptExactly(init);
      KeptIncreasing(init);
      assert forall x :: x in Kept(init) ==> x < n;
      assert forall i :: 0 <= i < n ==> chunks[i] == init[i];
    }
  }

  /** The filter's output is the input read at the kept positions. */
  lemma {:induction false} KeptReads(chunks: seq<string>)
    ensures |Kept(chunks)| == |NonEmpty(chunks)|
    ensures forall j :: 0 <= j < |Kept(chunks)| ==>
      Kept(chunks)[j] < |chunks| && NonEmpty(chunks)[j] == chunks[Kept(chunks)[j]]
  {
    if chunks != [] {
      var n := |chunks| - 1;
      var init, last := chunks[..n], chunks[n];
      assert chunks == init + [last];
      KeptReads(init);
      NonEmptyAppend(init, [last]);
      assert NonEmpty([last]) == if last == "" then [] else [last] by {
        assert [last][1..] == [];
      }
      assert forall i :: 0 <= i < n ==> chunks[i] == init[i];
    }
  }

  /** Independent characterisation of the filter: its output is the input read
      at the strictly increasing positions `Kept(chunks)`, which are exactly the
      positions of the non-empty chunks. So nothing is reordered, nothing
      non-empty is dropped and nothing empty is kept. */
  lemma NonEmptySelects(chunks: seq<string>)
    ensures |Kept(chunks)| == |NonEmpty(chunks)|
    ensures forall j :: 0 <= j < |Kept(chunks)| ==>
      Kept(chunks)[j] < |chunks| && NonEmpty(chunks)[j] == chunks[Kept(chunks)[j]]
    ensures forall j, k :: 0 <= j < k < |Kept(chunks)| ==> Kept(chunks)[j] < Kept(chunks)[k]
    ensures forall i :: 0 <= i < |chunks| ==> (i in Kept(chunks) <==> chunks[i] != "")
  {
    KeptReads(chunks);
    KeptIncreasing(chunks);
    KeptExactly(chunks);
  }
}
