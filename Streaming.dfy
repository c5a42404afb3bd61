/**
 * The reply stream: chunks of text folded, in arrival order, into the
 * growing response that the placeholder repaints after every chunk.
 */
module Streaming {

  /** The cursor drawn after the partial response while chunks arrive (apps.py:80). */
  const Cursor: char := '\U{258C}'

  /**
   * What the provider's stream yields: its chunks in order and whether it
   * raises once they are exhausted instead of ending normally. A stream that
   * fails after k chunks is one with k chunks and `raises` set.
   */
  datatype Stream = Stream(chunks: seq<string>, raises: bool)

  /** The in-order concatenation of the chunks. */
  function Concat(chunks: seq<string>): (r: string)
  {
    if chunks == [] then "" else Concat(chunks[..|chunks| - 1]) + chunks[|chunks| - 1]
  }

  lemma {:induction false} ConcatAppend(a: seq<string>, b: seq<string>)
    ensures Concat(a + b) == Concat(a) + Concat(b)
  {
    if b == [] {
      assert a + b == a;
    } else {
      var b' := b[..|b| - 1];
      assert (a + b)[..|a + b| - 1] == a + b';
      assert (a + b)[|a + b| - 1] == b[|b| - 1];
      ConcatAppend(a, b');
    }
  }

  /**
   * The text after the first i chunks is a prefix of the text after the
   * first j chunks whenever i <= j: the response only grows.
   */
  lemma {:induction false} ConcatPrefix(chunks: seq<string>, i: nat, j: nat)
    requires i <= j <= |chunks|
    ensures Concat(chunks[..i]) <= Concat(chunks[..j])
  {
    assert chunks[..j] == chunks[..i] + chunks[i..j];
    ConcatAppend(chunks[..i], chunks[i..j]);
  }

  /** The text the placeholder holds after a repaint, without its cursor. */
  function WithoutCursor(shown: string): (r: string)
    requires |shown| > 0 && shown[|shown| - 1] == Cursor
  {
    shown[..|shown| - 1]
  }

  /**
   * The placeholder texts while the chunks arrive: after the i-th chunk, the
   * concatenation of the first i chunks followed by the cursor.
   */
  function Repaints(chunks: seq<string>): (r: seq<string>)
    ensures |r| == |chunks|
  {
    seq(|chunks|, i requires 0 <= i < |chunks| => Concat(chunks[..i + 1]) + [Cursor])
  }

  lemma ConcatPrefixes(chunks: seq<string>, i: nat, j: nat)
    requires i <= j < |chunks|
    ensures Concat(chunks[..i + 1]) <= Concat(chunks[..j + 1]) <= Concat(chunks)
  {
    assert chunks[..|chunks|] == chunks;
    ConcatPrefix(chunks, i + 1, j + 1);
    ConcatPrefix(chunks, j + 1, |chunks|);
  }

  lemma StripCursor(s: string)
    ensures WithoutCursor(s + [Cursor]) == s
  {
  }

  /** The i-th repaint, without its cursor, is the text of the first i + 1 chunks. */
  lemma RepaintAt(chunks: seq<string>, i: nat)
    requires i < |chunks|
    ensures WithoutCursor(Repaints(chunks)[i]) == Concat(chunks[..i + 1])
  {
    StripCursor(Concat(chunks[..i + 1]));
  }

  /**
   * Every repaint, without its cursor, is a prefix of every later repaint
   * and of the final response: the displayed text never shrinks.
   */
  lemma RepaintsGrow(chunks: seq<string>, i: nat, j: nat)
    requires i <= j < |chunks|
    ensures WithoutCursor(Repaints(chunks)[i]) <= WithoutCursor(Repaints(chunks)[j]) <= Concat(chunks)
  {
    ConcatPrefixes(chunks, i, j);
    RepaintAt(chunks, i);
    RepaintAt(chunks, j);
  }

  /**
   * The accumulation loop: appends each chunk to the response and repaints
   * the placeholder with the response followed by the cursor.
   */
  method Accumulate(chunks: seq<string>) returns (response: string, shown: seq<string>)
    ensures response == Concat(chunks)
    ensures shown == Repaints(chunks)
  {
    response := "";
    shown := [];
    var k := 0;
    while k < |chunks|
      invariant 0 <= k <= |chunks|
      invariant response == Concat(chunks[..k])
      invariant |shown| == k
      invariant forall i :: 0 <= i < k ==> shown[i] == Concat(chunks[..i + 1]) + [Cursor]
    {
      assert chunks[..k + 1][..k] == chunks[..k];
      response := response + chunks[k];
      shown := shown + [response + [Cursor]];
      k := k + 1;
    }
    assert chunks[..k] == chunks;
  }

  /** How consuming a stream ended. */
  datatype Reply =
    /** The stream ended normally; the final repaint shows the response without cursor. */
    | Finished(response: string, shown: seq<string>)
    /** The stream raised; the placeholder keeps its last repaint. */
    | Raised(shown: seq<string>)

  /**
   * Consumes the stream: folds its chunks, and when it ends normally repaints
   * the placeholder once more with the final response.
   */
  method Consume(stream: Stream) returns (r: Reply)
    ensures r.Finished? <==> !stream.raises
    ensures r.Finished? ==>
              r.response == Concat(stream.chunks) &&
              r.shown == Repaints(stream.chunks) + [r.response]
    ensures r.Raised? ==> r.shown == Repaints(stream.chunks)
  {
    var response, shown := Accumulate(stream.chunks);
    if stream.raises {
      r := Raised(shown);
    } else {
      r := Finished(response, shown + [response]);
    }
  }
}
