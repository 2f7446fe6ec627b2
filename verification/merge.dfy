/**
  The value side of `Net.forward` for one image pair: a single shared encoder
  (standing in for `sigmoid(fc1(convs(x).view(...)))`, whose floating-point
  content is not modelled) embeds both images, the embeddings are merged by
  their element-wise absolute difference, and `fcOut` projects the merge to
  one score.
*/
module Merge {
  import opened Outcome

  function Abs(x: real): (r: real)
    ensures r >= 0.0 && (r == x || r == -x)
  {
    if x < 0.0 then -x else x
  }

  /** `torch.abs(x1 - x2)` on two embeddings of equal length. */
  function AbsDiff(a: seq<real>, b: seq<real>): (r: seq<real>)
    requires |a| == |b|
    ensures |r| == |a|
    ensures forall i :: 0 <= i < |r| ==> r[i] >= 0.0 && (r[i] == a[i] - b[i] || r[i] == b[i] - a[i])
  {
    seq(|a|, i requires 0 <= i < |a| => Abs(a[i] - b[i]))
  }

  /** Swapping the two embeddings leaves the merge unchanged. */
  lemma AbsDiffSymmetric(a: seq<real>, b: seq<real>)
    requires |a| == |b|
    ensures AbsDiff(a, b) == AbsDiff(b, a)
  {
    var l, r := AbsDiff(a, b), AbsDiff(b, a);
    forall i | 0 <= i < |a|
      ensures l[i] == r[i]
    {
    }
  }

  function Zeros(n: nat): (r: seq<real>)
    ensures |r| == n && forall i :: 0 <= i < n ==> r[i] == 0.0
  {
    seq(n, _ => 0.0)
  }

  /** The merge vanishes exactly when the two embeddings are equal. */
  lemma AbsDiffZeroIff(a: seq<real>, b: seq<real>)
    requires |a| == |b|
    ensures AbsDiff(a, b) == Zeros(|a|) <==> a == b
  {
    if AbsDiff(a, b) == Zeros(|a|) {
      forall i | 0 <= i < |a|
        ensures a[i] == b[i]
      {
        assert AbsDiff(a, b)[i] == 0.0;
      }
    }
  }

  /** The sum of w[i] * v[i]. */
  function Dot(w: seq<real>, v: seq<real>): real
    requires |w| == |v|
  {
    if |w| == 0 then 0.0 else w[0] * v[0] + Dot(w[1..], v[1..])
  }

  lemma {:induction false} DotZeros(w: seq<real>)
    ensures Dot(w, Zeros(|w|)) == 0.0
  {
    if |w| > 0 {
      assert Zeros(|w|)[1..] == Zeros(|w| - 1);
      DotZeros(w[1..]);
    }
  }

  /** `fcOut = nn.Linear(4096, 1)`: one weight per merged entry and a bias. */
  datatype Head = Head(weights: seq<real>, bias: real)

  /** The score of one image pair, or None when the embeddings do not have the
      width the head was built for. */
  function Similarity<I>(embed: I -> seq<real>, head: Head, x1: I, x2: I): (r: Option<real>)
    ensures r.Some? <==> |embed(x1)| == |head.weights| && |embed(x2)| == |head.weights|
  {
    var e1, e2 := embed(x1), embed(x2);
    if |e1| == |head.weights| && |e2| == |head.weights| then Some(Dot(head.weights, AbsDiff(e1, e2)) + head.bias)
    else None
  }

  /** Because one encoder serves both images and the merge is symmetric, the
      score does not depend on the order of the pair. */
  lemma SimilaritySymmetric<I>(embed: I -> seq<real>, head: Head, x1: I, x2: I)
    ensures Similarity(embed, head, x1, x2) == Similarity(embed, head, x2, x1)
  {
    if |embed(x1)| == |head.weights| && |embed(x2)| == |head.weights| {
      AbsDiffSymmetric(embed(x1), embed(x2));
    }
  }

  /** Two images with the same embedding (in particular one image twice) score
      exactly the bias of `fcOut`. */
  lemma SimilarityOfEqualEmbeddings<I>(embed: I -> seq<real>, head: Head, x1: I, x2: I)
    requires |embed(x1)| == |head.weights| && embed(x1) == embed(x2)
    ensures Similarity(embed, head, x1, x2) == Some(head.bias)
  {
    AbsDiffZeroIff(embed(x1), embed(x2));
    DotZeros(head.weights);
  }
}
