/**
 * `generateEmbedding` and `simpleHash`: each character of the first 8000 adds
 * `(code % 100) / 100` to bucket `(code + index) % 1536`, and the vector is scaled to unit
 * length unless it is all zero. `Math.sqrt` is a parameter.
 */
module Embeddings {
  import opened Text

  const Dimensions: nat := 1536
  const MaxChars: nat := 8000
  const ModelName := "simple-hash-v1"

  datatype EmbeddingResult = EmbeddingResult(vector: seq<real>, model: string)

  /** `(code % 100) / 100` for one UTF-16 unit. */
  function Weight(c: char): (w: real)
    ensures 0.0 <= w < 1.0
  {
    (c as int % 100) as real / 100.0
  }

  /** `(code + idx) % 1536`. */
  function Bucket(c: char, idx: nat): (b: nat)
    ensures b < Dimensions
  {
    (c as int + idx) % Dimensions
  }

  /** Bucket `b` after the first `n` characters of `s`. */
  function BucketSum(s: string, n: nat, b: nat): (v: real)
    requires n <= |s|
    ensures v >= 0.0
  {
    if n == 0 then 0.0
    else BucketSum(s, n - 1, b) + (if Bucket(s[n - 1], n - 1) == b then Weight(s[n - 1]) else 0.0)
  }

  /** The bucket vector before scaling. */
  function Buckets(s: string): (v: seq<real>)
    ensures |v| == Dimensions
    ensures forall b :: 0 <= b < Dimensions ==> v[b] == BucketSum(s, |s|, b)
  {
    seq(Dimensions, b requires 0 <= b < Dimensions => BucketSum(s, |s|, b))
  }

  /** `vector.reduce((sum, val) => sum + val * val, 0)` over the first `k` entries. */
  function SumSquares(v: seq<real>, k: nat): (r: real)
    requires k <= |v|
    ensures r >= 0.0
  {
    if k == 0 then 0.0 else SumSquares(v, k - 1) + v[k - 1] * v[k - 1]
  }

  /** `vector.map(v => v / magnitude)`. */
  function Scaled(v: seq<real>, m: real): (r: seq<real>)
    requires m > 0.0
    ensures |r| == |v|
    ensures forall b :: 0 <= b < |v| ==> r[b] == v[b] / m
  {
    seq(|v|, b requires 0 <= b < |v| => v[b] / m)
  }

  /** The specification of `SimpleHash`. */
  function HashVector(s: string, sqrt: real -> real): (r: seq<real>)
    ensures |r| == Dimensions
  {
    var v := Buckets(s);
    var m := sqrt(SumSquares(v, |v|));
    if m > 0.0 then Scaled(v, m) else v
  }

  /** The per-character loop that fills `vector` in place. */
  method FillBuckets(s: string) returns (vector: array<real>)
    ensures fresh(vector) && vector.Length == Dimensions
    ensures vector[..] == Buckets(s)
  {
    vector := new real[Dimensions](_ => 0.0);
    var i := 0;
    while i < |s|
      invariant i <= |s|
      invariant forall b :: 0 <= b < Dimensions ==> vector[b] == BucketSum(s, i, b)
    {
      var code := s[i] as int;
      var pos := (code + i) % Dimensions;
      vector[pos] := vector[pos] + (code % 100) as real / 100.0;
      i := i + 1;
    }
  }

  /** `vector.reduce(...)`. */
  method Magnitude2(vector: array<real>) returns (sum: real)
    ensures sum == SumSquares(vector[..], vector.Length)
  {
    sum := 0.0;
    for k := 0 to vector.Length
      invariant sum == SumSquares(vector[..], k)
    {
      sum := sum + vector[k] * vector[k];
    }
  }

  /** `simpleHash(text)`. */
  method SimpleHash(s: string, sqrt: real -> real) returns (r: seq<real>)
    ensures r == HashVector(s, sqrt)
  {
    var vector := FillBuckets(s);
    var sum := Magnitude2(vector);
    var magnitude := sqrt(sum);
    if magnitude > 0.0 {
      r := Scaled(vector[..], magnitude);
    } else {
      r := vector[..];
    }
  }

  /** The specification of `GenerateEmbedding`. */
  function EmbeddingOf(text: string, sqrt: real -> real): EmbeddingResult {
    EmbeddingResult(HashVector(Prefix(text, MaxChars), sqrt), ModelName)
  }

  /** `generateEmbedding(text)`. */
  method GenerateEmbedding(text: string, sqrt: real -> real) returns (r: EmbeddingResult)
    ensures r == EmbeddingOf(text, sqrt)
    ensures |r.vector| == Dimensions && r.model == ModelName
  {
    var cleanText := Prefix(text, MaxChars);
    var vector := SimpleHash(cleanText, sqrt);
    r := EmbeddingResult(vector, ModelName);
  }

  /** Only the first 8000 characters influence the embedding. */
  lemma OnlyPrefixMatters(a: string, b: string, sqrt: real -> real)
    requires |a| >= MaxChars && |b| >= MaxChars && a[..MaxChars] == b[..MaxChars]
    ensures EmbeddingOf(a, sqrt) == EmbeddingOf(b, sqrt)
  {
  }

  /** A bucket's value depends only on the characters read so far. */
  lemma {:induction false} BucketSumPrefix(s: string, t: string, n: nat, b: nat)
    requires n <= |s| && n <= |t| && s[..n] == t[..n]
    ensures BucketSum(s, n, b) == BucketSum(t, n, b)
  {
    if n > 0 {
      assert s[n - 1] == s[..n][n - 1] == t[n - 1];
      assert s[..n - 1] == s[..n][..n - 1];
      BucketSumPrefix(s, t, n - 1, b);
    }
  }

  /** The sum of all the weights of the first `n` characters. */
  function Mass(s: string, n: nat): (m: real)
    requires n <= |s|
  {
    if n == 0 then 0.0 else Mass(s, n - 1) + Weight(s[n - 1])
  }

  /** The sum over the first `k` buckets. */
  function SumBuckets(s: string, n: nat, k: nat): real
    requires n <= |s|
  {
    if k == 0 then 0.0 else SumBuckets(s, n, k - 1) + BucketSum(s, n, k - 1)
  }

  /** A value placed in one bucket `p` contributes to the sum over the first `k` buckets exactly when `p < k`. */
  function Indicator(p: nat, w: real, k: nat): real {
    if k == 0 then 0.0 else Indicator(p, w, k - 1) + (if p == k - 1 then w else 0.0)
  }

  lemma {:induction false} IndicatorSum(p: nat, w: real, k: nat)
    ensures Indicator(p, w, k) == if p < k then w else 0.0
  {
    if k > 0 {
      IndicatorSum(p, w, k - 1);
    }
  }

  lemma {:induction false} SumBucketsStep(s: string, n: nat, k: nat)
    requires 0 < n <= |s|
    ensures SumBuckets(s, n, k) == SumBuckets(s, n - 1, k) + Indicator(Bucket(s[n - 1], n - 1), Weight(s[n - 1]), k)
  {
    if k > 0 {
      SumBucketsStep(s, n, k - 1);
    }
  }

  /** Each character adds its weight to exactly one bucket: the buckets hold the whole mass. */
  lemma {:induction false} BucketsHoldMass(s: string, n: nat)
    requires n <= |s|
    ensures SumBuckets(s, n, Dimensions) == Mass(s, n)
  {
    if n == 0 {
      SumBucketsZero(s, Dimensions);
    } else {
      BucketsHoldMass(s, n - 1);
      SumBucketsStep(s, n, Dimensions);
      IndicatorSum(Bucket(s[n - 1], n - 1), Weight(s[n - 1]), Dimensions);
    }
  }

  lemma {:induction false} SumBucketsZero(s: string, k: nat)
    ensures SumBuckets(s, 0, k) == 0.0
  {
    if k > 0 {
      SumBucketsZero(s, k - 1);
    }
  }

  lemma SquareOfQuotient(x: real, m: real)
    requires m > 0.0
    ensures (x / m) * (x / m) * (m * m) == x * x
  {
    var y := x / m;
    assert y * m == x;
    calc {
      y * y * (m * m);
      (y * m) * (y * m);
      x * x;
    }
  }

  lemma {:induction false} SumSquaresScaled(v: seq<real>, m: real, k: nat)
    requires m > 0.0 && k <= |v|
    ensures SumSquares(Scaled(v, m), k) * (m * m) == SumSquares(v, k)
  {
    if k > 0 {
      SumSquaresScaled(v, m, k - 1);
      var w := Scaled(v, m);
      assert w[k - 1] == v[k - 1] / m;
      assert SumSquares(w, k) == SumSquares(w, k - 1) + w[k - 1] * w[k - 1];
      assert SumSquares(v, k) == SumSquares(v, k - 1) + v[k - 1] * v[k - 1];
      ScaledStep(SumSquares(w, k), SumSquares(v, k), SumSquares(w, k - 1), SumSquares(v, k - 1), v[k - 1], m);
    }
  }

  /** One more squared entry keeps the scaled sum in proportion. */
  lemma ScaledStep(s: real, s': real, a: real, a': real, x: real, m: real)
    requires m > 0.0 && a * (m * m) == a'
    requires s == a + (x / m) * (x / m) && s' == a' + x * x
    ensures s * (m * m) == s'
  {
    SquareOfQuotient(x, m);
    var y := x / m;
    calc {
      s * (m * m);
      (a + y * y) * (m * m);
      a * (m * m) + (y * y) * (m * m);
    }
  }

  /** A vector with some non-zero bucket comes out with unit length. */
  lemma UnitLength(s: string, sqrt: real -> real)
    requires var sq := SumSquares(Buckets(s), Dimensions); sqrt(sq) > 0.0 && sqrt(sq) * sqrt(sq) == sq
    ensures SumSquares(HashVector(s, sqrt), Dimensions) == 1.0
  {
    var v := Buckets(s);
    ScaledIsUnit(v, sqrt(SumSquares(v, |v|)));
  }

  /** Dividing by the square root of the sum of squares gives unit length. */
  lemma ScaledIsUnit(v: seq<real>, m: real)
    requires m > 0.0 && m * m == SumSquares(v, |v|)
    ensures SumSquares(Scaled(v, m), |v|) == 1.0
  {
    var u := SumSquares(Scaled(v, m), |v|);
    var total := SumSquares(v, |v|);
    SumSquaresScaled(v, m, |v|);
    calc {
      total;
    ==
      m * m;
    >
      0.0;
    }
    calc {
      u * total;
    ==
      u * (m * m);
    ==
      total;
    }
    CancelFactor(u, total);
  }

  lemma PositiveProduct(a: real, b: real)
    requires a > 0.0 && b > 0.0
    ensures a * b > 0.0
  {
  }

  lemma CancelFactor(u: real, d: real)
    requires d > 0.0 && u * d == d
    ensures u == 1.0
  {
    if u > 1.0 {
      PositiveProduct(u - 1.0, d);
    } else if u < 1.0 {
      PositiveProduct(1.0 - u, d);
    }
  }

  /** A text without weight (such as the empty text) gives the zero vector, unscaled. */
  lemma {:induction false} WeightlessIsZero(s: string, sqrt: real -> real)
    requires sqrt(0.0) == 0.0
    requires forall i :: 0 <= i < |s| ==> Weight(s[i]) == 0.0
    ensures forall b :: 0 <= b < Dimensions ==> HashVector(s, sqrt)[b] == 0.0
  {
    forall b: nat, n: nat | b < Dimensions && n <= |s|
      ensures BucketSum(s, n, b) == 0.0
    {
      WeightlessBucket(s, n, b);
    }
    var v := Buckets(s);
    ZeroSumSquares(v, Dimensions);
  }

  lemma {:induction false} WeightlessBucket(s: string, n: nat, b: nat)
    requires n <= |s|
    requires forall i :: 0 <= i < |s| ==> Weight(s[i]) == 0.0
    ensures BucketSum(s, n, b) == 0.0
  {
    if n > 0 {
      WeightlessBucket(s, n - 1, b);
    }
  }

  lemma {:induction false} ZeroSumSquares(v: seq<real>, k: nat)
    requires k <= |v| && forall b :: 0 <= b < |v| ==> v[b] == 0.0
    ensures SumSquares(v, k) == 0.0
  {
    if k > 0 {
      ZeroSumSquares(v, k - 1);
    }
  }
}
