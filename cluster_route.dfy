/** The suggested-clusters endpoint: a cosine k-means over the stored
    embeddings of a user's resources (`kMeans`, `averageEmbedding`), the
    per-cluster tag tally, and the shaping of the cluster records (`GET`,
    `getClusterIcon`, `getClusterColor`).

    Vectors are sequences of reals. The cosine distance is a parameter that
    yields an IEEE-like value (a real, either infinity, or NaN), so that the
    strict comparison against the initial `Infinity` behaves as in the code. */
module CosineClusters {
  import opened Common

  type Vector = seq<real>

  /** A distance as JavaScript sees it: a finite number, an infinity or NaN. */
  datatype Num = Finite(v: real) | PosInf | NegInf | NaN

  /** JavaScript's `<` on numbers: false whenever NaN is involved. */
  predicate Less(a: Num, b: Num)
  {
    match (a, b)
    case (NaN, _) => false
    case (_, NaN) => false
    case (Finite(x), Finite(y)) => x < y
    case (NegInf, NegInf) => false
    case (NegInf, _) => true
    case (Finite(_), PosInf) => true
    case (_, _) => false
  }

  /** All vectors have dimension d. */
  predicate Uniform(vs: seq<Vector>, d: nat)
  {
    forall i :: 0 <= i < |vs| ==> |vs[i]| == d
  }

  // ---------------------------------------------------------------------------
  // averageEmbedding

  /** The sum of coordinate j over the vectors. */
  function ColumnSum(vs: seq<Vector>, j: nat): real
    requires forall i :: 0 <= i < |vs| ==> j < |vs[i]|
  {
    if vs == [] then 0.0 else ColumnSum(vs[..|vs| - 1], j) + vs[|vs| - 1][j]
  }

  /** `averageEmbedding`: coordinate-wise mean, with the first vector's dimension. */
  function Average(vs: seq<Vector>): Vector
    requires |vs| > 0 && Uniform(vs, |vs[0]|)
  {
    seq(|vs[0]|, j requires 0 <= j < |vs[0]| => ColumnSum(vs, j) / (|vs| as real))
  }

  /** The mean has the common dimension, and its coordinate j is the column sum over the count. */
  lemma AverageShape(vs: seq<Vector>, d: nat)
    requires |vs| > 0 && Uniform(vs, d)
    ensures |Average(vs)| == d
    ensures forall j :: 0 <= j < d ==> Average(vs)[j] * (|vs| as real) == ColumnSum(vs, j)
  {
  }

  lemma {:induction false} ColumnSumOfCopies(v: Vector, n: nat, j: nat)
    requires j < |v|
    ensures ColumnSum(seq(n, _ => v), j) == (n as real) * v[j]
  {
    if n > 0 {
      assert seq(n, _ => v)[..n - 1] == seq(n - 1, _ => v);
      ColumnSumOfCopies(v, n - 1, j);
    }
  }

  /** The mean of n copies of one vector is that vector (for example the mean of a single point). */
  lemma AverageOfCopies(v: Vector, n: nat)
    requires n > 0
    ensures Average(seq(n, _ => v)) == v
  {
    var vs := seq(n, _ => v);
    forall j | 0 <= j < |v| ensures Average(vs)[j] == v[j] {
      ColumnSumOfCopies(v, n, j);
    }
  }

  /** The worked example: the mean of [0,0] and [2,2] is [1,1]. */
  lemma AverageExample()
    ensures Average([[0.0, 0.0], [2.0, 2.0]]) == [1.0, 1.0]
  {
    var vs := [[0.0, 0.0], [2.0, 2.0]];
    assert vs[..1][..0] == seq<Vector>(0, _ => []);
    assert ColumnSum(vs, 0) == 2.0;
    assert ColumnSum(vs, 1) == 2.0;
  }

  // ---------------------------------------------------------------------------
  // One assignment pass

  /** The scan of centroids 0..n-1 for one point, as the inner loop does it:
      start from (Infinity, 0) and move on a strictly smaller distance. */
  function BestUpTo(p: Vector, cs: seq<Vector>, dist: (Vector, Vector) -> Num, n: nat): (r: (Num, nat))
    requires n <= |cs|
    ensures r.1 < n || r.1 == 0
    ensures (r.0 == PosInf && r.1 == 0) || (r.1 < n && r.0 == dist(p, cs[r.1]))
  {
    if n == 0 then (PosInf, 0)
    else
      var prev := BestUpTo(p, cs, dist, n - 1);
      var d := dist(p, cs[n - 1]);
      if Less(d, prev.0) then (d, n - 1) else prev
  }

  /** The centroid a point is assigned to. */
  function Nearest(p: Vector, cs: seq<Vector>, dist: (Vector, Vector) -> Num): nat
  {
    BestUpTo(p, cs, dist, |cs|).1
  }

  predicate AllFinite(p: Vector, cs: seq<Vector>, dist: (Vector, Vector) -> Num)
  {
    forall j :: 0 <= j < |cs| ==> dist(p, cs[j]).Finite?
  }

  lemma {:induction false} BestUpToIsLowestArgMin(p: Vector, cs: seq<Vector>, dist: (Vector, Vector) -> Num, n: nat)
    requires 0 < n <= |cs| && AllFinite(p, cs, dist)
    ensures var (m, c) := BestUpTo(p, cs, dist, n);
      && c < n && m == dist(p, cs[c])
      && (forall j :: 0 <= j < n ==> m.v <= dist(p, cs[j]).v)
      && (forall j :: 0 <= j < c ==> m.v < dist(p, cs[j]).v)
  {
    if n > 1 {
      BestUpToIsLowestArgMin(p, cs, dist, n - 1);
    }
  }

  /** With finite distances a point goes to a centroid at minimal distance,
      and among several such centroids to the one with the lowest index. */
  lemma NearestIsLowestArgMin(p: Vector, cs: seq<Vector>, dist: (Vector, Vector) -> Num)
    requires |cs| > 0 && AllFinite(p, cs, dist)
    ensures Nearest(p, cs, dist) < |cs|
    ensures forall j :: 0 <= j < |cs| ==> dist(p, cs[Nearest(p, cs, dist)]).v <= dist(p, cs[j]).v
    ensures forall j :: 0 <= j < Nearest(p, cs, dist) ==> dist(p, cs[Nearest(p, cs, dist)]).v < dist(p, cs[j]).v
  {
    BestUpToIsLowestArgMin(p, cs, dist, |cs|);
  }

  lemma {:induction false} BestUpToStaysAtZero(p: Vector, cs: seq<Vector>, dist: (Vector, Vector) -> Num, n: nat)
    requires n <= |cs|
    requires forall j :: 0 <= j < n ==> !Less(dist(p, cs[j]), PosInf)
    ensures BestUpTo(p, cs, dist, n) == (PosInf, 0)
  {
    if n > 0 {
      BestUpToStaysAtZero(p, cs, dist, n - 1);
    }
  }

  /** A point none of whose distances is below Infinity (all NaN or infinite) stays in bucket 0. */
  lemma NearestDefaultsToZero(p: Vector, cs: seq<Vector>, dist: (Vector, Vector) -> Num)
    requires forall j :: 0 <= j < |cs| ==> !Less(dist(p, cs[j]), PosInf)
    ensures Nearest(p, cs, dist) == 0
  {
    BestUpToStaysAtZero(p, cs, dist, |cs|);
  }

  function EmptyBuckets(k: nat): (r: seq<seq<nat>>)
    ensures |r| == k && forall b :: 0 <= b < k ==> r[b] == []
  {
    seq(k, _ => [])
  }

  /** The buckets after points 0..n-1 have been pushed, in index order, into
      `slots` fresh buckets (there must be a bucket 0 and one per centroid). */
  function AssignUpTo(points: seq<Vector>, cs: seq<Vector>, dist: (Vector, Vector) -> Num, slots: nat, n: nat): (r: seq<seq<nat>>)
    requires |cs| <= slots && n <= |points| && (n > 0 ==> slots > 0)
    ensures |r| == slots
  {
    if n == 0 then EmptyBuckets(slots)
    else
      var b := AssignUpTo(points, cs, dist, slots, n - 1);
      var c := Nearest(points[n - 1], cs, dist);
      b[c := b[c] + [n - 1]]
  }

  /** One assignment pass: k fresh buckets, each point pushed to its nearest centroid. */
  function Assign(points: seq<Vector>, cs: seq<Vector>, dist: (Vector, Vector) -> Num): seq<seq<nat>>
    requires |cs| > 0
  {
    AssignUpTo(points, cs, dist, |cs|, |points|)
  }

  predicate StrictlyIncreasing(xs: seq<nat>)
  {
    forall a, b :: 0 <= a < b < |xs| ==> xs[a] < xs[b]
  }

  /** The number of indices held by all buckets together. */
  function TotalSize(buckets: seq<seq<nat>>): nat
  {
    if buckets == [] then 0 else TotalSize(buckets[..|buckets| - 1]) + |buckets[|buckets| - 1]|
  }

  lemma {:induction false} TotalSizePush(buckets: seq<seq<nat>>, c: nat, x: nat)
    requires c < |buckets|
    ensures TotalSize(buckets[c := buckets[c] + [x]]) == TotalSize(buckets) + 1
  {
    var r := buckets[c := buckets[c] + [x]];
    var m := |buckets| - 1;
    if c < m {
      assert r[..m] == buckets[..m][c := buckets[c] + [x]];
      TotalSizePush(buckets[..m], c, x);
    } else {
      assert r[..m] == buckets[..m];
    }
  }

  lemma {:induction false} TotalSizeEmpty(k: nat)
    ensures TotalSize(EmptyBuckets(k)) == 0
  {
    if k > 0 {
      assert EmptyBuckets(k)[..k - 1] == EmptyBuckets(k - 1);
      TotalSizeEmpty(k - 1);
    }
  }

  /** The buckets partition 0..n-1: index i sits in bucket b exactly when b is
      its nearest centroid, each bucket lists its indices in ascending order,
      and the buckets hold n indices in all. */
  ghost predicate PartitionUpTo(points: seq<Vector>, cs: seq<Vector>, dist: (Vector, Vector) -> Num, n: nat, buckets: seq<seq<nat>>)
    requires n <= |points|
  {
    && (forall b :: 0 <= b < |buckets| ==> StrictlyIncreasing(buckets[b]))
    && (forall b, x :: 0 <= b < |buckets| && x in buckets[b] ==> x < n)
    && (forall b, i :: 0 <= b < |buckets| && 0 <= i < n ==> (i in buckets[b] <==> Nearest(points[i], cs, dist) == b))
    && TotalSize(buckets) == n
  }

  /** No point among the first n has b as its nearest centroid. */
  ghost predicate Unused(points: seq<Vector>, cs: seq<Vector>, dist: (Vector, Vector) -> Num, n: nat, b: nat)
    requires n <= |points|
  {
    forall i :: 0 <= i < n ==> Nearest(points[i], cs, dist) != b
  }

  /** The bucket a point goes to is below the number of centroids, or 0 when there are none. */
  lemma NearestInRange(p: Vector, cs: seq<Vector>, dist: (Vector, Vector) -> Num)
    ensures Nearest(p, cs, dist) < |cs| || Nearest(p, cs, dist) == 0
  {
  }

  /** Pushing index n-1 onto its nearest centroid's bucket extends a
      partition of 0..n-2 to one of 0..n-1. */
  lemma PushExtendsPartition(points: seq<Vector>, cs: seq<Vector>, dist: (Vector, Vector) -> Num, n: nat,
                             prev: seq<seq<nat>>, c: nat)
    requires 0 < n <= |points| && c < |prev| && c == Nearest(points[n - 1], cs, dist)
    requires PartitionUpTo(points, cs, dist, n - 1, prev)
    ensures PartitionUpTo(points, cs, dist, n, prev[c := prev[c] + [n - 1]])
  {
    var r := prev[c := prev[c] + [n - 1]];
    TotalSizePush(prev, c, n - 1);
    forall b, x | 0 <= b < |r| && x in r[b] ensures x < n {
      if b != c || x != n - 1 {
        assert x in prev[b];
      }
    }
    forall b | 0 <= b < |r| ensures StrictlyIncreasing(r[b]) {
      if b == c {
        assert forall a :: 0 <= a < |prev[c]| ==> prev[c][a] in prev[c];
      }
    }
    forall b, i | 0 <= b < |r| && 0 <= i < n ensures i in r[b] <==> Nearest(points[i], cs, dist) == b {
      if i < n - 1 {
        assert i in r[b] <==> i in prev[b];
      }
    }
  }

  lemma {:induction false} AssignUpToPartitions(points: seq<Vector>, cs: seq<Vector>, dist: (Vector, Vector) -> Num, slots: nat, n: nat)
    requires |cs| <= slots && n <= |points| && (n > 0 ==> slots > 0)
    ensures PartitionUpTo(points, cs, dist, n, AssignUpTo(points, cs, dist, slots, n))
    ensures forall b :: |cs| <= b < slots && b > 0 ==> AssignUpTo(points, cs, dist, slots, n)[b] == []
  {
    if n == 0 {
      TotalSizeEmpty(slots);
    } else {
      AssignUpToPartitions(points, cs, dist, slots, n - 1);
      var prev := AssignUpTo(points, cs, dist, slots, n - 1);
      var c := Nearest(points[n - 1], cs, dist);
      NearestInRange(points[n - 1], cs, dist);
      PushExtendsPartition(points, cs, dist, n, prev, c);
      var r := AssignUpTo(points, cs, dist, slots, n);
      assert r == prev[c := prev[c] + [n - 1]];
      forall b | |cs| <= b < slots && b > 0 ensures r[b] == [] {
        assert b != c;
      }
    }
  }

  /** A bucket that is no point's nearest centroid stays empty. */
  lemma {:induction false} AssignUpToSkipsUnused(points: seq<Vector>, cs: seq<Vector>, dist: (Vector, Vector) -> Num, slots: nat, n: nat, b: nat)
    requires |cs| <= slots && n <= |points| && (n > 0 ==> slots > 0) && b < slots
    requires Unused(points, cs, dist, n, b)
    ensures AssignUpTo(points, cs, dist, slots, n)[b] == []
  {
    if n > 0 {
      assert Unused(points, cs, dist, n - 1, b);
      AssignUpToSkipsUnused(points, cs, dist, slots, n - 1, b);
    }
  }

  /** Every pass yields exactly k buckets that partition the point indices (the
      nearest-centroid rule decides each index's bucket) in ascending order. */
  lemma AssignPartitions(points: seq<Vector>, cs: seq<Vector>, dist: (Vector, Vector) -> Num)
    requires |cs| > 0
    ensures |Assign(points, cs, dist)| == |cs|
    ensures PartitionUpTo(points, cs, dist, |points|, Assign(points, cs, dist))
  {
    AssignUpToPartitions(points, cs, dist, |cs|, |points|);
  }

  // ---------------------------------------------------------------------------
  // Centroid update and the iteration

  /** `bucket.map(idx => xs[idx])`: the elements a bucket of indices names, in bucket order. */
  function Gather<T>(xs: seq<T>, bucket: seq<nat>): (r: seq<T>)
    requires forall t :: 0 <= t < |bucket| ==> bucket[t] < |xs|
    ensures |r| == |bucket|
  {
    seq(|bucket|, t requires 0 <= t < |bucket| => xs[bucket[t]])
  }

  /** Entry t of a gathered bucket is the element its t-th index names, so
      `clusterResources` lists the cluster's rows in bucket order. */
  lemma GatherElements<T>(xs: seq<T>, bucket: seq<nat>)
    requires forall t :: 0 <= t < |bucket| ==> bucket[t] < |xs|
    ensures forall t :: 0 <= t < |bucket| ==> Gather(xs, bucket)[t] == xs[bucket[t]]
    ensures forall y :: y in Gather(xs, bucket) <==> exists t :: 0 <= t < |bucket| && y == xs[bucket[t]]
  {
    forall y | y in Gather(xs, bucket)
      ensures exists t :: 0 <= t < |bucket| && y == xs[bucket[t]]
    {
      var t :| 0 <= t < |bucket| && Gather(xs, bucket)[t] == y;
    }
  }

  predicate InRange(buckets: seq<seq<nat>>, n: nat)
  {
    forall b, t :: 0 <= b < |buckets| && 0 <= t < |buckets[b]| ==> buckets[b][t] < n
  }

  /** The centroid after the update step for bucket i: the mean of its members
      when it has any, else the old centroid. */
  function NewCentroid(points: seq<Vector>, d: nat, buckets: seq<seq<nat>>, cs: seq<Vector>, i: nat): Vector
    requires Uniform(points, d) && |buckets| == |cs| && i < |cs| && InRange(buckets, |points|)
  {
    if |buckets[i]| > 0 then
      var ms := Gather(points, buckets[i]);
      assert Uniform(ms, d);
      Average(ms)
    else cs[i]
  }

  function UpdateCentroids(points: seq<Vector>, d: nat, buckets: seq<seq<nat>>, cs: seq<Vector>): seq<Vector>
    requires Uniform(points, d) && |buckets| == |cs| && InRange(buckets, |points|)
  {
    seq(|cs|, i requires 0 <= i < |cs| => NewCentroid(points, d, buckets, cs, i))
  }

  /** There are always k centroids of the points' dimension; an empty bucket keeps its centroid. */
  lemma UpdateKeepsShape(points: seq<Vector>, d: nat, buckets: seq<seq<nat>>, cs: seq<Vector>)
    requires Uniform(points, d) && Uniform(cs, d) && |buckets| == |cs| && InRange(buckets, |points|)
    ensures |UpdateCentroids(points, d, buckets, cs)| == |cs|
    ensures Uniform(UpdateCentroids(points, d, buckets, cs), d)
    ensures forall i :: 0 <= i < |cs| && buckets[i] == [] ==> UpdateCentroids(points, d, buckets, cs)[i] == cs[i]
  {
    forall i | 0 <= i < |cs| ensures |UpdateCentroids(points, d, buckets, cs)[i]| == d {
      if |buckets[i]| > 0 {
        AverageShape(Gather(points, buckets[i]), d);
      }
    }
  }

  lemma AssignInRange(points: seq<Vector>, cs: seq<Vector>, dist: (Vector, Vector) -> Num)
    requires |cs| > 0
    ensures InRange(Assign(points, cs, dist), |points|)
  {
    AssignPartitions(points, cs, dist);
    var r := Assign(points, cs, dist);
    forall b, t | 0 <= b < |r| && 0 <= t < |r[b]| ensures r[b][t] < |points| {
      assert r[b][t] in r[b];
    }
  }

  /** What the loop leaves: the buckets returned and the number of assignment passes run. */
  datatype Outcome = Outcome(clusters: seq<seq<nat>>, passes: nat, stable: bool)

  /** The remaining `fuel` iterations of the loop, from centroids `cs`, the
      previous snapshot `prev` and the current buckets `current`. */
  function Iterate(points: seq<Vector>, d: nat, dist: (Vector, Vector) -> Num, cs: seq<Vector>,
                   prev: seq<seq<nat>>, current: seq<seq<nat>>, fuel: nat): Outcome
    requires |cs| > 0 && Uniform(points, d) && Uniform(cs, d)
    decreases fuel
  {
    if fuel == 0 then Outcome(current, 0, false)
    else
      var b := Assign(points, cs, dist);
      if b == prev then Outcome(b, 1, true)
      else
        AssignInRange(points, cs, dist);
        UpdateKeepsShape(points, d, b, cs);
        var rest := Iterate(points, d, dist, UpdateCentroids(points, d, b, cs), b, b, fuel - 1);
        Outcome(rest.clusters, rest.passes + 1, rest.stable)
  }

  /** `kMeans(embeddings, k, maxIterations)`: seeded with the first k vectors,
      starting from k empty buckets and an empty previous snapshot. */
  function Run(points: seq<Vector>, d: nat, k: nat, maxIterations: nat, dist: (Vector, Vector) -> Num): Outcome
    requires 1 <= k <= |points| && Uniform(points, d)
  {
    Iterate(points, d, dist, points[..k], [], EmptyBuckets(k), maxIterations)
  }

  /** One pass of the iteration, unfolded: a pass that reproduces the
      previous buckets stops; any other moves the centroids and goes on. */
  lemma IterateUnfold(points: seq<Vector>, d: nat, dist: (Vector, Vector) -> Num, cs: seq<Vector>,
                      prev: seq<seq<nat>>, current: seq<seq<nat>>, fuel: nat)
    requires |cs| > 0 && Uniform(points, d) && Uniform(cs, d) && fuel > 0
    ensures var b := Assign(points, cs, dist);
      && InRange(b, |points|) && |b| == |cs|
      && Uniform(UpdateCentroids(points, d, b, cs), d) && |UpdateCentroids(points, d, b, cs)| == |cs|
      && Iterate(points, d, dist, cs, prev, current, fuel)
         == if b == prev then Outcome(b, 1, true)
            else var rest := Iterate(points, d, dist, UpdateCentroids(points, d, b, cs), b, b, fuel - 1);
              Outcome(rest.clusters, rest.passes + 1, rest.stable)
  {
    var b := Assign(points, cs, dist);
    AssignInRange(points, cs, dist);
    UpdateKeepsShape(points, d, b, cs);
  }

  lemma {:induction false} IterateBounds(points: seq<Vector>, d: nat, dist: (Vector, Vector) -> Num, cs: seq<Vector>,
                                         prev: seq<seq<nat>>, current: seq<seq<nat>>, fuel: nat)
    requires |cs| > 0 && Uniform(points, d) && Uniform(cs, d)
    requires |current| == |cs|
    ensures var o := Iterate(points, d, dist, cs, prev, current, fuel);
      && |o.clusters| == |cs|
      && o.passes <= fuel
      && (!o.stable ==> o.passes == fuel)
      && (fuel > 0 ==> exists cs' :: |cs'| == |cs| && Uniform(cs', d) && o.clusters == Assign(points, cs', dist))
    decreases fuel
  {
    if fuel > 0 {
      IterateUnfold(points, d, dist, cs, prev, current, fuel);
      var b := Assign(points, cs, dist);
      AssignPartitions(points, cs, dist);
      if b != prev {
        var cs' := UpdateCentroids(points, d, b, cs);
        IterateBounds(points, d, dist, cs', b, b, fuel - 1);
        var rest := Iterate(points, d, dist, cs', b, b, fuel - 1);
        if fuel == 1 {
          assert rest.clusters == b;
        }
      }
    }
  }

  /** The run returns exactly k buckets after at most maxIterations passes; it
      stops early only on a pass that reproduces the previous one, which the
      first pass never does (its previous snapshot is empty). When at least one
      pass runs, the buckets are those of a real pass, hence a partition of the
      indices with each index at its nearest centroid. */
  lemma RunProperties(points: seq<Vector>, d: nat, k: nat, maxIterations: nat, dist: (Vector, Vector) -> Num)
    requires 1 <= k <= |points| && Uniform(points, d)
    ensures var o := Run(points, d, k, maxIterations, dist);
      && |o.clusters| == k
      && o.passes <= maxIterations
      && (!o.stable ==> o.passes == maxIterations)
      && (o.stable ==> o.passes >= 2)
      && (maxIterations == 0 ==> o.clusters == EmptyBuckets(k))
      && (maxIterations > 0 ==> exists cs :: |cs| == k && Uniform(cs, d) && o.clusters == Assign(points, cs, dist))
  {
    var cs := points[..k];
    IterateBounds(points, d, dist, cs, [], EmptyBuckets(k), maxIterations);
    if maxIterations > 0 {
      var b := Assign(points, cs, dist);
      AssignPartitions(points, cs, dist);
      assert b != [];
      AssignInRange(points, cs, dist);
      UpdateKeepsShape(points, d, b, cs);
      var cs' := UpdateCentroids(points, d, b, cs);
      if maxIterations > 1 {
        var next := Iterate(points, d, dist, cs', b, b, maxIterations - 1);
        IterateBounds(points, d, dist, cs', b, b, maxIterations - 1);
        assert next.stable ==> next.passes >= 1 by {
          if next.passes == 0 {
            assert Iterate(points, d, dist, cs', b, b, maxIterations - 1).passes == 0;
          }
        }
      }
    }
  }

  /** The inner loop over the centroids for one point. */
  method NearestCentroid(p: Vector, centroids: array<Vector>, dist: (Vector, Vector) -> Num) returns (cluster: nat)
    ensures cluster == Nearest(p, centroids[..], dist)
    ensures centroids.Length > 0 ==> cluster < centroids.Length
  {
    var minDist := PosInf;
    cluster := 0;
    var j := 0;
    while j < centroids.Length
      invariant 0 <= j <= centroids.Length
      invariant (minDist, cluster) == BestUpTo(p, centroids[..], dist, j)
    {
      var d := dist(p, centroids[j]);
      if Less(d, minDist) {
        minDist := d;
        cluster := j;
      }
      j := j + 1;
    }
  }

  /** One assignment pass: fresh buckets, every point pushed to its nearest centroid. */
  method AssignPass(embeddings: seq<Vector>, centroids: array<Vector>, dist: (Vector, Vector) -> Num)
    returns (clusters: seq<seq<nat>>)
    requires centroids.Length > 0
    ensures clusters == Assign(embeddings, centroids[..], dist)
  {
    clusters := EmptyBuckets(centroids.Length);
    for i := 0 to |embeddings|
      invariant clusters == AssignUpTo(embeddings, centroids[..], dist, centroids.Length, i)
    {
      var c := NearestCentroid(embeddings[i], centroids, dist);
      clusters := clusters[c := clusters[c] + [i]];
    }
  }

  /** The update step: each non-empty bucket moves its centroid to the mean of its members. */
  method MoveCentroids(embeddings: seq<Vector>, d: nat, clusters: seq<seq<nat>>, centroids: array<Vector>)
    requires Uniform(embeddings, d) && |clusters| == centroids.Length && InRange(clusters, |embeddings|)
    modifies centroids
    ensures centroids[..] == UpdateCentroids(embeddings, d, clusters, old(centroids[..]))
  {
    ghost var cs := centroids[..];
    for c := 0 to centroids.Length
      invariant forall t :: 0 <= t < c ==> centroids[t] == NewCentroid(embeddings, d, clusters, cs, t)
      invariant forall t :: c <= t < centroids.Length ==> centroids[t] == cs[t]
    {
      if |clusters[c]| > 0 {
        centroids[c] := Average(Gather(embeddings, clusters[c]));
      }
    }
  }

  /** The imperative `kMeans`: the iteration loop over an array of centroids updated in place. */
  method KMeans(embeddings: seq<Vector>, d: nat, k: nat, maxIterations: nat, dist: (Vector, Vector) -> Num)
    returns (clusters: seq<seq<nat>>, ghost passes: nat)
    requires 1 <= k <= |embeddings| && Uniform(embeddings, d)
    ensures clusters == Run(embeddings, d, k, maxIterations, dist).clusters
    ensures passes == Run(embeddings, d, k, maxIterations, dist).passes
  {
    var centroids := new Vector[k](i requires 0 <= i < k => embeddings[i]);
    assert centroids[..] == embeddings[..k];
    clusters := EmptyBuckets(k);
    var oldClusters: seq<seq<nat>> := [];
    var iteration := 0;
    passes := 0;
    ghost var target := Run(embeddings, d, k, maxIterations, dist);
    assert Iterate(embeddings, d, dist, centroids[..], oldClusters, clusters, maxIterations) == target;
    while iteration < maxIterations
      invariant 0 <= iteration <= maxIterations && passes == iteration
      invariant centroids.Length == k && Uniform(centroids[..], d) && |clusters| == k
      invariant var o := Iterate(embeddings, d, dist, centroids[..], oldClusters, clusters, maxIterations - iteration);
        o.clusters == target.clusters && o.passes + passes == target.passes
    {
      ghost var cs := centroids[..];
      ghost var here := Iterate(embeddings, d, dist, cs, oldClusters, clusters, maxIterations - iteration);
      IterateUnfold(embeddings, d, dist, cs, oldClusters, clusters, maxIterations - iteration);
      clusters := AssignPass(embeddings, centroids, dist);
      passes := passes + 1;
      if clusters == oldClusters {
        break;
      }
      oldClusters := clusters;
      MoveCentroids(embeddings, d, clusters, centroids);
      ghost var next := Iterate(embeddings, d, dist, centroids[..], clusters, clusters, maxIterations - iteration - 1);
      assert next.clusters == here.clusters && next.passes + 1 == here.passes;
      iteration := iteration + 1;
    }
  }

  // ---------------------------------------------------------------------------
  // Tag frequencies

  /** How often x occurs in xs. */
  function Occurrences(xs: seq<string>, x: string): nat
  {
    multiset(xs)[x]
  }

  predicate KeysDistinct(m: seq<(string, nat)>)
  {
    forall a, b :: 0 <= a < b < |m| ==> m[a].0 != m[b].0
  }

  /** The `tagCounts` map after counting xs: its keys in insertion (first
      occurrence) order, each with the number of times it occurs. */
  function Tally(xs: seq<string>): seq<(string, nat)>
  {
    var keys := Distinct(xs);
    seq(|keys|, i requires 0 <= i < |keys| => (keys[i], Occurrences(xs, keys[i])))
  }

  /** The tally holds each tag of the cluster once, with its number of occurrences. */
  lemma TallyCounts(xs: seq<string>)
    ensures KeysDistinct(Tally(xs))
    ensures forall a :: 0 <= a < |Tally(xs)| ==> Tally(xs)[a].1 == Occurrences(xs, Tally(xs)[a].0) && Tally(xs)[a].0 in xs
    ensures forall x :: x in xs ==> exists a :: 0 <= a < |Tally(xs)| && Tally(xs)[a].0 == x
  {
    DistinctProperties(xs);
    var keys := Distinct(xs);
    forall x | x in xs ensures exists a :: 0 <= a < |Tally(xs)| && Tally(xs)[a].0 == x {
      var a :| 0 <= a < |keys| && keys[a] == x;
      assert Tally(xs)[a].0 == x;
    }
  }

  /** The counting loop: a Map from tag to count, bumped once per tag occurrence. */
  method TallyTags(tags: seq<string>) returns (keys: seq<string>, counts: map<string, nat>)
    ensures keys == Distinct(tags)
    ensures forall t :: t in counts <==> t in tags
    ensures forall t :: t in counts ==> counts[t] == Occurrences(tags, t)
  {
    keys := [];
    counts := map[];
    for i := 0 to |tags|
      invariant keys == Distinct(tags[..i])
      invariant forall t :: t in counts <==> t in tags[..i]
      invariant forall t :: t in counts ==> counts[t] == Occurrences(tags[..i], t)
    {
      var tag := tags[i];
      assert tags[..i + 1] == tags[..i] + [tag];
      DistinctAppend(tags[..i], tag);
      if tag in counts {
        counts := counts[tag := counts[tag] + 1];
      } else {
        counts := counts[tag := 1];
        keys := keys + [tag];
      }
    }
    assert tags[..|tags|] == tags;
  }

  /** The sort key of a tally entry: its count. */
  function Count(e: (string, nat)): int
  {
    e.1
  }

  /** `.sort((a, b) => b[1] - a[1])`: a stable sort by non-increasing count. */
  function SortByCount(m: seq<(string, nat)>): seq<(string, nat)>
  {
    SortDesc(m, Count)
  }

  predicate NonIncreasing(m: seq<(string, nat)>)
  {
    NonIncreasingBy(m, Count)
  }

  lemma {:induction false} InsertKeepsKeysDistinct(e: (string, nat), sorted: seq<(string, nat)>)
    requires KeysDistinct(sorted) && forall a :: 0 <= a < |sorted| ==> sorted[a].0 != e.0
    ensures KeysDistinct(InsertDesc(e, sorted, Count))
  {
    if sorted != [] && Count(sorted[0]) >= Count(e) {
      InsertKeepsKeysDistinct(e, sorted[1..]);
      var r := InsertDesc(e, sorted[1..], Count);
      forall b | 0 <= b < |r| ensures sorted[0].0 != r[b].0 {
        assert r[b] in multiset(r);
        if r[b] != e {
          assert r[b] in multiset(sorted[1..]);
          var c :| 0 <= c < |sorted[1..]| && sorted[1..][c] == r[b];
          assert sorted[c + 1] == r[b];
        }
      }
    }
  }

  lemma {:induction false} SortByCountKeysDistinct(m: seq<(string, nat)>)
    requires KeysDistinct(m)
    ensures KeysDistinct(SortByCount(m))
  {
    if m != [] {
      var init := m[..|m| - 1];
      var e := m[|m| - 1];
      SortByCountKeysDistinct(init);
      var s := SortByCount(init);
      forall a | 0 <= a < |s| ensures s[a].0 != e.0 {
        assert s[a] in multiset(init);
        var c :| 0 <= c < |init| && init[c] == s[a];
        assert m[c] == s[a];
      }
      InsertKeepsKeysDistinct(e, s);
    }
  }

  /** All tag names of the resources of one cluster, in visiting order. */
  function ClusterTags(rows: seq<ResourceRow>): seq<string>
  {
    if rows == [] then []
    else
      var own := match rows[0].tags case Some(ts) => ts case None => [];
      own + ClusterTags(rows[1..])
  }

  function Names(m: seq<(string, nat)>): (r: seq<string>)
    ensures |r| == |m| && forall a :: 0 <= a < |m| ==> r[a] == m[a].0
  {
    seq(|m|, a requires 0 <= a < |m| => m[a].0)
  }

  /** `commonTags`: the three most frequent tags, most frequent first. */
  function CommonTags(rows: seq<ResourceRow>): seq<string>
  {
    Names(Take(SortByCount(Tally(ClusterTags(rows))), 3))
  }

  /** Every entry of the sorted tally is a tag of xs together with its number of occurrences. */
  lemma SortedTallyEntries(xs: seq<string>)
    ensures var s := SortByCount(Tally(xs));
      && KeysDistinct(s) && NonIncreasing(s)
      && (forall a :: 0 <= a < |s| ==> s[a].1 == Occurrences(xs, s[a].0) && s[a].0 in xs)
      && (forall x :: x in xs ==> exists a :: 0 <= a < |s| && s[a].0 == x)
  {
    var m := Tally(xs);
    var s := SortByCount(m);
    TallyCounts(xs);
    SortDescSorted(m, Count);
    SortByCountKeysDistinct(m);
    forall a | 0 <= a < |s| ensures s[a].1 == Occurrences(xs, s[a].0) && s[a].0 in xs {
      assert s[a] in multiset(m);
      var i :| 0 <= i < |m| && m[i] == s[a];
    }
    forall x | x in xs ensures exists a :: 0 <= a < |s| && s[a].0 == x {
      var i :| 0 <= i < |m| && m[i].0 == x;
      assert m[i] in multiset(s);
      var a :| 0 <= a < |s| && s[a] == m[i];
    }
  }

  /** At most three names, each a tag of the cluster, none repeated, in
      non-increasing order of frequency; a tag left out is no more frequent
      than the last one kept. */
  lemma CommonTagsProperties(rows: seq<ResourceRow>)
    ensures var r := CommonTags(rows); var xs := ClusterTags(rows);
      && |r| <= 3
      && (forall a :: 0 <= a < |r| ==> r[a] in xs)
      && NoDuplicates(r)
      && (forall a, b :: 0 <= a < b < |r| ==> Occurrences(xs, r[a]) >= Occurrences(xs, r[b]))
      && (forall x :: x in xs && x !in r ==> |r| == 3 && Occurrences(xs, x) <= Occurrences(xs, r[2]))
  {
    var xs := ClusterTags(rows);
    var s := SortByCount(Tally(xs));
    SortedTallyEntries(xs);
    var r := CommonTags(rows);
    assert forall b :: 0 <= b < |r| ==> r[b] == s[b].0;
    forall x | x in xs && x !in r ensures |r| == 3 && Occurrences(xs, x) <= Occurrences(xs, r[2]) {
      var a :| 0 <= a < |s| && s[a].0 == x;
      assert a >= |r|;
      assert |r| == 3;
    }
  }

  /** The tag-counting step of one cluster: the counting loop, then the sort and the cut to three. */
  method CommonTagsOf(rows: seq<ResourceRow>) returns (common: seq<string>)
    ensures common == CommonTags(rows)
  {
    var tags := ClusterTags(rows);
    var keys, counts := TallyTags(tags);
    DistinctProperties(tags);
    var entries := seq(|keys|, i requires 0 <= i < |keys| => (keys[i], counts[keys[i]]));
    assert entries == Tally(tags);
    common := Names(Take(SortByCount(entries), 3));
  }

  // ---------------------------------------------------------------------------
  // GET

  /** A resource row as selected: id, title, embedding (which may be null) and
      its tag names (`resource_tags`, which may be null). */
  datatype ResourceRow = ResourceRow(id: string, title: string, embedding: Option<Vector>, tags: Option<seq<string>>)

  /** The title and description the language model returned for one cluster. */
  datatype Label = Label(title: string, description: string)

  datatype ClusterRecord = ClusterRecord(id: nat, title: string, description: string, count: nat,
                                         resourceIds: seq<string>, icon: string, color: string)

  const Icons: seq<string> := ["BookOpen", "Code", "Lightbulb", "GraduationCap"]
  const Colors: seq<string> := ["#3b82f6", "#10b981", "#f59e0b", "#8b5cf6"]

  /** `getClusterIcon`: the icons taken in turn, one of the four. */
  function ClusterIcon(index: nat): (r: string)
    ensures r in Icons && r == Icons[index % |Icons|]
  {
    Icons[index % 4]
  }

  /** `getClusterColor`: the colours taken in turn, one of the four. */
  function ClusterColor(index: nat): (r: string)
    ensures r in Colors && r == Colors[index % |Colors|]
  {
    Colors[index % 4]
  }

  /** Icons and colours repeat every four clusters, and the first four clusters all differ in both. */
  lemma IconsAndColorsCycle(i: nat, j: nat)
    ensures ClusterIcon(i + 4) == ClusterIcon(i) && ClusterColor(i + 4) == ClusterColor(i)
    ensures i < j < 4 ==> ClusterIcon(i) != ClusterIcon(j) && ClusterColor(i) != ClusterColor(j)
  {
  }

  /** `clusterResources.map(r => r.title)`. */
  function Titles(rows: seq<ResourceRow>): (r: seq<string>)
    ensures |r| == |rows| && forall i :: 0 <= i < |rows| ==> r[i] == rows[i].title
  {
    seq(|rows|, i requires 0 <= i < |rows| => rows[i].title)
  }

  /** The labelling call is given the member titles and the common tags. */
  type Labeller = (seq<string>, seq<string>) -> Option<Label>

  /** The record for cluster `index`, or None when its labelling call fails. */
  function ShapeCluster(index: nat, members: seq<ResourceRow>, labeller: Labeller): (r: Option<ClusterRecord>)
    ensures r.Some? ==> && r.value.id == index && r.value.count == |members|
                        && |r.value.resourceIds| == |members|
                        && (forall t :: 0 <= t < |members| ==> r.value.resourceIds[t] == members[t].id)
                        && r.value.icon == ClusterIcon(index) && r.value.color == ClusterColor(index)
    ensures r.Some? ==> var answer := labeller(Titles(members), CommonTags(members));
                        answer.Some? && r.value.title == answer.value.title && r.value.description == answer.value.description
    ensures r.None? <==> labeller(Titles(members), CommonTags(members)).None?
  {
    match labeller(Titles(members), CommonTags(members))
    case None => None
    case Some(l) =>
      Some(ClusterRecord(index, l.title, l.description, |members|,
                         seq(|members|, t requires 0 <= t < |members| => members[t].id),
                         ClusterIcon(index), ClusterColor(index)))
  }

  /** The per-cluster work of the handler, all of which must succeed (`Promise.all`). */
  method LabelClusters(rows: seq<ResourceRow>, buckets: seq<seq<nat>>, labeller: Labeller)
    returns (records: Option<seq<ClusterRecord>>)
    requires InRange(buckets, |rows|)
    ensures records.Some? <==> forall i :: 0 <= i < |buckets| ==> ShapeCluster(i, Gather(rows, buckets[i]), labeller).Some?
    ensures records.Some? ==> |records.value| == |buckets|
    ensures records.Some? ==>
              forall i :: 0 <= i < |buckets| ==> Some(records.value[i]) == ShapeCluster(i, Gather(rows, buckets[i]), labeller)
  {
    var done: seq<ClusterRecord> := [];
    for i := 0 to |buckets|
      invariant |done| == i
      invariant forall t :: 0 <= t < i ==> Some(done[t]) == ShapeCluster(t, Gather(rows, buckets[t]), labeller)
    {
      var members := Gather(rows, buckets[i]);
      var common := CommonTagsOf(members);
      var answer := labeller(Titles(members), common);
      if answer.None? {
        return None;
      }
      var record := ClusterRecord(i, answer.value.title, answer.value.description, |members|,
                                  seq(|members|, t requires 0 <= t < |members| => members[t].id),
                                  ClusterIcon(i), ClusterColor(i));
      done := done + [record];
    }
    return Some(done);
  }

  predicate HasEmbeddings(rows: seq<ResourceRow>, d: nat)
  {
    forall i :: 0 <= i < |rows| ==> rows[i].embedding.Some? && |rows[i].embedding.value| == d
  }

  /** `resources.map(r => r.embedding)` once every embedding is present. */
  function Embeddings(rows: seq<ResourceRow>, d: nat): (r: seq<Vector>)
    requires HasEmbeddings(rows, d)
    ensures |r| == |rows| && Uniform(r, d)
    ensures forall i :: 0 <= i < |rows| ==> Some(r[i]) == rows[i].embedding
  {
    seq(|rows|, i requires 0 <= i < |rows| => rows[i].embedding.value)
  }

  /** The embeddings present all have dimension d. */
  predicate PresentHaveDimension(rows: seq<ResourceRow>, d: nat)
  {
    forall i :: 0 <= i < |rows| && rows[i].embedding.Some? ==> |rows[i].embedding.value| == d
  }

  function ClusterCount(n: nat): nat
  {
    if n < 4 then n else 4
  }

  /** `GET`: 401 without a session, 500 when the query fails, no clusters for
      no resources; otherwise k = min(4, N) clusters from 100 iterations at
      most, each labelled. A null embedding makes the distance computation
      throw, and so does a failed labelling call: both end as a 500. */
  method Get(hasSession: bool, fetched: Result<seq<ResourceRow>>, d: nat, labeller: Labeller, dist: (Vector, Vector) -> Num)
    returns (resp: Reply<seq<ClusterRecord>>)
    requires fetched.Ok? ==> PresentHaveDimension(fetched.value, d)
    ensures !hasSession ==> resp == Failure(401, "Unauthorized")
    ensures hasSession && fetched.Err? ==> resp == Failure(500, "Failed to fetch resources")
    ensures hasSession && fetched.Ok? && fetched.value == [] ==> resp == Reply([])
    ensures hasSession && fetched.Ok? && fetched.value != [] && !HasEmbeddings(fetched.value, d) ==>
              resp == Failure(500, "Internal server error")
    ensures resp.Failure? ==> resp.status in {401, 500}
    ensures resp.Reply? ==> hasSession && fetched.Ok?
    ensures hasSession && fetched.Ok? && fetched.value != [] && HasEmbeddings(fetched.value, d) ==>
              var rows := fetched.value;
              var buckets := Run(Embeddings(rows, d), d, ClusterCount(|rows|), 100, dist).clusters;
              && |buckets| == ClusterCount(|rows|)
              && InRange(buckets, |rows|)
              && (resp.Reply? <==> forall i :: 0 <= i < |buckets| ==> ShapeCluster(i, Gather(rows, buckets[i]), labeller).Some?)
              && (resp.Failure? ==> resp == Failure(500, "Internal server error"))
              && (resp.Reply? ==> |resp.body| == |buckets|
                                  && forall i :: 0 <= i < |buckets| ==> Some(resp.body[i]) == ShapeCluster(i, Gather(rows, buckets[i]), labeller))
  {
    if !hasSession {
      return Failure(401, "Unauthorized");
    }
    if fetched.Err? {
      return Failure(500, "Failed to fetch resources");
    }
    var rows := fetched.value;
    if |rows| == 0 {
      return Reply([]);
    }
    if !HasEmbeddings(rows, d) {
      return Failure(500, "Internal server error");
    }
    var embeddings := Embeddings(rows, d);
    var k := ClusterCount(|rows|);
    var buckets, passes := KMeans(embeddings, d, k, 100, dist);
    RunProperties(embeddings, d, k, 100, dist);
    var cs :| |cs| == k && Uniform(cs, d) && buckets == Assign(embeddings, cs, dist);
    AssignInRange(embeddings, cs, dist);
    var records := LabelClusters(rows, buckets, labeller);
    if records.None? {
      return Failure(500, "Internal server error");
    }
    resp := Reply(records.value);
  }
}
