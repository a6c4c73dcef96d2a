/** The Euclidean k-means of the library (`kmeans`, `euclideanDistance`,
    `calculateMean`). It runs a fixed number of passes, keeps one bucket per
    data point, and overwrites each seeded centroid with the mean of its
    bucket.

    The distance compared is the sum of squared coordinate differences: the
    square root taken by the code is monotone, so it selects the same
    centroid. The nearest-centroid scan and the bucket filling are the ones
    of the cosine variant, with this distance. */
module EuclideanKMeans {
  import opened Common
  import opened CosineClusters

  // ---------------------------------------------------------------------------
  // euclideanDistance

  /** The squared Euclidean distance, over the coordinates the two vectors share. */
  function SquaredDistance(p: Vector, q: Vector): real
  {
    if p == [] || q == [] then 0.0
    else Square(p[0] - q[0]) + SquaredDistance(p[1..], q[1..])
  }

  /** The distance as the comparison sees it: always a finite number. */
  function Metric(p: Vector, q: Vector): Num
  {
    Finite(SquaredDistance(p, q))
  }

  lemma {:induction false} SquaredDistanceNonNegative(p: Vector, q: Vector)
    ensures SquaredDistance(p, q) >= 0.0
  {
    if p != [] && q != [] {
      SquaredDistanceNonNegative(p[1..], q[1..]);
      SquareFacts(p[0] - q[0]);
    }
  }

  function Square(x: real): real
  {
    x * x
  }

  lemma SquareFacts(z: real)
    ensures Square(z) >= 0.0
    ensures Square(-z) == Square(z)
  {
  }

  lemma {:induction false} SquaredDistanceSelf(p: Vector)
    ensures SquaredDistance(p, p) == 0.0
  {
    if p != [] {
      SquaredDistanceSelf(p[1..]);
    }
  }

  lemma {:induction false} SquaredDistanceSymmetric(p: Vector, q: Vector)
    ensures SquaredDistance(p, q) == SquaredDistance(q, p)
  {
    if p != [] && q != [] {
      SquaredDistanceSymmetric(p[1..], q[1..]);
      SquareFacts(p[0] - q[0]);
    }
  }

  /** A point is at distance 0 from itself, and the distance is symmetric and never negative. */
  lemma SquaredDistanceProperties(p: Vector, q: Vector)
    ensures SquaredDistance(p, p) == 0.0
    ensures SquaredDistance(p, q) == SquaredDistance(q, p)
    ensures SquaredDistance(p, q) >= 0.0
  {
    SquaredDistanceSelf(p);
    SquaredDistanceSymmetric(p, q);
    SquaredDistanceNonNegative(p, q);
  }

  /** The example from the library's documentation: [1,0] and [0,1] are at squared distance 2. */
  lemma SquaredDistanceExample()
    ensures SquaredDistance([1.0, 0.0], [0.0, 1.0]) == 2.0
  {
    assert [1.0, 0.0][1..] == [0.0];
    assert [0.0, 1.0][1..] == [1.0];
    assert [0.0][1..] == [];
  }

  // ---------------------------------------------------------------------------
  // calculateMean

  lemma DivideSum(x: real, y: real, n: real)
    requires n > 0.0
    ensures x / n + y / n == (x + y) / n
  {
  }

  /** `calculateMean`: accumulates value / numPoints into a zero vector of the
      first point's dimension. The code throws on an empty list (it reads the
      first point's length); that is None here. */
  method CalculateMean(points: seq<Vector>, d: nat) returns (mean: Option<Vector>)
    requires Uniform(points, d)
    ensures mean.None? <==> points == []
    ensures mean.Some? ==> |mean.value| == |points[0]| && mean.value == Average(points)
  {
    if |points| == 0 {
      return None;
    }
    var n := |points| as real;
    var dims := |points[0]|;
    var acc := new real[dims](_ => 0.0);
    for t := 0 to |points|
      invariant acc.Length == dims
      invariant forall j :: 0 <= j < dims ==> acc[j] == ColumnSum(points[..t], j) / n
    {
      assert points[..t + 1][..t] == points[..t];
      for j := 0 to dims
        invariant forall c :: 0 <= c < j ==> acc[c] == ColumnSum(points[..t + 1], c) / n
        invariant forall c :: j <= c < dims ==> acc[c] == ColumnSum(points[..t], c) / n
      {
        DivideSum(ColumnSum(points[..t], j), points[t][j], n);
        acc[j] := acc[j] + points[t][j] / n;
      }
    }
    assert points[..|points|] == points;
    mean := Some(acc[..]);
  }

  // ---------------------------------------------------------------------------
  // kmeans

  /** The hexadecimal digits of `toString(16)`. */
  function HexDigit(n: nat): char
    requires n < 16
  {
    if n < 10 then (48 + n) as char else (87 + n) as char
  }

  function HexDigitValue(c: char): nat
  {
    if '0' <= c <= '9' then c as nat - 48
    else if 'a' <= c <= 'f' then c as nat - 87
    else 0
  }

  /** `n.toString(16)`: lower-case digits, no padding. */
  function Hex(n: nat): (r: string)
    ensures 1 <= |r|
  {
    if n < 16 then [HexDigit(n)] else Hex(n / 16) + [HexDigit(n % 16)]
  }

  /** Reading hexadecimal digits back, most significant first. */
  function HexValue(s: string): nat
  {
    if s == [] then 0 else HexValue(s[..|s| - 1]) * 16 + HexDigitValue(s[|s| - 1])
  }

  /** Reading the digits back gives the number. */
  lemma {:induction false} HexRoundTrip(n: nat)
    ensures HexValue(Hex(n)) == n
  {
    if n >= 16 {
      HexRoundTrip(n / 16);
      var s := Hex(n / 16) + [HexDigit(n % 16)];
      assert s[..|s| - 1] == Hex(n / 16);
    }
  }

  function Pow16(m: nat): nat
  {
    if m == 0 then 1 else 16 * Pow16(m - 1)
  }

  /** A number below 16^m has at most m digits, so a colour drawn below 0xFFFFFF
      has at most six, and shorter ones are not padded. */
  lemma {:induction false} HexLength(n: nat, m: nat)
    requires 1 <= m && n < Pow16(m)
    ensures |Hex(n)| <= m
  {
    if n >= 16 {
      assert Pow16(1) == 16;
      assert m >= 2;
      HexLength(n / 16, m - 1);
    }
  }

  /** A record as the code returns it; resource ids are the indices of the data. */
  datatype Cluster = Cluster(id: nat, title: string, description: string, count: nat,
                             resourceIds: seq<nat>, icon: string, color: string)

  /** What `kmeans` returns: the records, an array of k holes when no pass runs,
      or the TypeError thrown by `calculateMean` on an empty bucket. */
  datatype KMeansResult = Records(clusters: seq<Cluster>) | Unfilled(length: nat) | Thrown

  /** Record i of the result; `shade(i)` is the random colour number drawn for it. */
  function Record(i: nat, bucket: seq<nat>, shade: nat -> nat): (r: Cluster)
    ensures r.id == i && r.count == |bucket| && r.resourceIds == bucket && r.icon == "BookOpen"
    ensures r.title == "Cluster " + NatToString(i + 1)
  {
    Cluster(i, "Cluster " + NatToString(i + 1), "Cluster of " + NatToString(|bucket|) + " items",
            |bucket|, bucket, "BookOpen", "#" + Hex(shade(i)))
  }

  function ToRecords(buckets: seq<seq<nat>>, shade: nat -> nat): (r: seq<Cluster>)
    ensures |r| == |buckets| && forall i :: 0 <= i < |buckets| ==> r[i] == Record(i, buckets[i], shade)
  {
    seq(|buckets|, i requires 0 <= i < |buckets| => Record(i, buckets[i], shade))
  }

  /** The number of seeded centroids, `data.slice(0, k).length`. */
  function Seeds(k: nat, n: nat): nat
  {
    if k < n then k else n
  }

  /** One pass: a bucket per data point, each point pushed to its nearest centroid. */
  function Pass(data: seq<Vector>, cs: seq<Vector>): (r: seq<seq<nat>>)
    requires |cs| <= |data|
    ensures |r| == |data|
  {
    AssignUpTo(data, cs, Metric, |data|, |data|)
  }

  lemma PassInRange(data: seq<Vector>, cs: seq<Vector>)
    requires |cs| <= |data|
    ensures PartitionUpTo(data, cs, Metric, |data|, Pass(data, cs))
    ensures InRange(Pass(data, cs), |data|)
    ensures forall b :: |cs| <= b < |data| && b > 0 ==> Pass(data, cs)[b] == []
  {
    AssignUpToPartitions(data, cs, Metric, |data|, |data|);
    var r := Pass(data, cs);
    forall b, t | 0 <= b < |r| && 0 <= t < |r[b]| ensures r[b][t] < |data| {
      assert r[b][t] in r[b];
    }
  }

  /** The remaining `fuel` passes from centroids `cs`: None when an update
      meets an empty bucket among the seeded ones. */
  function Passes(data: seq<Vector>, d: nat, cs: seq<Vector>, clusters: seq<seq<nat>>, fuel: nat): Option<seq<seq<nat>>>
    requires Uniform(data, d) && Uniform(cs, d) && |cs| <= |data|
    decreases fuel
  {
    if fuel == 0 then Some(clusters)
    else
      var b := Pass(data, cs);
      if exists i :: 0 <= i < |cs| && b[i] == [] then None
      else
        PassInRange(data, cs);
        assert InRange(b[..|cs|], |data|);
        UpdateKeepsShape(data, d, b[..|cs|], cs);
        Passes(data, d, UpdateCentroids(data, d, b[..|cs|], cs), b, fuel - 1)
  }

  /** A pass whose seeded buckets are all non-empty moves the centroids and goes on. */
  lemma PassesStep(data: seq<Vector>, d: nat, cs: seq<Vector>, clusters: seq<seq<nat>>, fuel: nat)
    requires Uniform(data, d) && Uniform(cs, d) && |cs| <= |data| && fuel > 0
    requires forall i :: 0 <= i < |cs| ==> Pass(data, cs)[i] != []
    ensures InRange(Pass(data, cs)[..|cs|], |data|)
    ensures Uniform(UpdateCentroids(data, d, Pass(data, cs)[..|cs|], cs), d)
    ensures Passes(data, d, cs, clusters, fuel)
         == Passes(data, d, UpdateCentroids(data, d, Pass(data, cs)[..|cs|], cs), Pass(data, cs), fuel - 1)
  {
    PassInRange(data, cs);
    var b := Pass(data, cs);
    assert InRange(b[..|cs|], |data|);
    UpdateKeepsShape(data, d, b[..|cs|], cs);
  }

  /** A pass that leaves a seeded bucket empty ends the run with the throw. */
  lemma PassesStops(data: seq<Vector>, d: nat, cs: seq<Vector>, clusters: seq<seq<nat>>, fuel: nat)
    requires Uniform(data, d) && Uniform(cs, d) && |cs| <= |data| && fuel > 0
    requires exists i :: 0 <= i < |cs| && Pass(data, cs)[i] == []
    ensures Passes(data, d, cs, clusters, fuel) == None
  {
  }

  /** `kmeans(data, k, maxIterations)` as a function of its inputs. */
  function KMeansSpec(data: seq<Vector>, d: nat, k: nat, maxIterations: nat, shade: nat -> nat): KMeansResult
    requires Uniform(data, d)
  {
    if maxIterations == 0 then Unfilled(k)
    else
      var seeds := Seeds(k, |data|);
      assert Uniform(data[..seeds], d);
      match Passes(data, d, data[..seeds], [], maxIterations)
      case None => Thrown
      case Some(b) => Records(ToRecords(b, shade))
  }

  /** The assignment half of a pass: one fresh bucket per data point, filled in index order. */
  method FillBuckets(data: seq<Vector>, centroids: array<Vector>) returns (clusters: seq<seq<nat>>)
    requires centroids.Length <= |data|
    ensures clusters == Pass(data, centroids[..])
  {
    clusters := EmptyBuckets(|data|);
    for index := 0 to |data|
      invariant clusters == AssignUpTo(data, centroids[..], Metric, |data|, index)
    {
      var c := NearestCentroid(data[index], centroids, Metric);
      NearestInRange(data[index], centroids[..], Metric);
      clusters := clusters[c := clusters[c] + [index]];
    }
  }

  /** The update half of a pass: centroid i, in index order, becomes the mean
      of bucket i; false when a bucket is empty (where the code throws). */
  method MoveSeeds(data: seq<Vector>, d: nat, clusters: seq<seq<nat>>, centroids: array<Vector>) returns (ok: bool)
    requires Uniform(data, d) && centroids.Length <= |clusters| && InRange(clusters, |data|)
    modifies centroids
    ensures ok <==> forall i :: 0 <= i < centroids.Length ==> clusters[i] != []
    ensures ok ==> centroids[..] == UpdateCentroids(data, d, clusters[..centroids.Length], old(centroids[..]))
  {
    ghost var cs := centroids[..];
    assert InRange(clusters[..centroids.Length], |data|);
    for i := 0 to centroids.Length
      invariant forall t :: 0 <= t < i ==> clusters[t] != [] && centroids[t] == Average(Gather(data, clusters[t]))
      invariant forall t :: i <= t < centroids.Length ==> centroids[t] == cs[t]
    {
      var mean := CalculateMean(Gather(data, clusters[i]), d);
      if mean.None? {
        return false;
      }
      centroids[i] := mean.value;
    }
    return true;
  }

  /** The imperative `kmeans`: exactly maxIterations passes over an array of
      centroids that is overwritten in place. */
  method KMeans(data: seq<Vector>, d: nat, k: nat, maxIterations: nat, shade: nat -> nat) returns (result: KMeansResult)
    requires Uniform(data, d)
    ensures result == KMeansSpec(data, d, k, maxIterations, shade)
  {
    var seeds := Seeds(k, |data|);
    var centroids := new Vector[seeds](i requires 0 <= i < seeds => data[i]);
    assert centroids[..] == data[..seeds];
    var clusters: seq<seq<nat>> := [];
    var iterations := 0;
    while iterations < maxIterations
      invariant 0 <= iterations <= maxIterations
      invariant centroids.Length == seeds && Uniform(centroids[..], d)
      invariant Passes(data, d, centroids[..], clusters, maxIterations - iterations)
             == Passes(data, d, data[..seeds], [], maxIterations)
    {
      ghost var cs := centroids[..];
      ghost var before := clusters;
      clusters := FillBuckets(data, centroids);
      PassInRange(data, cs);
      var ok := MoveSeeds(data, d, clusters, centroids);
      if !ok {
        PassesStops(data, d, cs, before, maxIterations - iterations);
        return Thrown;
      }
      PassesStep(data, d, cs, before, maxIterations - iterations);
      iterations := iterations + 1;
    }
    if maxIterations == 0 {
      return Unfilled(k);
    }
    assert Passes(data, d, centroids[..], clusters, 0) == Some(clusters);
    return Records(ToRecords(clusters, shade));
  }

  lemma {:induction false} PassesShape(data: seq<Vector>, d: nat, cs: seq<Vector>, clusters: seq<seq<nat>>, fuel: nat)
    requires Uniform(data, d) && Uniform(cs, d) && |cs| <= |data|
    requires fuel > 0
    ensures var r := Passes(data, d, cs, clusters, fuel);
      r.Some? ==> exists cs' :: |cs'| == |cs| && r.value == Pass(data, cs')
    decreases fuel
  {
    var b := Pass(data, cs);
    if !(exists i :: 0 <= i < |cs| && b[i] == []) {
      PassInRange(data, cs);
      assert InRange(b[..|cs|], |data|);
      UpdateKeepsShape(data, d, b[..|cs|], cs);
      var next := UpdateCentroids(data, d, b[..|cs|], cs);
      if fuel > 1 {
        PassesShape(data, d, next, b, fuel - 1);
      }
    }
  }

  /** When it returns records there is one per data point (not one per
      centroid); each index lies in exactly one of them, at its nearest
      centroid, and every record numbered at or above max(1, min(k, N)) is empty. */
  lemma KMeansRecords(data: seq<Vector>, d: nat, k: nat, maxIterations: nat, shade: nat -> nat)
    requires Uniform(data, d)
    ensures var r := KMeansSpec(data, d, k, maxIterations, shade);
      && (maxIterations == 0 <==> r == Unfilled(k))
      && (r.Records? ==> && |r.clusters| == |data|
                         && (forall b :: 0 <= b < |data| ==> r.clusters[b].id == b && r.clusters[b].icon == "BookOpen")
                         && (forall b :: Seeds(k, |data|) <= b < |data| && b > 0 ==> r.clusters[b].count == 0)
                         && exists cs :: |cs| == Seeds(k, |data|) && RecordsByNearest(data, r.clusters, cs))
  {
    if maxIterations > 0 {
      var seeds := Seeds(k, |data|);
      assert Uniform(data[..seeds], d);
      PassesShape(data, d, data[..seeds], [], maxIterations);
      var p := Passes(data, d, data[..seeds], [], maxIterations);
      if p.Some? {
        var cs :| |cs| == seeds && p.value == Pass(data, cs);
        RecordsOfPass(data, cs, shade);
        assert KMeansSpec(data, d, k, maxIterations, shade) == Records(ToRecords(p.value, shade));
      }
    }
  }

  /** The records made from one pass: one per data point, numbered in
      order, those past the seeded centroids (but record 0) empty, and each
      listing the indices nearest to its centroid. */
  lemma RecordsOfPass(data: seq<Vector>, cs: seq<Vector>, shade: nat -> nat)
    requires |cs| <= |data|
    ensures var recs := ToRecords(Pass(data, cs), shade);
      && |recs| == |data|
      && (forall b :: 0 <= b < |data| ==> recs[b].id == b && recs[b].icon == "BookOpen")
      && (forall b :: |cs| <= b < |data| && b > 0 ==> recs[b].count == 0)
      && RecordsByNearest(data, recs, cs)
  {
    PassInRange(data, cs);
  }

  /** Record b lists exactly the indices whose nearest centroid in cs is b. */
  ghost predicate RecordsByNearest(data: seq<Vector>, recs: seq<Cluster>, cs: seq<Vector>)
  {
    forall b, i :: 0 <= b < |recs| && 0 <= i < |data| ==>
      (i in recs[b].resourceIds <==> Nearest(data[i], cs, Metric) == b)
  }

  lemma {:induction false} BestUpToSkipsTwin(p: Vector, cs: seq<Vector>, n: nat)
    requires 2 <= n <= |cs| && cs[0] == cs[1]
    ensures BestUpTo(p, cs, Metric, n).1 != 1
  {
    if n > 2 {
      BestUpToSkipsTwin(p, cs, n - 1);
    } else {
      assert BestUpTo(p, cs, Metric, 1) == (Metric(p, cs[0]), 0);
    }
  }

  /** When the first two data points are equal and k >= 2, no point is ever
      strictly closer to centroid 1 than to centroid 0, so bucket 1 is empty
      after the first pass and the update throws. */
  lemma EqualLeadingPointsThrow(data: seq<Vector>, d: nat, k: nat, maxIterations: nat, shade: nat -> nat)
    requires Uniform(data, d) && 2 <= k && 2 <= |data| && data[0] == data[1] && 1 <= maxIterations
    ensures KMeansSpec(data, d, k, maxIterations, shade) == Thrown
  {
    var cs := data[..Seeds(k, |data|)];
    assert Uniform(cs, d);
    var b := Pass(data, cs);
    PassInRange(data, cs);
    forall i | 0 <= i < |data| ensures Nearest(data[i], cs, Metric) != 1 {
      BestUpToSkipsTwin(data[i], cs, |cs|);
    }
    assert Unused(data, cs, Metric, |data|, 1);
    AssignUpToSkipsUnused(data, cs, Metric, |data|, |data|, 1);
    assert b[1] == [];
    PassesStops(data, d, cs, [], maxIterations);
  }

  /** With a single seed every point lands in bucket 0, so no update throws and
      the result has one record per data point: N records for k = 1. */
  lemma SingleSeedGivesOneRecordPerPoint(data: seq<Vector>, d: nat, maxIterations: nat, shade: nat -> nat)
    requires Uniform(data, d) && 1 <= |data| && 1 <= maxIterations
    ensures KMeansSpec(data, d, 1, maxIterations, shade).Records?
    ensures |KMeansSpec(data, d, 1, maxIterations, shade).clusters| == |data|
  {
    SingleSeedPasses(data, d, data[..1], [], maxIterations);
    KMeansRecords(data, d, 1, maxIterations, shade);
  }

  lemma {:induction false} SingleSeedPasses(data: seq<Vector>, d: nat, cs: seq<Vector>, clusters: seq<seq<nat>>, fuel: nat)
    requires Uniform(data, d) && Uniform(cs, d) && |cs| == 1 && 1 <= |data|
    ensures Passes(data, d, cs, clusters, fuel).Some?
    decreases fuel
  {
    if fuel > 0 {
      var b := Pass(data, cs);
      PassInRange(data, cs);
      assert Nearest(data[0], cs, Metric) == 0;
      assert 0 in b[0];
      assert !(exists i :: 0 <= i < |cs| && b[i] == []);
      assert InRange(b[..1], |data|);
      UpdateKeepsShape(data, d, b[..1], cs);
      SingleSeedPasses(data, d, UpdateCentroids(data, d, b[..1], cs), b, fuel - 1);
    }
  }

  // ---------------------------------------------------------------------------
  // The evidently intended behaviour

  /** k buckets per pass, and an empty bucket keeps its centroid (as the cosine variant does). */
  function IntendedPasses(data: seq<Vector>, d: nat, cs: seq<Vector>, fuel: nat): seq<seq<nat>>
    requires 0 < |cs| && Uniform(data, d) && Uniform(cs, d) && 0 < fuel
    decreases fuel
  {
    var b := Assign(data, cs, Metric);
    if fuel == 1 then b
    else
      AssignInRange(data, cs, Metric);
      AssignPartitions(data, cs, Metric);
      UpdateKeepsShape(data, d, b, cs);
      IntendedPasses(data, d, UpdateCentroids(data, d, b, cs), fuel - 1)
  }

  /** The buckets of the corrected `kmeans`: min(k, N) of them, empty when no pass runs. */
  function IntendedBuckets(data: seq<Vector>, d: nat, k: nat, maxIterations: nat): (r: seq<seq<nat>>)
    requires Uniform(data, d) && 1 <= k
  {
    var seeds := Seeds(k, |data|);
    if seeds == 0 then []
    else if maxIterations == 0 then EmptyBuckets(seeds)
    else
      assert Uniform(data[..seeds], d);
      IntendedPasses(data, d, data[..seeds], maxIterations)
  }

  /** The corrected `kmeans`: one record per seeded centroid. */
  function IntendedKMeans(data: seq<Vector>, d: nat, k: nat, maxIterations: nat, shade: nat -> nat): seq<Cluster>
    requires Uniform(data, d) && 1 <= k
  {
    ToRecords(IntendedBuckets(data, d, k, maxIterations), shade)
  }

  lemma {:induction false} IntendedPassesPartition(data: seq<Vector>, d: nat, cs: seq<Vector>, fuel: nat)
    requires 0 < |cs| && Uniform(data, d) && Uniform(cs, d) && 0 < fuel
    ensures exists cs' :: |cs'| == |cs| && IntendedPasses(data, d, cs, fuel) == Assign(data, cs', Metric)
    decreases fuel
  {
    if fuel > 1 {
      var b := Assign(data, cs, Metric);
      AssignInRange(data, cs, Metric);
      AssignPartitions(data, cs, Metric);
      UpdateKeepsShape(data, d, b, cs);
      IntendedPassesPartition(data, d, UpdateCentroids(data, d, b, cs), fuel - 1);
    }
  }

  /** The corrected buckets: one per seeded centroid; after at least one
      pass they hold N indices in all, each at its nearest centroid. */
  lemma IntendedBucketsPartition(data: seq<Vector>, d: nat, k: nat, maxIterations: nat)
    requires Uniform(data, d) && 1 <= k
    ensures var buckets := IntendedBuckets(data, d, k, maxIterations);
      && |buckets| == Seeds(k, |data|)
      && (maxIterations > 0 ==>
            && TotalSize(buckets) == |data|
            && exists cs :: WitnessesPartition(data, buckets, cs))
  {
    var seeds := Seeds(k, |data|);
    var buckets := IntendedBuckets(data, d, k, maxIterations);
    if seeds == 0 {
      var none: seq<Vector> := [];
      assert |data| == 0 && buckets == [];
      assert WitnessesPartition(data, buckets, none);
    } else if maxIterations > 0 {
      assert Uniform(data[..seeds], d);
      IntendedPassesPartition(data, d, data[..seeds], maxIterations);
      var cs :| |cs| == seeds && buckets == Assign(data, cs, Metric);
      AssignPartitions(data, cs, Metric);
      forall i | 0 <= i < |data| ensures Nearest(data[i], cs, Metric) < seeds {
        NearestInRange(data[i], cs, Metric);
      }
      assert WitnessesPartition(data, buckets, cs);
    }
  }

  /** cs has one centroid per bucket, every index's nearest centroid is one
      of them, and each bucket holds exactly the indices nearest to its own. */
  ghost predicate WitnessesPartition(data: seq<Vector>, buckets: seq<seq<nat>>, cs: seq<Vector>)
  {
    && |cs| == |buckets|
    && (forall i :: 0 <= i < |data| ==> Nearest(data[i], cs, Metric) < |buckets|)
    && (forall b, i :: 0 <= b < |buckets| && 0 <= i < |data| ==>
          (i in buckets[b] <==> Nearest(data[i], cs, Metric) == b))
  }

  /** The corrected version returns one record per centroid, min(k, N) of
      them; after at least one pass their counts add up to N and each index
      lies in exactly one record: the one of its nearest centroid. */
  lemma IntendedKMeansProperties(data: seq<Vector>, d: nat, k: nat, maxIterations: nat, shade: nat -> nat)
    requires Uniform(data, d) && 1 <= k
    ensures var r := IntendedKMeans(data, d, k, maxIterations, shade);
      var buckets := IntendedBuckets(data, d, k, maxIterations);
      && |r| == |buckets| == Seeds(k, |data|)
      && (forall b :: 0 <= b < |r| ==> r[b].resourceIds == buckets[b] && r[b].count == |buckets[b]|)
      && (maxIterations > 0 ==>
            && TotalSize(buckets) == |data|
            && exists cs :: WitnessesPartition(data, buckets, cs))
  {
    IntendedBucketsPartition(data, d, k, maxIterations);
  }
}
