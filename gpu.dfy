/**
 * The GPU catalog and the recommender of pkg/gpu/recommendations.go: every
 * catalog entry is scored against a memory requirement in GB, the scored
 * entries are sorted by utilization score minus cost score, highest first,
 * and the first five are kept.
 */
module Gpu {

  datatype GPUSpec = GPUSpec(name: string, memory: int, bandwidth: real, price: real, performance: real)

  /** The fixed catalog, duplicates included, in its source order. */
  const GPUDatabase: seq<GPUSpec> := [
    GPUSpec("NVIDIA A100-80GB", 80, 2.0, 10000.0, 312.0),
    GPUSpec("NVIDIA A100-40GB", 40, 1.6, 6000.0, 312.0),
    GPUSpec("NVIDIA A6000", 48, 0.768, 4000.0, 309.7),
    GPUSpec("NVIDIA L40", 48, 0.864, 5000.0, 181.6),
    GPUSpec("NVIDIA A40", 48, 0.696, 3500.0, 149.8),
    GPUSpec("NVIDIA A30", 24, 0.933, 2000.0, 165.0),
    GPUSpec("NVIDIA A10", 24, 0.600, 1500.0, 125.0),
    GPUSpec("NVIDIA H100-80GB", 80, 3.35, 30000.0, 700.0),
    GPUSpec("NVIDIA H100-94GB", 94, 3.9, 35000.0, 830.0),
    GPUSpec("NVIDIA A100-80GB", 80, 2.0, 10000.0, 312.0),
    GPUSpec("NVIDIA A100-40GB", 40, 1.6, 6000.0, 312.0),
    GPUSpec("NVIDIA A6000", 48, 0.768, 4000.0, 309.7),
    GPUSpec("NVIDIA L40", 48, 0.864, 5000.0, 181.6),
    GPUSpec("NVIDIA RTX 6000 Ada Generation", 48, 0.960, 6800.0, 260.0),
    GPUSpec("NVIDIA A40", 48, 0.696, 3500.0, 149.8),
    GPUSpec("NVIDIA A30", 24, 0.933, 2000.0, 165.0),
    GPUSpec("NVIDIA A10", 24, 0.600, 1500.0, 125.0)
  ]

  /** A card the scoring can divide by: positive memory and performance. */
  predicate Usable(gpu: GPUSpec) {
    gpu.memory > 0 && gpu.performance > 0.0
  }

  predicate AllUsable(catalog: seq<GPUSpec>) {
    forall i :: 0 <= i < |catalog| ==> Usable(catalog[i])
  }

  /** Seventeen entries, every one with positive memory, bandwidth, price and performance. */
  lemma CatalogUsable()
    ensures |GPUDatabase| == 17 && AllUsable(GPUDatabase)
    ensures forall i :: 0 <= i < |GPUDatabase| ==> GPUDatabase[i].bandwidth > 0.0 && GPUDatabase[i].price > 0.0
  {
  }

  datatype GPURecommendation = GPURecommendation(
    gpu: GPUSpec,
    numGPUs: int,
    utilizationScore: real,
    costScore: real,
    totalCost: real)

  /** The sort key: higher is better. */
  function Score(rec: GPURecommendation): real {
    rec.utilizationScore - rec.costScore
  }

  /** `math.Ceil`: the least whole number not below x. */
  function Ceil(x: real): (n: int)
    ensures x <= n as real < x + 1.0
  {
    -((-x).Floor)
  }

  /** The number of cards bought: the ceiling of requirement over card size, raised to one if below. */
  function NumGPUs(requiredGB: real, memory: int): (n: int)
    requires memory > 0
    ensures n >= 1
  {
    var c := Ceil(requiredGB / memory as real);
    if c < 1 then 1 else c
  }

  lemma ScaleStrictly(x: real, y: real, m: real)
    requires x < y && m > 0.0
    ensures x * m < y * m
  {
  }

  /** The recommendation for one card before any training adjustment. */
  function InferenceRecommendation(gpu: GPUSpec, requiredGB: real): GPURecommendation
    requires Usable(gpu)
  {
    var numGPUs := NumGPUs(requiredGB, gpu.memory);
    var memoryUtilization := requiredGB / (numGPUs as real * gpu.memory as real);
    var totalCost := numGPUs as real * gpu.price;
    GPURecommendation(gpu, numGPUs, memoryUtilization * 100.0, totalCost / gpu.performance, totalCost)
  }

  /** The recommendation the loop body builds for one card: training reweights the two scores. */
  function Recommend(gpu: GPUSpec, requiredGB: real, isTraining: bool): GPURecommendation
    requires Usable(gpu)
  {
    var rec := InferenceRecommendation(gpu, requiredGB);
    if isTraining then
      rec.(utilizationScore := rec.utilizationScore * (gpu.bandwidth / 2.0), costScore := rec.costScore * 0.8)
    else
      rec
  }

  /** One recommendation per catalog position, in catalog order, before sorting. */
  function Built(catalog: seq<GPUSpec>, requiredGB: real, isTraining: bool): seq<GPURecommendation>
    requires AllUsable(catalog)
  {
    seq(|catalog|, i requires 0 <= i < |catalog| => Recommend(catalog[i], requiredGB, isTraining))
  }

  predicate SortedByScore(s: seq<GPURecommendation>) {
    forall i, j :: 0 <= i < j < |s| ==> Score(s[i]) >= Score(s[j])
  }

  /**
   * kept is drawn from all (as a multiset), and everything of all that was
   * not kept scores no higher than anything kept.
   */
  ghost predicate BestOf(all: seq<GPURecommendation>, kept: seq<GPURecommendation>) {
    && multiset(kept) <= multiset(all)
    && forall x, k :: x in multiset(all) - multiset(kept) && k in kept ==> Score(x) <= Score(k)
  }

  /** The position of a highest score in a[lo..]. */
  method BestFrom(a: array<GPURecommendation>, lo: int) returns (best: int)
    requires 0 <= lo < a.Length
    ensures lo <= best < a.Length
    ensures forall q :: lo <= q < a.Length ==> Score(a[best]) >= Score(a[q])
  {
    best := lo;
    var j := lo + 1;
    while j < a.Length
      invariant lo <= best < a.Length && lo < j <= a.Length
      invariant forall q :: lo <= q < j ==> Score(a[best]) >= Score(a[q])
    {
      if Score(a[j]) > Score(a[best]) {
        best := j;
      }
      j := j + 1;
    }
  }

  /** `sort.Slice` with "greater score first": sorts in place, keeping the same elements. */
  method SortByScore(a: array<GPURecommendation>)
    modifies a
    ensures SortedByScore(a[..])
    ensures multiset(a[..]) == multiset(old(a[..]))
  {
    var i := 0;
    while i < a.Length
      invariant 0 <= i <= a.Length
      invariant forall p, q :: 0 <= p < q < i ==> Score(a[p]) >= Score(a[q])
      invariant forall p, q :: 0 <= p < i <= q < a.Length ==> Score(a[p]) >= Score(a[q])
      invariant multiset(a[..]) == multiset(old(a[..]))
    {
      var best := BestFrom(a, i);
      Swap(a, i, best);
      i := i + 1;
    }
  }

  /** Exchanges two cells, keeping the same elements. */
  method Swap(a: array<GPURecommendation>, i: int, j: int)
    requires 0 <= i < a.Length && 0 <= j < a.Length
    modifies a
    ensures a[i] == old(a[j]) && a[j] == old(a[i])
    ensures forall k :: 0 <= k < a.Length && k != i && k != j ==> a[k] == old(a[k])
    ensures multiset(a[..]) == multiset(old(a[..]))
  {
    a[i], a[j] := a[j], a[i];
  }

  /** A prefix of a sorted sequence is sorted and holds the best of the whole. */
  lemma SortedPrefixIsBest(s: seq<GPURecommendation>, n: nat)
    requires SortedByScore(s) && n <= |s|
    ensures SortedByScore(s[..n]) && BestOf(s, s[..n])
  {
    SplitMultiset(s, n);
    forall x, k | x in multiset(s) - multiset(s[..n]) && k in s[..n]
      ensures Score(x) <= Score(k)
    {
      BackScoresNoHigher(s, n, x, k);
    }
  }

  /** Cutting a sequence at n splits its multiset into the two parts. */
  lemma SplitMultiset(s: seq<GPURecommendation>, n: nat)
    requires n <= |s|
    ensures multiset(s[..n]) <= multiset(s)
    ensures multiset(s) - multiset(s[..n]) == multiset(s[n..])
  {
    assert s == s[..n] + s[n..];
  }

  /** In a sorted sequence nothing after position n outscores anything before it. */
  lemma BackScoresNoHigher(s: seq<GPURecommendation>, n: nat, x: GPURecommendation, k: GPURecommendation)
    requires SortedByScore(s) && n <= |s| && x in multiset(s[n..]) && k in s[..n]
    ensures Score(x) <= Score(k)
  {
    var j :| 0 <= j < |s| - n && s[n..][j] == x;
    var i :| 0 <= i < n && s[..n][i] == k;
    assert s[n + j] == x;
    assert s[i] == k;
  }

  /** Keeping a prefix of a sorted best selection keeps the best of the whole. */
  lemma BestOfPrefix(all: seq<GPURecommendation>, kept: seq<GPURecommendation>, n: nat)
    requires BestOf(all, kept) && SortedByScore(kept) && n <= |kept|
    ensures SortedByScore(kept[..n]) && BestOf(all, kept[..n])
  {
    SortedPrefixIsBest(kept, n);
    var front, back := kept[..n], kept[n..];
    assert kept == front + back;
    assert multiset(kept) == multiset(front) + multiset(back);
    forall x, k | x in multiset(all) - multiset(front) && k in front
      ensures Score(x) <= Score(k)
    {
      assert k in kept;
      if x !in multiset(all) - multiset(kept) {
        assert x in multiset(kept) - multiset(front);
      }
    }
  }

  /** Two catalogs with the same elements yield the same best-of relation. */
  lemma BestOfPermutation(all: seq<GPURecommendation>, all': seq<GPURecommendation>, kept: seq<GPURecommendation>)
    requires multiset(all) == multiset(all') && BestOf(all, kept)
    ensures BestOf(all', kept)
  {
  }

  /** The body of the scoring loop: card count, utilization, cost, and the training reweighting. */
  method ScoreCard(gpu: GPUSpec, totalMemoryGB: real, isTraining: bool) returns (rec: GPURecommendation)
    requires Usable(gpu)
    ensures rec == Recommend(gpu, totalMemoryGB, isTraining)
  {
    var numGPUs := Ceil(totalMemoryGB / gpu.memory as real);
    if numGPUs < 1 {
      numGPUs := 1;
    }
    assert numGPUs == NumGPUs(totalMemoryGB, gpu.memory);
    var memoryUtilization := totalMemoryGB / (numGPUs as real * gpu.memory as real);
    var utilizationScore := memoryUtilization * 100.0;
    var totalCost := numGPUs as real * gpu.price;
    var costScore := totalCost / gpu.performance;
    var base := InferenceRecommendation(gpu, totalMemoryGB);
    assert base.numGPUs == numGPUs && base.totalCost == totalCost;
    assert base.utilizationScore == utilizationScore && base.costScore == costScore;
    if isTraining {
      utilizationScore := utilizationScore * (gpu.bandwidth / 2.0);
      costScore := costScore * 0.8;
    }
    rec := GPURecommendation(gpu, numGPUs, utilizationScore, costScore, totalCost);
  }

  /** The scoring loop of `GetGPURecommendations`: one recommendation per catalog entry, in catalog order. */
  method ScoreCatalog(catalog: seq<GPUSpec>, totalMemoryGB: real, isTraining: bool)
    returns (recommendations: seq<GPURecommendation>)
    requires AllUsable(catalog)
    ensures recommendations == Built(catalog, totalMemoryGB, isTraining)
  {
    recommendations := [];
    var k := 0;
    while k < |catalog|
      invariant 0 <= k <= |catalog|
      invariant |recommendations| == k
      invariant forall i :: 0 <= i < k ==> recommendations[i] == Recommend(catalog[i], totalMemoryGB, isTraining)
    {
      var rec := ScoreCard(catalog[k], totalMemoryGB, isTraining);
      recommendations := recommendations + [rec];
      k := k + 1;
    }
  }

  /**
   * `GetGPURecommendations`: score every catalog entry, sort by score, keep
   * five. The result is sorted and holds the five best of the scored catalog,
   * with no order promised among equal scores.
   */
  method GetGPURecommendations(totalMemoryGB: real, isTraining: bool) returns (recommendations: seq<GPURecommendation>)
    ensures |recommendations| == 5
    ensures SortedByScore(recommendations)
    ensures AllUsable(GPUDatabase) && BestOf(Built(GPUDatabase, totalMemoryGB, isTraining), recommendations)
  {
    CatalogUsable();
    var built := ScoreCatalog(GPUDatabase, totalMemoryGB, isTraining);
    var a := new GPURecommendation[|built|](i requires 0 <= i < |built| => built[i]);
    assert a[..] == built;
    SortByScore(a);
    recommendations := a[..];
    SortedPrefixIsBest(recommendations, 5);
    BestOfPermutation(recommendations, built, recommendations[..5]);
    if |recommendations| > 5 {
      recommendations := recommendations[..5];
    }
  }

  /**
   * The card count is the least number of cards, and at least one, whose
   * combined memory holds the requirement; a requirement that fits on one
   * card buys one.
   */
  lemma NumGPUsIsCeiling(requiredGB: real, memory: int)
    requires memory > 0
    ensures var n := NumGPUs(requiredGB, memory);
            && requiredGB <= n as real * memory as real
            && (n == 1 || (n - 1) as real * memory as real < requiredGB)
    ensures requiredGB <= memory as real ==> NumGPUs(requiredGB, memory) == 1
  {
    var m := memory as real;
    var q := requiredGB / m;
    var c := Ceil(q);
    assert q * m == requiredGB;
    ScaleStrictly((c - 1) as real, q, m);
    assert (c - 1) as real * m < requiredGB;
    if c < 1 {
      ScaleAtMost(q, 1.0, m);
    } else {
      ScaleAtMost(q, c as real, m);
    }
    if requiredGB <= m {
      DivideAtMost(requiredGB, m, m);
      assert q <= 1.0;
    }
  }

  lemma ScaleAtMost(x: real, y: real, m: real)
    requires x <= y && m > 0.0
    ensures x * m <= y * m
  {
  }

  lemma DivideAtMost(x: real, y: real, m: real)
    requires x <= y && m > 0.0
    ensures x / m <= y / m
  {
    assert x / m * m == x && y / m * m == y;
  }

  /** Without training, a non-negative requirement uses between 0 and 100 percent of the cards bought. */
  lemma UtilizationWithinCapacity(gpu: GPUSpec, requiredGB: real)
    requires Usable(gpu) && requiredGB >= 0.0
    ensures 0.0 <= Recommend(gpu, requiredGB, false).utilizationScore <= 100.0
  {
    NumGPUsIsCeiling(requiredGB, gpu.memory);
    var cap := NumGPUs(requiredGB, gpu.memory) as real * gpu.memory as real;
    FractionAtMostOne(requiredGB, cap);
    UtilizationIsFraction(gpu, requiredGB);
  }

  lemma FractionAtMostOne(x: real, y: real)
    requires 0.0 <= x <= y && y > 0.0
    ensures 0.0 <= x / y <= 1.0
  {
    assert x / y * y == x;
  }

  lemma UtilizationIsFraction(gpu: GPUSpec, requiredGB: real)
    requires Usable(gpu)
    ensures Recommend(gpu, requiredGB, false).utilizationScore ==
            requiredGB / (NumGPUs(requiredGB, gpu.memory) as real * gpu.memory as real) * 100.0
  {
  }

  /**
   * Training changes only the two scores: utilization is weighted by half the
   * bandwidth and cost discounted to 80 percent. Card count and total cost
   * (the count times the price) are the same, and the inference cost score is
   * the total cost per unit of performance.
   */
  lemma TrainingAdjustsScores(gpu: GPUSpec, requiredGB: real)
    requires Usable(gpu)
    ensures var inference, training := Recommend(gpu, requiredGB, false), Recommend(gpu, requiredGB, true);
            && training.numGPUs == inference.numGPUs
            && training.totalCost == inference.totalCost == inference.numGPUs as real * gpu.price
            && inference.costScore * gpu.performance == inference.totalCost
            && training.utilizationScore == inference.utilizationScore * (gpu.bandwidth / 2.0)
            && training.costScore == inference.costScore * 0.8
  {
  }

  /** 100 GB on an 80 GB A100 needs two cards, 62.5 percent used. */
  lemma HundredGBOnA100()
    ensures GPUDatabase[0].memory == 80
    ensures Recommend(GPUDatabase[0], 100.0, false).numGPUs == 2
    ensures Recommend(GPUDatabase[0], 100.0, false).utilizationScore == 62.5
  {
    assert NumGPUs(100.0, 80) == 2;
  }

  /** With training, utilization is no longer capped at 100: 80 GB on one H100-80GB scores 167.5. */
  lemma TrainingUtilizationCanExceed100()
    ensures GPUDatabase[7].name == "NVIDIA H100-80GB"
    ensures Recommend(GPUDatabase[7], 80.0, true).utilizationScore == 167.5
  {
    assert NumGPUs(80.0, 80) == 1;
  }
}
