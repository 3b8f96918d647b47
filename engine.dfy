/** The recommendation engine: a static requirement profile per usage type, a filter pass
    (repeated once with relaxed constraints when it keeps nothing), a weighted score per
    survivor, a stable best-first sort and a cut to `limit`. Prices, budgets and scores are
    exact reals. */
module RecommendationEngine {
  import opened Wrappers
  import opened Text
  import opened Models
  import opened Ranking

  /** The keys of a profile's `importance` dictionary. */
  datatype Feature = Gpu | Processor | Ram | Display | BatteryLife | Weight | Price | Storage

  /** One entry of `usage_requirements`. A profile without a "gpu_required" key has
      `gpuRequired == false`, which is what `.get("gpu_required", False)` reads. */
  datatype Profile = Profile(
    minRam: int,
    minStorage: int,
    minBatteryLife: Option<int>,
    gpuRequired: bool,
    processorKeywords: seq<string>,
    importance: map<Feature, real>)

  /** `usage_requirements[usage]`. */
  function Requirements(usage: UsageType): (p: Profile)
    ensures p.gpuRequired <==> usage == Gaming || usage == Creative
    ensures p.minRam >= 4 && p.minStorage >= 128
    ensures forall f :: f in p.importance ==> 0.0 < p.importance[f] <= 1.0
  {
    match usage
    case Gaming =>
      Profile(16, 512, None, true, ["i7", "i9", "ryzen 7", "ryzen 9"],
              map[Gpu := 0.4, Processor := 0.3, Ram := 0.2, Display := 0.1])
    case Business =>
      Profile(8, 256, Some(8), false, ["i5", "i7", "ryzen 5", "ryzen 7"],
              map[BatteryLife := 0.4, Weight := 0.3, Processor := 0.2, Ram := 0.1])
    case Student =>
      Profile(8, 256, Some(6), false, ["i3", "i5", "ryzen 3", "ryzen 5"],
              map[Price := 0.4, BatteryLife := 0.3, Weight := 0.2, Storage := 0.1])
    case Creative =>
      Profile(16, 512, None, true, ["i7", "i9", "ryzen 7", "ryzen 9"],
              map[Display := 0.4, Gpu := 0.3, Ram := 0.2, Processor := 0.1])
    case Programming =>
      Profile(16, 512, None, false, ["i5", "i7", "ryzen 5", "ryzen 7"],
              map[Processor := 0.4, Ram := 0.3, BatteryLife := 0.2, Storage := 0.1])
    case General =>
      Profile(8, 256, None, false, ["i5", "i7", "ryzen 5"],
              map[Price := 0.4, BatteryLife := 0.3, Processor := 0.2, Ram := 0.1])
  }

  /** `importance.get(feature, default)`. */
  function Importance(p: Profile, f: Feature, default: real): real {
    if f in p.importance then p.importance[f] else default
  }

  // ---------------------------------------------------------------- filtering

  /** A list comprehension `[x for x in s if p(x)]`. */
  function Keep(s: seq<Laptop>, p: Laptop -> bool): (r: seq<Laptop>)
    ensures |r| <= |s|
    ensures forall x :: x in r <==> x in s && p(x)
  {
    if s == [] then [] else (if p(s[0]) then [s[0]] else []) + Keep(s[1..], p)
  }

  lemma {:induction false} KeepAppend(a: seq<Laptop>, b: seq<Laptop>, p: Laptop -> bool)
    ensures Keep(a + b, p) == Keep(a, p) + Keep(b, p)
  {
    if a == [] {
      assert a + b == b;
    } else {
      assert (a + b)[1..] == a[1..] + b;
      KeepAppend(a[1..], b, p);
    }
  }

  /** Two comprehensions in a row keep what one comprehension with both conditions keeps. */
  lemma {:induction false} KeepTwice(s: seq<Laptop>, p: Laptop -> bool, q: Laptop -> bool, pq: Laptop -> bool)
    requires forall x :: pq(x) == (p(x) && q(x))
    ensures Keep(Keep(s, p), q) == Keep(s, pq)
  {
    if s != [] {
      var head := if p(s[0]) then [s[0]] else [];
      KeepAppend(head, Keep(s[1..], p), q);
      KeepTwice(s[1..], p, q, pq);
      if p(s[0]) { assert head[1..] == []; }
    }
  }

  lemma {:induction false} KeepSame(s: seq<Laptop>, p: Laptop -> bool, q: Laptop -> bool)
    requires forall x :: p(x) == q(x)
    ensures Keep(s, p) == Keep(s, q)
  {
    if s != [] { KeepSame(s[1..], p, q); }
  }

  /** `laptop.get("gpu") and laptop.get("gpu") != "None"`: a present, non-empty GPU
      description other than the text "None". */
  predicate HasGpu(l: Laptop) {
    GpuPresent(l.gpu)
  }

  predicate GpuPresent(gpu: Option<string>) {
    gpu.Some? && gpu.value != "" && gpu.value != "None"
  }

  /** `if brand_preference:` — present and not the empty string. */
  predicate Truthy(s: Option<string>) {
    s.Some? && s.value != ""
  }

  /** The thresholds one filter pass applies once defaults are resolved. */
  datatype Criteria = Criteria(budget: real, minRam: int, minStorage: int, brand: Option<string>, needGpu: bool)

  /** Default resolution of `_filter_laptops`: a missing `min_ram`/`min_storage` is taken
      from the usage profile; the GPU filter applies when the profile requires a GPU or the
      caller prefers one. */
  function Resolve(budget: real, usage: UsageType, brandPreference: Option<string>,
                   minRam: Option<int>, minStorage: Option<int>, preferGpu: bool): (c: Criteria)
    ensures c.budget == budget && c.brand == brandPreference
    ensures c.minRam == (if minRam.Some? then minRam.value else Requirements(usage).minRam)
    ensures c.minStorage == (if minStorage.Some? then minStorage.value else Requirements(usage).minStorage)
    ensures c.needGpu <==> Requirements(usage).gpuRequired || preferGpu
  {
    var reqs := Requirements(usage);
    Criteria(budget, minRam.GetOr(reqs.minRam), minStorage.GetOr(reqs.minStorage),
             brandPreference, reqs.gpuRequired || preferGpu)
  }

  /** Every condition of one filter pass, at once. */
  predicate Admits(c: Criteria, l: Laptop) {
    && l.price <= c.budget
    && l.ram >= c.minRam
    && l.storage >= c.minStorage
    && (Truthy(c.brand) ==> Lower(l.brand) == Lower(c.brand.value))
    && (c.needGpu ==> HasGpu(l))
  }

  /** The catalog laptops that pass every condition of `c`, in catalog order. */
  function Admitted(catalog: seq<Laptop>, c: Criteria): (r: seq<Laptop>)
    ensures forall l :: l in r <==> l in catalog && Admits(c, l)
  {
    Keep(catalog, l => Admits(c, l))
  }

  /** The comprehension chain of `_filter_laptops`, for any predicates that test what its
      comprehensions test, keeps what one comprehension with every condition keeps. */
  lemma ChainIsAdmitted(catalog: seq<Laptop>, c: Criteria, byPrice: Laptop -> bool,
                        byRam: Laptop -> bool, byStorage: Laptop -> bool, byBrand: Laptop -> bool)
    requires forall l :: byPrice(l) == (l.price <= c.budget)
    requires forall l :: byRam(l) == (l.ram >= c.minRam)
    requires forall l :: byStorage(l) == (l.storage >= c.minStorage)
    requires forall l :: Truthy(c.brand) ==> byBrand(l) == (Lower(l.brand) == Lower(c.brand.value))
    ensures var results := Keep(Keep(Keep(catalog, byPrice), byRam), byStorage);
            var results := if Truthy(c.brand) then Keep(results, byBrand) else results;
            var results := if c.needGpu then Keep(results, HasGpu) else results;
            results == Admitted(catalog, c)
  {
    var s1 := (l: Laptop) => byPrice(l) && byRam(l);
    var s2 := (l: Laptop) => s1(l) && byStorage(l);
    var s3 := (l: Laptop) => s2(l) && (Truthy(c.brand) ==> byBrand(l));
    var s4 := (l: Laptop) => s3(l) && (c.needGpu ==> HasGpu(l));
    KeepTwice(catalog, byPrice, byRam, s1);
    KeepTwice(catalog, s1, byStorage, s2);
    if Truthy(c.brand) { KeepTwice(catalog, s2, byBrand, s3); } else { KeepSame(catalog, s2, s3); }
    if c.needGpu { KeepTwice(catalog, s3, HasGpu, s4); } else { KeepSame(catalog, s3, s4); }
    KeepSame(catalog, s4, l => Admits(c, l));
  }

  /** `_filter_laptops`: budget, RAM, storage, brand (only when one is given) and GPU (only
      when required or preferred) comprehensions applied in turn. The chain keeps exactly
      the catalog laptops that pass every condition, in catalog order. */
  function FilterLaptops(catalog: seq<Laptop>, budget: real, usage: UsageType,
                         brandPreference: Option<string>, minRam: Option<int>,
                         minStorage: Option<int>, preferGpu: bool): (r: seq<Laptop>)
    ensures r == Admitted(catalog, Resolve(budget, usage, brandPreference, minRam, minStorage, preferGpu))
  {
    var c := Resolve(budget, usage, brandPreference, minRam, minStorage, preferGpu);
    var byPrice := (l: Laptop) => l.price <= c.budget;
    var byRam := (l: Laptop) => l.ram >= c.minRam;
    var byStorage := (l: Laptop) => l.storage >= c.minStorage;
    var byBrand := (l: Laptop) => c.brand.Some? && Lower(l.brand) == Lower(c.brand.value);
    var results := Keep(Keep(Keep(catalog, byPrice), byRam), byStorage);
    var results := if Truthy(brandPreference) then Keep(results, byBrand) else results;
    var results := if c.needGpu then Keep(results, HasGpu) else results;
    ChainIsAdmitted(catalog, c, byPrice, byRam, byStorage, byBrand);
    results
  }

  /** The strict pass: the caller's own constraints. */
  function StrictPass(catalog: seq<Laptop>, budget: real, usage: UsageType,
                      brandPreference: Option<string>, minRam: Option<int>,
                      minStorage: Option<int>, preferGpu: bool): seq<Laptop>
  {
    FilterLaptops(catalog, budget, usage, brandPreference, minRam, minStorage, preferGpu)
  }

  /** The relaxed pass: budget times 1.1, no brand, the profile's own RAM and storage
      minimums, the GPU condition unchanged. */
  function RelaxedPass(catalog: seq<Laptop>, budget: real, usage: UsageType, preferGpu: bool): seq<Laptop>
  {
    FilterLaptops(catalog, budget * 1.1, usage, None,
                  Some(Requirements(usage).minRam), Some(Requirements(usage).minStorage), preferGpu)
  }

  /** The laptops `get_recommendations` scores: the strict pass, or the relaxed pass when
      the strict pass is empty. */
  function Candidates(catalog: seq<Laptop>, budget: real, usage: UsageType,
                      brandPreference: Option<string>, minRam: Option<int>,
                      minStorage: Option<int>, preferGpu: bool): seq<Laptop>
  {
    var strict := StrictPass(catalog, budget, usage, brandPreference, minRam, minStorage, preferGpu);
    if strict != [] then strict else RelaxedPass(catalog, budget, usage, preferGpu)
  }

  // ---------------------------------------------------------------- scoring

  function Min(a: real, b: real): real { if a <= b then a else b }

  /** `1 - price / budget`. */
  function PriceEfficiency(price: real, budget: real): real
    requires budget != 0.0
  {
    1.0 - price / budget
  }

  /** `min(1.0, ram / 32)`. */
  function RamScore(ram: int): real { Min(1.0, ram as real / 32.0) }

  /** `min(1.0, storage / 1000)`. */
  function StorageScore(storage: int): real { Min(1.0, storage as real / 1000.0) }

  /** Some keyword occurs, ignoring case, in the processor description. */
  predicate AnyKeywordIn(keywords: seq<string>, processor: string) {
    exists k :: 0 <= k < |keywords| && Contains(Lower(processor), Lower(keywords[k]))
  }

  function ProcessorScore(keywords: seq<string>, processor: string): real {
    if AnyKeywordIn(keywords, processor) then 1.0 else 0.0
  }

  function GpuScore(gpu: Option<string>): real { if GpuPresent(gpu) then 1.0 else 0.0 }

  /** `min(1.0, battery_life / 15)`. */
  function BatteryScore(hours: real): real { Min(1.0, hours / 15.0) }

  /** `1 - min(1.0, weight / 3)`: lighter is better. */
  function WeightScore(kg: real): real { 1.0 - Min(1.0, kg / 3.0) }

  /** The score `_score_laptops` gives one laptop under the weights and keywords of profile
      `p`: the weighted sub-scores, with the GPU term only when the profile weighs the GPU,
      and the battery and weight terms only when the laptop has that value. Missing weights
      default to 0.25 (price), 0.15 (RAM), 0.1 (storage), 0.2 (processor), 0 (GPU), 0.1
      (battery life) and 0.1 (weight). */
  function Score(l: Laptop, p: Profile, budget: real): real
    requires budget != 0.0
  {
    PriceTerm(l.price, p, budget) + RamTerm(l.ram, p) + StorageTerm(l.storage, p)
    + ProcessorTerm(l.processor, p) + GpuTerm(l.gpu, p) + BatteryTerm(l.batteryLife, p)
    + WeightTerm(l.weight, p)
  }

  /** The weighted terms of the score, each a function of the one field it reads. */
  function PriceTerm(price: real, p: Profile, budget: real): real
    requires budget != 0.0
  {
    Importance(p, Price, 0.25) * PriceEfficiency(price, budget)
  }

  function RamTerm(ram: int, p: Profile): real { Importance(p, Ram, 0.15) * RamScore(ram) }

  function StorageTerm(storage: int, p: Profile): real { Importance(p, Storage, 0.1) * StorageScore(storage) }

  function ProcessorTerm(processor: string, p: Profile): real {
    Importance(p, Processor, 0.2) * ProcessorScore(p.processorKeywords, processor)
  }

  function GpuTerm(gpu: Option<string>, p: Profile): real {
    if Importance(p, Gpu, 0.0) > 0.0 then Importance(p, Gpu, 0.0) * GpuScore(gpu) else 0.0
  }

  function BatteryTerm(batteryLife: Option<real>, p: Profile): real {
    if batteryLife.Some? then Importance(p, BatteryLife, 0.1) * BatteryScore(batteryLife.value) else 0.0
  }

  function WeightTerm(weight: Option<real>, p: Profile): real {
    if weight.Some? then Importance(p, Weight, 0.1) * WeightScore(weight.value) else 0.0
  }

  /** The score under the usage type's profile. The price term uses the budget the caller
      gave, even after relaxation. */
  function ScoreOf(l: Laptop, usage: UsageType, budget: real): real
    requires budget != 0.0
  {
    Score(l, Requirements(usage), budget)
  }

  /** `laptop.copy()` with `score` set. */
  function WithScore(l: Laptop, usage: UsageType, budget: real): Laptop
    requires budget != 0.0
  {
    l.(score := Some(ScoreOf(l, usage, budget)))
  }

  /** The list `_score_laptops` builds before sorting: each laptop copied, with its score. */
  function Scored(laptops: seq<Laptop>, usage: UsageType, budget: real): (r: seq<Laptop>)
    requires budget != 0.0 || laptops == []
    ensures |r| == |laptops|
    ensures forall k :: 0 <= k < |laptops| ==> r[k] == WithScore(laptops[k], usage, budget)
  {
    if laptops == [] then [] else Scored(laptops[..|laptops| - 1], usage, budget) + [WithScore(laptops[|laptops| - 1], usage, budget)]
  }

  /** The sort key `lambda x: x["score"]`. */
  function ScoreKey(l: Laptop): real { l.score.GetOr(0.0) }

  /** `scored_laptops[:limit]`, negative limits counting from the end as Python's slice does. */
  function Prefix(s: seq<Laptop>, limit: int): (r: seq<Laptop>)
    ensures limit >= 0 ==> |r| == (if limit <= |s| then limit else |s|)
    ensures limit < 0 ==> |r| == (if |s| + limit >= 0 then |s| + limit else 0)
    ensures r <= s
    ensures forall x :: x in r ==> x in s
  {
    if limit >= 0 then (if limit <= |s| then s[..limit] else s)
    else if |s| + limit >= 0 then s[..|s| + limit] else []
  }

  /** The specification of `get_recommendations`. */
  function Recommend(catalog: seq<Laptop>, budget: real, usage: UsageType,
                     brandPreference: Option<string>, minRam: Option<int>,
                     minStorage: Option<int>, preferGpu: bool, limit: int): seq<Laptop>
    requires budget != 0.0 || Candidates(catalog, budget, usage, brandPreference, minRam, minStorage, preferGpu) == []
  {
    var cands := Candidates(catalog, budget, usage, brandPreference, minRam, minStorage, preferGpu);
    Prefix(SortDesc(Scored(cands, usage, budget), ScoreKey), limit)
  }

  // ---------------------------------------------------------------- the two methods

  /** The keyword loop of `_score_laptops`: 1.0 as soon as a keyword occurs, ignoring case,
      in the processor description; 0 when none does. */
  method MatchProcessor(keywords: seq<string>, processorName: string) returns (processorScore: real)
    ensures processorScore == 1.0 <==> AnyKeywordIn(keywords, processorName)
    ensures processorScore == 0.0 <==> !AnyKeywordIn(keywords, processorName)
  {
    var processor := Lower(processorName);
    processorScore := 0.0;
    for k := 0 to |keywords|
      invariant processorScore == 0.0
      invariant forall j :: 0 <= j < k ==> !Contains(processor, Lower(keywords[j]))
    {
      if Contains(processor, Lower(keywords[k])) {
        processorScore := 1.0;
        break;
      }
    }
  }

  /** The body of `_score_laptops`' loop: one laptop's score under profile `p`, the
      processor keywords tried in order until one matches. */
  method ScoreLaptop(laptop: Laptop, p: Profile, budget: real) returns (score: real)
    requires budget != 0.0
    ensures score == Score(laptop, p, budget)
  {
    score := 0.0;
    var priceEfficiency := PriceEfficiency(laptop.price, budget);
    score := score + Importance(p, Price, 0.25) * priceEfficiency;
    var ramScore := RamScore(laptop.ram);
    score := score + Importance(p, Ram, 0.15) * ramScore;
    var storageScore := StorageScore(laptop.storage);
    score := score + Importance(p, Storage, 0.1) * storageScore;
    assert score == PriceTerm(laptop.price, p, budget) + RamTerm(laptop.ram, p) + StorageTerm(laptop.storage, p);
    var processorScore := MatchProcessor(p.processorKeywords, laptop.processor);
    score := score + Importance(p, Processor, 0.2) * processorScore;
    ghost var base := score;
    assert base == PriceTerm(laptop.price, p, budget) + RamTerm(laptop.ram, p) + StorageTerm(laptop.storage, p)
                   + ProcessorTerm(laptop.processor, p);
    if Importance(p, Gpu, 0.0) > 0.0 {
      var gpuScore := GpuScore(laptop.gpu);
      score := score + Importance(p, Gpu, 0.0) * gpuScore;
    }
    assert score == base + GpuTerm(laptop.gpu, p);
    ghost var withGpu := score;
    if laptop.batteryLife.Some? {
      var batteryScore := BatteryScore(laptop.batteryLife.value);
      score := score + Importance(p, BatteryLife, 0.1) * batteryScore;
    }
    assert score == withGpu + BatteryTerm(laptop.batteryLife, p);
    ghost var withBattery := score;
    if laptop.weight.Some? {
      var weightScore := WeightScore(laptop.weight.value);
      score := score + Importance(p, Weight, 0.1) * weightScore;
    }
    assert score == withBattery + WeightTerm(laptop.weight, p);
  }

  /** `_score_laptops`: scores every laptop in a loop, then sorts best first. An empty input
      returns before any division by the budget. */
  method ScoreLaptops(laptops: seq<Laptop>, usage: UsageType, budget: real) returns (r: seq<Laptop>)
    requires budget != 0.0 || laptops == []
    ensures r == SortDesc(Scored(laptops, usage, budget), ScoreKey)
    ensures SortedDesc(r, ScoreKey)
    ensures multiset(r) == multiset(Scored(laptops, usage, budget))
  {
    if laptops == [] {
      return [];
    }
    var p := Requirements(usage);
    var scoredLaptops: seq<Laptop> := [];
    for i := 0 to |laptops|
      invariant scoredLaptops == Scored(laptops[..i], usage, budget)
    {
      var laptop := laptops[i];
      var score := ScoreLaptop(laptop, p, budget);
      scoredLaptops := scoredLaptops + [laptop.(score := Some(score))];
      assert laptops[..i + 1][..i] == laptops[..i];
    }
    assert laptops[..|laptops|] == laptops;
    r := SortDesc(scoredLaptops, ScoreKey);
    SortDescOrdered(scoredLaptops, ScoreKey);
  }

  /** Every laptop in the sorted, scored list is the copy of some input laptop with that
      laptop's score. */
  lemma ScoredMembers(laptops: seq<Laptop>, usage: UsageType, budget: real)
    requires budget != 0.0 || laptops == []
    ensures forall x :: x in SortDesc(Scored(laptops, usage, budget), ScoreKey) ==>
              exists l :: l in laptops && x == WithScore(l, usage, budget)
  {
    var all := Scored(laptops, usage, budget);
    SortDescOrdered(all, ScoreKey);
    forall x | x in SortDesc(all, ScoreKey)
      ensures exists l :: l in laptops && x == WithScore(l, usage, budget)
    {
      assert x in multiset(all);
      var k :| 0 <= k < |all| && all[k] == x;
      assert laptops[k] in laptops;
    }
  }

  /** What `get_recommendations` returns: best first, at most `limit` of them (all of them
      when `limit` is at least the number of candidates), each a candidate laptop copied with
      its own score, no candidate returned twice, and no candidate left out that scores above
      one returned. */
  lemma RecommendShape(catalog: seq<Laptop>, budget: real, usage: UsageType,
                       brandPreference: Option<string>, minRam: Option<int>,
                       minStorage: Option<int>, preferGpu: bool, limit: int)
    requires budget != 0.0 || Candidates(catalog, budget, usage, brandPreference, minRam, minStorage, preferGpu) == []
    ensures var r := Recommend(catalog, budget, usage, brandPreference, minRam, minStorage, preferGpu, limit);
            var cands := Candidates(catalog, budget, usage, brandPreference, minRam, minStorage, preferGpu);
            && SortedDesc(r, ScoreKey)
            && (limit >= 0 ==> |r| == (if limit <= |cands| then limit else |cands|))
            && (forall x :: x in r ==> exists c :: c in cands && x == WithScore(c, usage, budget))
            && multiset(r) <= multiset(Scored(cands, usage, budget))
            && (forall x, c :: x in r && c in Scored(cands, usage, budget) && ScoreKey(c) > ScoreKey(x) ==> c in r)
  {
    var cands := Candidates(catalog, budget, usage, brandPreference, minRam, minStorage, preferGpu);
    var sorted := SortDesc(Scored(cands, usage, budget), ScoreKey);
    assert Recommend(catalog, budget, usage, brandPreference, minRam, minStorage, preferGpu, limit)
           == Prefix(sorted, limit);
    SortDescOrdered(Scored(cands, usage, budget), ScoreKey);
    ScoredMembers(cands, usage, budget);
    PrefixSorted(sorted, limit);
    TopCut(Scored(cands, usage, budget), limit);
  }

  /** Cutting the sorted list keeps the best: no entry is taken twice, and nothing left out
      scores above anything kept. */
  lemma TopCut(all: seq<Laptop>, limit: int)
    ensures var r := Prefix(SortDesc(all, ScoreKey), limit);
            && multiset(r) <= multiset(all)
            && (forall x, c :: x in r && c in all && ScoreKey(c) > ScoreKey(x) ==> c in r)
  {
    var sorted := SortDesc(all, ScoreKey);
    var r := Prefix(sorted, limit);
    SortDescOrdered(all, ScoreKey);
    assert sorted == r + sorted[|r|..];
    assert multiset(sorted) == multiset(r) + multiset(sorted[|r|..]);
    forall x, c | x in r && c in all && ScoreKey(c) > ScoreKey(x) ensures c in r {
      assert c in multiset(all);
      assert r == sorted[..|r|];
      TopOfSorted(sorted, |r|, x, c);
    }
  }

  /** In a list sorted best first, nothing after the first `n` outscores anything within them. */
  lemma TopOfSorted(s: seq<Laptop>, n: nat, x: Laptop, c: Laptop)
    requires SortedDesc(s, ScoreKey) && n <= |s|
    requires x in s[..n] && c in multiset(s) && ScoreKey(c) > ScoreKey(x)
    ensures c in s[..n]
  {
    var i :| 0 <= i < n && s[..n][i] == x;
    forall k | n <= k < |s| ensures ScoreKey(s[k]) <= ScoreKey(x) {
      assert s[i] == x;
    }
    assert c in s[..n] + s[n..] by { assert s == s[..n] + s[n..]; }
  }

  /** A prefix of a list sorted best first is sorted best first. */
  lemma PrefixSorted(s: seq<Laptop>, limit: int)
    requires SortedDesc(s, ScoreKey)
    ensures SortedDesc(Prefix(s, limit), ScoreKey)
  {
    var r := Prefix(s, limit);
    forall i, j | 0 <= i < j < |r| ensures ScoreKey(r[i]) >= ScoreKey(r[j]) {
      assert r[i] == s[i] && r[j] == s[j];
    }
  }

  /** `get_recommendations`: the strict pass; the relaxed pass only when the strict pass is
      empty; score and sort; keep the first `limit`. The division by the budget in scoring
      fails on a zero budget unless both passes are empty, which the precondition rules out. */
  method GetRecommendations(catalog: seq<Laptop>, budget: real, usage: UsageType,
                            brandPreference: Option<string>, minRam: Option<int>,
                            minStorage: Option<int>, preferGpu: bool, limit: int)
    returns (r: seq<Laptop>)
    requires budget != 0.0 || Candidates(catalog, budget, usage, brandPreference, minRam, minStorage, preferGpu) == []
    ensures r == Recommend(catalog, budget, usage, brandPreference, minRam, minStorage, preferGpu, limit)
  {
    var filteredLaptops := FilterLaptops(catalog, budget, usage, brandPreference, minRam, minStorage, preferGpu);
    if filteredLaptops == [] {
      var reqs := Requirements(usage);
      filteredLaptops := FilterLaptops(catalog, budget * 1.1, usage, None, Some(reqs.minRam), Some(reqs.minStorage), preferGpu);
    }
    var scoredLaptops := ScoreLaptops(filteredLaptops, usage, budget);
    r := Prefix(scoredLaptops, limit);
  }

  // ---------------------------------------------------------------- properties of the passes

  /** A laptop survives the strict pass exactly when it is in the catalog, is within the
      budget, meets the caller's RAM and storage minimums (the profile's when the caller gave
      none), has the requested brand ignoring case when a non-empty brand was given, and has
      a GPU when the profile requires one or the caller prefers one. */
  lemma StrictPassAdmits(catalog: seq<Laptop>, budget: real, usage: UsageType,
                         brandPreference: Option<string>, minRam: Option<int>,
                         minStorage: Option<int>, preferGpu: bool, l: Laptop)
    ensures l in StrictPass(catalog, budget, usage, brandPreference, minRam, minStorage, preferGpu)
        <==> && l in catalog
             && l.price <= budget
             && l.ram >= minRam.GetOr(Requirements(usage).minRam)
             && l.storage >= minStorage.GetOr(Requirements(usage).minStorage)
             && (Truthy(brandPreference) ==> Lower(l.brand) == Lower(brandPreference.value))
             && (Requirements(usage).gpuRequired || preferGpu ==> HasGpu(l))
  {
  }

  /** A laptop survives the relaxed pass exactly when it is in the catalog, costs at most 110%
      of the budget, meets the profile's own RAM and storage minimums and has a GPU when the
      profile requires one or the caller prefers one. The caller's brand, RAM and storage
      choices play no part. */
  lemma RelaxedPassAdmits(catalog: seq<Laptop>, budget: real, usage: UsageType, preferGpu: bool, l: Laptop)
    ensures l in RelaxedPass(catalog, budget, usage, preferGpu)
        <==> && l in catalog
             && l.price <= budget * 1.1
             && l.ram >= Requirements(usage).minRam
             && l.storage >= Requirements(usage).minStorage
             && (Requirements(usage).gpuRequired || preferGpu ==> HasGpu(l))
  {
  }

  /** The relaxed pass runs only when the strict pass keeps nothing; a strict survivor is
      within the budget and a relaxed survivor within 110% of it. Either way the candidate
      has a GPU whenever one is required or preferred. */
  lemma CandidatesWithinBudget(catalog: seq<Laptop>, budget: real, usage: UsageType,
                               brandPreference: Option<string>, minRam: Option<int>,
                               minStorage: Option<int>, preferGpu: bool, l: Laptop)
    requires l in Candidates(catalog, budget, usage, brandPreference, minRam, minStorage, preferGpu)
    ensures l in catalog
    ensures StrictPass(catalog, budget, usage, brandPreference, minRam, minStorage, preferGpu) != []
            ==> l.price <= budget
    ensures StrictPass(catalog, budget, usage, brandPreference, minRam, minStorage, preferGpu) == []
            ==> l.price <= budget * 1.1
    ensures Requirements(usage).gpuRequired || preferGpu ==> HasGpu(l)
  {
    if StrictPass(catalog, budget, usage, brandPreference, minRam, minStorage, preferGpu) != [] {
      StrictPassAdmits(catalog, budget, usage, brandPreference, minRam, minStorage, preferGpu, l);
    } else {
      RelaxedPassAdmits(catalog, budget, usage, preferGpu, l);
    }
  }

  /** When a GPU is required or preferred and no catalog laptop with a GPU costs at most the
      budget and at most 110% of it, both passes are empty and nothing is recommended. */
  lemma NoAffordableGpuMeansNothing(catalog: seq<Laptop>, budget: real, usage: UsageType,
                                    brandPreference: Option<string>, minRam: Option<int>,
                                    minStorage: Option<int>, preferGpu: bool, limit: int)
    requires Requirements(usage).gpuRequired || preferGpu
    requires forall l :: l in catalog && HasGpu(l) ==> l.price > budget && l.price > budget * 1.1
    ensures Candidates(catalog, budget, usage, brandPreference, minRam, minStorage, preferGpu) == []
    ensures Recommend(catalog, budget, usage, brandPreference, minRam, minStorage, preferGpu, limit) == []
  {
    var cands := Candidates(catalog, budget, usage, brandPreference, minRam, minStorage, preferGpu);
    if cands != [] {
      CandidatesWithinBudget(catalog, budget, usage, brandPreference, minRam, minStorage, preferGpu, cands[0]);
    }
  }

  // ---------------------------------------------------------------- properties of the output

  /** Every recommendation is a catalog laptop with its score added; it is within the budget
      when the strict pass kept something and within 110% of it otherwise, and it has a GPU
      whenever the usage type requires one or the caller prefers one. */
  lemma RecommendationsWithinBudget(catalog: seq<Laptop>, budget: real, usage: UsageType,
                                    brandPreference: Option<string>, minRam: Option<int>,
                                    minStorage: Option<int>, preferGpu: bool, limit: int, x: Laptop)
    requires budget != 0.0 || Candidates(catalog, budget, usage, brandPreference, minRam, minStorage, preferGpu) == []
    requires x in Recommend(catalog, budget, usage, brandPreference, minRam, minStorage, preferGpu, limit)
    ensures exists c :: c in catalog && x == WithScore(c, usage, budget)
    ensures StrictPass(catalog, budget, usage, brandPreference, minRam, minStorage, preferGpu) != []
            ==> x.price <= budget
    ensures StrictPass(catalog, budget, usage, brandPreference, minRam, minStorage, preferGpu) == []
            ==> x.price <= budget * 1.1
    ensures Requirements(usage).gpuRequired || preferGpu ==> HasGpu(x)
  {
    RecommendShape(catalog, budget, usage, brandPreference, minRam, minStorage, preferGpu, limit);
    var cands := Candidates(catalog, budget, usage, brandPreference, minRam, minStorage, preferGpu);
    var c :| c in cands && x == WithScore(c, usage, budget);
    CandidatesWithinBudget(catalog, budget, usage, brandPreference, minRam, minStorage, preferGpu, c);
  }

  /** `a` is `b` with some elements left out, the rest in the same order. */
  predicate IsSubsequence(a: seq<Laptop>, b: seq<Laptop>)
    decreases |b|
  {
    if a == [] then true
    else if b == [] then false
    else if a[0] == b[0] then IsSubsequence(a[1..], b[1..])
    else IsSubsequence(a, b[1..])
  }

  lemma {:induction false} KeepIsSubsequence(s: seq<Laptop>, p: Laptop -> bool)
    ensures IsSubsequence(Keep(s, p), s)
  {
    if s != [] {
      KeepIsSubsequence(s[1..], p);
      if p(s[0]) {
        assert Keep(s, p) == [s[0]] + Keep(s[1..], p);
        assert Keep(s, p)[1..] == Keep(s[1..], p);
      } else {
        assert Keep(s, p) == Keep(s[1..], p);
      }
    }
  }

  /** The candidates are catalog laptops in catalog order. */
  lemma CandidatesInCatalogOrder(catalog: seq<Laptop>, budget: real, usage: UsageType,
                                 brandPreference: Option<string>, minRam: Option<int>,
                                 minStorage: Option<int>, preferGpu: bool)
    ensures IsSubsequence(Candidates(catalog, budget, usage, brandPreference, minRam, minStorage, preferGpu), catalog)
  {
    var strict := StrictPass(catalog, budget, usage, brandPreference, minRam, minStorage, preferGpu);
    if strict != [] {
      KeepIsSubsequence(catalog, l => Admits(Resolve(budget, usage, brandPreference, minRam, minStorage, preferGpu), l));
    } else {
      var reqs := Requirements(usage);
      KeepIsSubsequence(catalog, l => Admits(Resolve(budget * 1.1, usage, None, Some(reqs.minRam), Some(reqs.minStorage), preferGpu), l));
    }
  }

  /** Sorting by score and cutting keeps, for every score value, a prefix of the laptops with
      that score in input order; without a cut it keeps all of them. */
  lemma TopScoredStable(s: seq<Laptop>, limit: int, v: real)
    ensures var r := Prefix(SortDesc(s, ScoreKey), limit);
            && WithKey(r, ScoreKey, v) <= WithKey(s, ScoreKey, v)
            && (limit >= |s| ==> WithKey(r, ScoreKey, v) == WithKey(s, ScoreKey, v))
  {
    var sorted := SortDesc(s, ScoreKey);
    SortDescStable(s, ScoreKey, v);
    SortDescOrdered(s, ScoreKey);
    WithKeyPrefix(Prefix(sorted, limit), sorted, ScoreKey, v);
    if limit >= |s| {
      assert Prefix(sorted, limit) == sorted;
    }
  }

  /** Ordering and stability of `get_recommendations`: the candidates keep catalog order, and
      for every score value the recommendations with that score are a prefix of the scored
      candidates with that score, in candidate order; without a cut they are all of them. */
  lemma RecommendStable(catalog: seq<Laptop>, budget: real, usage: UsageType,
                        brandPreference: Option<string>, minRam: Option<int>,
                        minStorage: Option<int>, preferGpu: bool, limit: int, v: real)
    requires budget != 0.0 || Candidates(catalog, budget, usage, brandPreference, minRam, minStorage, preferGpu) == []
    ensures var cands := Candidates(catalog, budget, usage, brandPreference, minRam, minStorage, preferGpu);
            var r := Recommend(catalog, budget, usage, brandPreference, minRam, minStorage, preferGpu, limit);
            && IsSubsequence(cands, catalog)
            && WithKey(r, ScoreKey, v) <= WithKey(Scored(cands, usage, budget), ScoreKey, v)
            && (limit >= |cands| ==> WithKey(r, ScoreKey, v) == WithKey(Scored(cands, usage, budget), ScoreKey, v))
  {
    CandidatesInCatalogOrder(catalog, budget, usage, brandPreference, minRam, minStorage, preferGpu);
    var cands := Candidates(catalog, budget, usage, brandPreference, minRam, minStorage, preferGpu);
    TopScoredStable(Scored(cands, usage, budget), limit, v);
  }

  // ---------------------------------------------------------------- properties of the score

  /** Every weight a usage profile uses, including the defaults for the features it does not
      list, is positive. */
  lemma WeightsPositive(usage: UsageType)
    ensures var p := Requirements(usage);
            && Importance(p, Price, 0.25) > 0.0 && Importance(p, Ram, 0.15) > 0.0
            && Importance(p, Storage, 0.1) > 0.0 && Importance(p, Processor, 0.2) > 0.0
            && Importance(p, BatteryLife, 0.1) > 0.0 && Importance(p, Weight, 0.1) > 0.0
  {
  }

  /** Under any profile, a laptop's GPU moves its score by the GPU weight times the change
      in the GPU sub-score when that weight is positive, and not at all otherwise. */
  lemma ScoreGpuChange(l: Laptop, p: Profile, budget: real, gpu: Option<string>)
    requires budget != 0.0
    ensures Score(l.(gpu := gpu), p, budget) - Score(l, p, budget)
            == (if Importance(p, Gpu, 0.0) > 0.0 then Importance(p, Gpu, 0.0) * (GpuScore(gpu) - GpuScore(l.gpu)) else 0.0)
  {
    var w := Importance(p, Gpu, 0.0);
    assert GpuTerm(gpu, p) - GpuTerm(l.gpu, p) == (if w > 0.0 then w * (GpuScore(gpu) - GpuScore(l.gpu)) else 0.0);
  }

  /** The GPU counts only for gaming and creative work: for the other usage types a laptop's
      GPU does not change its score, and for those two a GPU that is present adds the GPU
      weight to the score the laptop has without one. */
  lemma GpuCountsOnlyForGamingAndCreative(l: Laptop, usage: UsageType, budget: real, gpu: Option<string>)
    requires budget != 0.0
    ensures usage != Gaming && usage != Creative ==> ScoreOf(l.(gpu := gpu), usage, budget) == ScoreOf(l, usage, budget)
    ensures usage == Gaming || usage == Creative ==>
              ScoreOf(l.(gpu := gpu), usage, budget)
              == ScoreOf(l.(gpu := None), usage, budget) + (if GpuPresent(gpu) then Requirements(usage).importance[Gpu] else 0.0)
  {
    var p := Requirements(usage);
    ScoreGpuChange(l, p, budget, gpu);
    ScoreGpuChange(l.(gpu := None), p, budget, gpu);
    assert l.(gpu := None).(gpu := gpu) == l.(gpu := gpu);
  }

  /** A price above a positive budget makes the price term negative, so the score can drop
      below the sum of the other terms. */
  lemma PriceTermNegativeOverBudget(l: Laptop, usage: UsageType, budget: real)
    requires 0.0 < budget < l.price
    ensures PriceTerm(l.price, Requirements(usage), budget) < 0.0
  {
    WeightsPositive(usage);
    assert l.price / budget > 1.0;
    assert PriceEfficiency(l.price, budget) < 0.0;
  }

  /** Under a profile that weighs price positively, of two laptops that differ only in price
      the cheaper scores strictly higher under a positive budget. */
  lemma ScoreCheaper(l: Laptop, p: Profile, budget: real, cheaper: real)
    requires budget > 0.0 && cheaper < l.price && Importance(p, Price, 0.25) > 0.0
    ensures Score(l.(price := cheaper), p, budget) > Score(l, p, budget)
  {
    assert cheaper / budget < l.price / budget;
    var w := Importance(p, Price, 0.25);
    assert PriceTerm(cheaper, p, budget) - PriceTerm(l.price, p, budget) == w * (l.price / budget - cheaper / budget);
    assert w * (l.price / budget - cheaper / budget) > 0.0;
  }

  /** Of two laptops that differ only in price, the cheaper scores strictly higher under a
      positive budget, whatever the usage type. */
  lemma CheaperIsBetter(l: Laptop, usage: UsageType, budget: real, cheaper: real)
    requires budget > 0.0 && cheaper < l.price
    ensures ScoreOf(l.(price := cheaper), usage, budget) > ScoreOf(l, usage, budget)
  {
    WeightsPositive(usage);
    ScoreCheaper(l, Requirements(usage), budget, cheaper);
  }

  /** Under a profile that weighs weight positively, of two laptops that differ only in a
      known weight the lighter never scores lower, and scores strictly higher when it weighs
      less than 3 kg. */
  lemma ScoreLighter(l: Laptop, p: Profile, budget: real, lighter: real, heavier: real)
    requires budget != 0.0 && lighter <= heavier && Importance(p, Weight, 0.1) > 0.0
    ensures Score(l.(weight := Some(lighter)), p, budget) >= Score(l.(weight := Some(heavier)), p, budget)
    ensures lighter < heavier && lighter < 3.0 ==>
              Score(l.(weight := Some(lighter)), p, budget) > Score(l.(weight := Some(heavier)), p, budget)
  {
    WeightTermMonotone(p, lighter, heavier);
  }

  /** The weight term never decreases for a lighter laptop, and increases below 3 kg. */
  lemma WeightTermMonotone(p: Profile, lighter: real, heavier: real)
    requires lighter <= heavier && Importance(p, Weight, 0.1) > 0.0
    ensures WeightTerm(Some(lighter), p) >= WeightTerm(Some(heavier), p)
    ensures lighter < heavier && lighter < 3.0 ==> WeightTerm(Some(lighter), p) > WeightTerm(Some(heavier), p)
  {
    assert WeightScore(lighter) >= WeightScore(heavier);
    assert lighter < heavier && lighter < 3.0 ==> WeightScore(lighter) > WeightScore(heavier);
    ScaleMonotone(Importance(p, Weight, 0.1), WeightScore(lighter), WeightScore(heavier));
  }

  /** Scaling by a positive weight keeps the order of two sub-scores. */
  lemma ScaleMonotone(w: real, x: real, y: real)
    requires w > 0.0 && x >= y
    ensures w * x >= w * y
    ensures x > y ==> w * x > w * y
  {
  }

  /** Of two laptops that differ only in a known weight, the lighter never scores lower, and
      scores strictly higher when it weighs less than 3 kg, whatever the usage type. */
  lemma LighterIsBetter(l: Laptop, usage: UsageType, budget: real, lighter: real, heavier: real)
    requires budget != 0.0 && lighter <= heavier
    ensures ScoreOf(l.(weight := Some(lighter)), usage, budget) >= ScoreOf(l.(weight := Some(heavier)), usage, budget)
    ensures lighter < heavier && lighter < 3.0 ==>
              ScoreOf(l.(weight := Some(lighter)), usage, budget) > ScoreOf(l.(weight := Some(heavier)), usage, budget)
  {
    WeightsPositive(usage);
    ScoreLighter(l, Requirements(usage), budget, lighter, heavier);
  }
}
