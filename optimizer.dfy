/** `MarketOptimizerAgent`: its bounded result cache, which evicts the entry with the
    oldest timestamp, and its value filters. */
module Optimizer {
  import opened Results
  import opened Values

  const DefaultCacheSize := 1000
  /** What `min()` raises on the empty timestamp table (a full cache of size <= 0). */
  const EmptyMinError := "min() arg is an empty sequence"

  /** Key prefixes of the three cached optimizations; the suffix is the hash of the
      session data, an opaque digest here. */
  const CalcPrefix := "calc_opt_"
  const PerfPrefix := "perf_opt_"
  const ValPrefix := "val_opt_"

  function CacheKey(prefix: string, digest: string): string
  {
    prefix + digest
  }

  /** The three optimizations never share a cache entry. */
  lemma CacheKeysOfKindsDiffer(d1: string, d2: string)
    ensures CacheKey(CalcPrefix, d1) != CacheKey(PerfPrefix, d2)
    ensures CacheKey(CalcPrefix, d1) != CacheKey(ValPrefix, d2)
    ensures CacheKey(PerfPrefix, d1) != CacheKey(ValPrefix, d2)
  {
    assert CacheKey(CalcPrefix, d1)[0] == 'c';
    assert CacheKey(PerfPrefix, d1)[0] == 'p' && CacheKey(PerfPrefix, d2)[0] == 'p';
    assert CacheKey(ValPrefix, d2)[0] == 'v';
  }

  datatype CacheStats = CacheStats(hits: int, misses: int)

  /** `k` carries the smallest timestamp of `ts`. */
  ghost predicate IsOldest(ts: map<string, int>, k: string)
  {
    k in ts && forall j :: j in ts ==> ts[k] <= ts[j]
  }

  /** No two keys share a timestamp. */
  ghost predicate DistinctStamps(ts: map<string, int>)
  {
    forall a, b :: a in ts && b in ts && a != b ==> ts[a] != ts[b]
  }

  /** With distinct timestamps the oldest entry is unique, so eviction does not depend
      on how `min` breaks ties. */
  lemma OldestIsUnique(ts: map<string, int>, k1: string, k2: string)
    requires DistinctStamps(ts) && IsOldest(ts, k1) && IsOldest(ts, k2)
    ensures k1 == k2
  {
    assert ts[k1] <= ts[k2] && ts[k2] <= ts[k1];
  }

  ghost predicate StampsBelow(ts: map<string, int>, clock: int)
  {
    forall k :: k in ts ==> ts[k] < clock
  }

  /** Stamping `key` with the clock's reading keeps the stamps below the advanced
      clock and pairwise distinct. */
  lemma StampWithClock(ts: map<string, int>, clock: int, key: string)
    requires StampsBelow(ts, clock) && DistinctStamps(ts)
    ensures StampsBelow(ts[key := clock], clock + 1) && DistinctStamps(ts[key := clock])
  {
  }

  /** `validation.get(flag, False)`, read for truthiness. */
  predicate Flag(validation: Dict, flag: string)
  {
    flag in validation && Truthy(validation[flag])
  }

  /** `validation.get(key, default)`. */
  function Setting(validation: Dict, key: string, default: Value): Value
  {
    if key in validation then validation[key] else default
  }

  /** `_validate_value`. The chained `min_val <= value <= max_val` stops at the first
      false comparison; a comparison between values Python cannot order raises. */
  function ValidateValue(value: Value, validation: Dict): (r: Result<bool>)
    ensures r.Err? ==> Flag(validation, "check_range") && !(Flag(validation, "check_numeric") && !IsNumber(value))
    ensures r.Err? ==> !IsNumber(value) || !IsNumber(Setting(validation, "min_value", VFloat(NegInfinity)))
                       || !IsNumber(Setting(validation, "max_value", VFloat(PosInfinity)))
  {
    if Flag(validation, "check_numeric") && !IsNumber(value) then Ok(false)
    else if Flag(validation, "check_range") then
      var minVal := Setting(validation, "min_value", VFloat(NegInfinity));
      var maxVal := Setting(validation, "max_value", VFloat(PosInfinity));
      match LessEq(minVal, value)
      case Err(e) => Err(e)
      case Ok(low) =>
        if !low then Ok(false)
        else match LessEq(value, maxVal)
          case Err(e) => Err(e)
          case Ok(high) => Ok(high)
    else Ok(true)
  }

  /** Without `check_numeric` and `check_range` every value is accepted. */
  lemma NoChecksAcceptAll(value: Value, validation: Dict)
    requires !Flag(validation, "check_numeric") && !Flag(validation, "check_range")
    ensures ValidateValue(value, validation) == Ok(true)
  {
  }

  /** `check_numeric` rejects every non-number, whatever the range settings. */
  lemma NumericCheckRejectsNonNumbers(value: Value, validation: Dict)
    requires Flag(validation, "check_numeric") && !IsNumber(value)
    ensures ValidateValue(value, validation) == Ok(false)
  {
  }

  /** For a number, the range check accepts exactly the values between the bounds
      (unbounded on a side whose bound is not given), on the extended real line. */
  lemma RangeCheckMeaning(value: Value, validation: Dict)
    requires Flag(validation, "check_range") && IsNumber(value)
    requires IsNumber(Setting(validation, "min_value", VFloat(NegInfinity)))
    requires IsNumber(Setting(validation, "max_value", VFloat(PosInfinity)))
    ensures ValidateValue(value, validation).Ok?
    ensures ValidateValue(value, validation).value <==>
      && ExtendedLessEq(ToExtended(Setting(validation, "min_value", VFloat(NegInfinity))), ToExtended(value))
      && ExtendedLessEq(ToExtended(value), ToExtended(Setting(validation, "max_value", VFloat(PosInfinity))))
  {
  }

  /** The entries of `data` whose value passes `_validate_value`, with key and value kept. */
  function Accepted(data: Dict, validation: Dict): (r: Dict)
  {
    map k | k in data && ValidateValue(data[k], validation) == Ok(true) :: data[k]
  }

  /** The filter keeps a sub-map: exactly the accepted keys, each with its own value,
      and with no checks configured it keeps everything. */
  lemma AcceptedIsSubmap(data: Dict, validation: Dict)
    ensures forall k :: k in Accepted(data, validation) <==> k in data && ValidateValue(data[k], validation) == Ok(true)
    ensures forall k :: k in Accepted(data, validation) ==> Accepted(data, validation)[k] == data[k]
    ensures !Flag(validation, "check_numeric") && !Flag(validation, "check_range") ==> Accepted(data, validation) == data
  {
    if !Flag(validation, "check_numeric") && !Flag(validation, "check_range") {
      forall k | k in data ensures ValidateValue(data[k], validation) == Ok(true) {
        NoChecksAcceptAll(data[k], validation);
      }
    }
  }

  class MarketOptimizerAgent {
    const cacheSize: int
    var cache: map<string, Value>
    var cacheTimestamps: map<string, int>
    /** The reading the clock gives next: every stamp is taken from it, and it only
        moves forward. */
    var clock: int

    ghost predicate Valid()
      reads this
    {
      && cache.Keys == cacheTimestamps.Keys
      && StampsBelow(cacheTimestamps, clock)
      && DistinctStamps(cacheTimestamps)
      && |cache| <= (if cacheSize > 0 then cacheSize else 0)
    }

    /** `__init__`'s cache part: `cache_size` defaults to 1000, then `_init_cache`. */
    constructor(configuredSize: Option<int>, start: int)
      ensures cacheSize == if configuredSize.Some? then configuredSize.value else DefaultCacheSize
      ensures Valid() && cache == map[] && cacheTimestamps == map[] && clock == start
    {
      cacheSize := if configuredSize.Some? then configuredSize.value else DefaultCacheSize;
      clock := start;
      new;
      InitCache();
    }

    /** `_init_cache`. */
    method InitCache()
      modifies this
      ensures cache == map[] && cacheTimestamps == map[] && clock == old(clock)
    {
      cache := map[];
      cacheTimestamps := map[];
    }

    /** `min(cache_timestamps.items(), key=lambda x: x[1])[0]`. */
    method FindOldest() returns (oldest: string)
      requires Valid() && cacheTimestamps != map[]
      ensures IsOldest(cacheTimestamps, oldest)
    {
      var keys := cacheTimestamps.Keys;
      oldest :| oldest in keys;
      keys := keys - {oldest};
      while keys != {}
        invariant keys <= cacheTimestamps.Keys && oldest in cacheTimestamps
        invariant forall k :: k in cacheTimestamps && k !in keys ==> cacheTimestamps[oldest] <= cacheTimestamps[k]
        decreases keys
      {
        var k :| k in keys;
        if cacheTimestamps[k] < cacheTimestamps[oldest] {
          oldest := k;
        }
        keys := keys - {k};
      }
    }

    /** `_update_cache`. A full cache first loses its oldest entry, even when `key` is
        already cached; then `key` gets `value` and the newest timestamp. With a
        non-positive size the cache is always full and empty, and `min` raises. */
    method UpdateCache(key: string, value: Value) returns (r: Outcome)
      requires Valid()
      modifies this
      ensures Valid()
      ensures cacheSize <= 0 ==>
        r == Fail(EmptyMinError) && cache == old(cache) && cacheTimestamps == old(cacheTimestamps) && clock == old(clock)
      ensures cacheSize > 0 ==>
        && r == Pass
        && clock == old(clock) + 1
        && key in cache && cache[key] == value
        && (forall k :: k in cacheTimestamps && k != key ==> cacheTimestamps[k] < cacheTimestamps[key])
        && (|old(cache)| < cacheSize ==>
              cache == old(cache)[key := value] && cacheTimestamps == old(cacheTimestamps)[key := old(clock)])
        && (|old(cache)| >= cacheSize ==>
              exists victim :: IsOldest(old(cacheTimestamps), victim)
                && cache == (old(cache) - {victim})[key := value]
                && cacheTimestamps == (old(cacheTimestamps) - {victim})[key := old(clock)])
    {
      ghost var victim := key;
      if |cache| >= cacheSize {
        if cacheTimestamps == map[] {
          assert |cache| == |cache.Keys| == 0;
          return Fail(EmptyMinError);
        }
        victim := EvictOldest();
      }
      StampWithClock(cacheTimestamps, clock, key);
      assert |cache[key := value]| <= |cache| + 1;
      cache := cache[key := value];
      cacheTimestamps := cacheTimestamps[key := clock];
      clock := clock + 1;
      r := Pass;
    }

    /** The eviction step of `_update_cache`: the entry with the oldest timestamp
        leaves both tables. */
    method EvictOldest() returns (victim: string)
      requires Valid() && cacheTimestamps != map[]
      modifies this
      ensures IsOldest(old(cacheTimestamps), victim)
      ensures cache == old(cache) - {victim} && cacheTimestamps == old(cacheTimestamps) - {victim}
      ensures clock == old(clock) && |cache| == |old(cache)| - 1
      ensures Valid()
    {
      victim := FindOldest();
      cache := cache - {victim};
      cacheTimestamps := cacheTimestamps - {victim};
    }

    /** The cache-hit path of `_optimize_calculations`, `_optimize_performance` and
        `_optimize_validation`: a hit returns the stored value and refreshes only
        that key's timestamp; a miss changes nothing. */
    method Recall(key: string) returns (r: Option<Value>)
      requires Valid()
      modifies this
      ensures Valid() && cache == old(cache)
      ensures key in old(cache) ==>
        r == Some(old(cache)[key])
        && cacheTimestamps == old(cacheTimestamps)[key := old(clock)] && clock == old(clock) + 1
      ensures key !in old(cache) ==> r == None && cacheTimestamps == old(cacheTimestamps) && clock == old(clock)
    {
      if key !in cache {
        return None;
      }
      cacheTimestamps := cacheTimestamps[key := clock];
      clock := clock + 1;
      r := Some(cache[key]);
    }

    /** One `_optimize_*` call, with `computed` standing for the model's parsed answer:
        a hit is served from the cache, a miss caches and returns `computed`. */
    method Optimize(key: string, computed: Value) returns (r: Result<Value>)
      requires Valid()
      modifies this
      ensures Valid()
      ensures key in old(cache) ==>
        && r == Ok(old(cache)[key]) && cache == old(cache)
        && cacheTimestamps == old(cacheTimestamps)[key := old(clock)] && clock == old(clock) + 1
      ensures key !in old(cache) && cacheSize <= 0 ==>
        r == Err(EmptyMinError) && cache == old(cache) && cacheTimestamps == old(cacheTimestamps) && clock == old(clock)
      ensures key !in old(cache) && cacheSize > 0 ==>
        && r == Ok(computed)
        && clock == old(clock) + 1
        && key in cacheTimestamps
        && (forall k :: k in cacheTimestamps && k != key ==> cacheTimestamps[k] < cacheTimestamps[key])
        && (|old(cache)| < cacheSize ==>
              cache == old(cache)[key := computed] && cacheTimestamps == old(cacheTimestamps)[key := old(clock)])
        && (|old(cache)| >= cacheSize ==>
              exists victim :: IsOldest(old(cacheTimestamps), victim)
                && cache == (old(cache) - {victim})[key := computed]
                && cacheTimestamps == (old(cacheTimestamps) - {victim})[key := old(clock)])
    {
      var hit := Recall(key);
      if hit.Some? {
        return Ok(hit.value);
      }
      var stored := UpdateCache(key, computed);
      if stored.Fail? {
        return Err(stored.error);
      }
      r := Ok(computed);
    }

    /** `_get_cache_stats`: under the shared key set, every entry counts as a hit
        and there are no misses. */
    function GetCacheStats(): (r: CacheStats)
      requires Valid()
      reads this
      ensures r == CacheStats(|cache|, 0)
    {
      assert |cache| == |cache.Keys| == |cacheTimestamps.Keys| == |cacheTimestamps|;
      CacheStats(|cacheTimestamps|, |cache| - |cacheTimestamps|)
    }

    /** `_process_validations`, and `_validate_optimized_results`, which has the same
        body: the entries whose value passes `_validate_value`. A comparison that
        raises ends the loop with its error. */
    method ProcessValidations(data: Dict, validation: Dict) returns (r: Result<Dict>)
      ensures r.Ok? <==> forall k :: k in data ==> ValidateValue(data[k], validation).Ok?
      ensures r.Ok? ==> r.value == Accepted(data, validation)
      ensures r.Err? ==> exists k :: k in data && ValidateValue(data[k], validation) == Err(r.error)
    {
      var results: Dict := map[];
      var pending := data.Keys;
      while pending != {}
        invariant pending <= data.Keys
        invariant forall k :: k in data && k !in pending ==> ValidateValue(data[k], validation).Ok?
        invariant results == map k | k in data && k !in pending && ValidateValue(data[k], validation) == Ok(true) :: data[k]
        decreases pending
      {
        var key :| key in pending;
        var verdict := ValidateValue(data[key], validation);
        if verdict.Err? {
          return Err(verdict.error);
        }
        if verdict.value {
          results := results[key := data[key]];
        }
        pending := pending - {key};
      }
      r := Ok(results);
    }
  }
}
