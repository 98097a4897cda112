/**
 * The in-memory series cache of the dashboard: one list of points per
 * indicator key, overwritten by a refresh and read by the getters. Fetching
 * is outside the model: `Refresh` receives what the fetchers returned.
 */
module State {
  import opened Series

  /** The indicators the cache starts with, in the order they are declared. */
  const IndicatorKeys: seq<string> :=
    ["ao", "sea_ice", "co2", "glaciers", "ghg", "nao", "ocean_heat", "oni", "temp"]

  /** The cache before the first refresh: every indicator, with no points. */
  function InitialCache(): (c: map<string, seq<Point>>)
    ensures forall k :: k in c <==> k in IndicatorKeys
    ensures forall k :: k in c ==> c[k] == []
  {
    map k | k in IndicatorKeys :: []
  }

  /** `cache.get(key, [])` */
  function Lookup(cache: map<string, seq<Point>>, key: string): (s: seq<Point>)
    ensures key !in cache ==> s == []
    ensures key in cache ==> s == cache[key]
  {
    if key in cache then cache[key] else []
  }

  /**
   * After a refresh a fetched key reads what was fetched and any other key
   * reads what it read before.
   */
  lemma LookupAfterRefresh(cache: map<string, seq<Point>>, fetched: map<string, seq<Point>>, key: string)
    ensures Lookup(cache + fetched, key) == if key in fetched then fetched[key] else Lookup(cache, key)
  {
  }

  /** The entries of `m` whose keys are in `ks`. */
  function Restrict(m: map<string, seq<Point>>, ks: set<string>): (r: map<string, seq<Point>>)
    requires ks <= m.Keys
    ensures r.Keys == ks && forall k :: k in r ==> r[k] == m[k]
  {
    map k | k in ks :: m[k]
  }

  lemma RestrictGrow(base: map<string, seq<Point>>, m: map<string, seq<Point>>, ks: set<string>, k: string)
    requires ks <= m.Keys && k in m
    ensures base + Restrict(m, ks + {k}) == (base + Restrict(m, ks))[k := m[k]]
  {
    var lhs, rhs := base + Restrict(m, ks + {k}), (base + Restrict(m, ks))[k := m[k]];
    assert lhs.Keys == rhs.Keys;
    forall j | j in lhs
      ensures lhs[j] == rhs[j]
    {
    }
  }

  class AppState {
    var cache: map<string, seq<Point>>

    /** Every indicator the dashboard knows has an entry. */
    predicate Valid()
      reads this
    {
      forall k :: k in IndicatorKeys ==> k in cache
    }

    /** `__init__`: the nine indicator keys, each with no points yet. */
    constructor ()
      ensures Valid() && cache == InitialCache()
    {
      cache := InitialCache();
    }

    /**
     * `refresh`: each fetched entry overwrites the cached one; keys that
     * were not fetched keep their points.
     */
    method Refresh(fetched: map<string, seq<Point>>)
      modifies this
      ensures cache == old(cache) + fetched
      ensures forall k :: k in fetched ==> cache[k] == fetched[k]
      ensures forall k :: k in old(cache) && k !in fetched ==> cache[k] == old(cache)[k]
      ensures old(Valid()) ==> Valid()
    {
      var pending := fetched.Keys;
      ghost var done: set<string> := {};
      while pending != {}
        invariant pending !! done && pending + done == fetched.Keys
        invariant cache == old(cache) + Restrict(fetched, done)
        decreases pending
      {
        var k :| k in pending;
        RestrictGrow(old(cache), fetched, done, k);
        cache := cache[k := fetched[k]];
        pending := pending - {k};
        done := done + {k};
      }
      assert Restrict(fetched, done) == fetched;
    }

    /** `get_series`: the cached points of `key`, none for an unknown key. */
    method GetSeries(key: string) returns (s: seq<Point>)
      ensures key in cache ==> s == cache[key]
      ensures key !in cache ==> s == []
      ensures Valid() && key in IndicatorKeys ==> s == cache[key]
    {
      s := Lookup(cache, key);
    }

    /** `get_all`: a copy of the whole cache. */
    method GetAll() returns (all: map<string, seq<Point>>)
      ensures all.Keys == cache.Keys
      ensures forall k :: k in all ==> all[k] == cache[k]
      ensures Valid() ==> forall k :: k in IndicatorKeys ==> k in all
    {
      all := map k | k in cache :: cache[k];
    }
  }
}
