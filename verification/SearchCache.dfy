/** The version-stamped result cache and the search that reads through it. */
module SearchCache {
  import opened Prelude
  import opened Rows

  const TWO64: nat := 0x1_0000_0000_0000_0000

  datatype Entry = Entry(data: seq<Row>, version: nat)

  /** An entry answers only while its stamp is the current version. */
  function Fresh(cache: map<string, Entry>, version: nat, query: string): Option<seq<Row>> {
    if query in cache && cache[query].version == version then Some(cache[query].data) else None
  }

  /** The version after `bumps` invalidations: a 64-bit counter that wraps. */
  function VersionAfter(bumps: nat): nat {
    bumps % TWO64
  }

  /** Versions tell bump counts apart as long as fewer than 2^64 bumps lie between them. */
  lemma VersionsAreDistinct(stamped: nat, now: nat)
    requires stamped <= now < stamped + 0x1_0000_0000_0000_0000
    ensures VersionAfter(stamped) == VersionAfter(now) <==> stamped == now
  {
    assert stamped == stamped / TWO64 * TWO64 + stamped % TWO64;
    assert now == now / TWO64 * TWO64 + now % TWO64;
  }

  class CacheHandle {
    var cache: map<string, Entry>
    var version: nat
    ghost var bumps: nat

    ghost predicate Valid()
      reads this
    {
      version == VersionAfter(bumps)
    }

    constructor ()
      ensures Valid() && cache == map[] && bumps == 0
    {
      cache, version, bumps := map[], 0, 0;
    }

    method Get(query: string) returns (results: Option<seq<Row>>)
      ensures results == Fresh(cache, version, query)
    {
      if query !in cache {
        return None;
      }
      var entry := cache[query];
      if entry.version != version {
        return None;
      }
      results := Some(entry.data);
    }

    method Insert(query: string, results: seq<Row>)
      requires Valid()
      modifies this`cache
      ensures Valid() && cache == old(cache)[query := Entry(results, VersionAfter(bumps))]
    {
      var entry := Entry(results, version);
      cache := cache[query := entry];
    }

    /** `fetch_add` on a 64-bit counter. */
    method InvalidateAll()
      requires Valid()
      modifies this`version, this`bumps
      ensures Valid() && bumps == old(bumps) + 1
    {
      assert (bumps + 1) % TWO64 == (bumps % TWO64 + 1) % TWO64;
      version := (version + 1) % TWO64;
      bumps := bumps + 1;
    }

    /** Expiry or eviction by the cache library. */
    method Evict(query: string)
      requires Valid()
      modifies this`cache
      ensures Valid() && cache == old(cache) - {query}
    {
      cache := cache - {query};
    }
  }

  /** Right after an invalidation every stamped entry misses: no walk of the cache is needed. */
  lemma InvalidationMissesAll(cache: map<string, Entry>, stamps: map<string, nat>, bumps: nat, query: string)
    requires query in cache ==> query in stamps && cache[query].version == VersionAfter(stamps[query])
    requires query in cache ==> stamps[query] <= bumps && bumps + 1 < stamps[query] + TWO64
    ensures Fresh(cache, VersionAfter(bumps + 1), query) == None
  {
    if query in cache {
      VersionsAreDistinct(stamps[query], bumps + 1);
    }
  }

  /** What was stored is what is found under its query, and no other query notices,
      until the next invalidation. */
  lemma FoundAfterInsert(cache: map<string, Entry>, query: string, results: seq<Row>, bumps: nat, other: string)
    ensures var stored := cache[query := Entry(results, VersionAfter(bumps))];
      && Fresh(stored, VersionAfter(bumps), query) == Some(results)
      && Fresh(stored, VersionAfter(bumps + 1), query) == None
      && (other != query ==> Fresh(stored, VersionAfter(bumps), other) == Fresh(cache, VersionAfter(bumps), other))
  {
    VersionsAreDistinct(bumps, bumps + 1);
  }

  // ---- The `search` server function ----

  datatype Outcome = Results(rows: seq<Row>) | InvalidQuery | Unavailable

  /** The answer of the database to the search query. */
  datatype DbAnswer = DbRows(rows: seq<Row>) | DbError

  /** `normalise` trims and lower-cases; `ctx` is null before the service is set up. */
  method Search(ctx: CacheHandle?, query: string, normalise: string -> string, db: DbAnswer) returns (r: Outcome)
    requires ctx != null ==> ctx.Valid()
    modifies if ctx == null then {} else {ctx}
    ensures ctx == null ==> r == Unavailable
    ensures ctx != null ==> ctx.Valid() && ctx.bumps == old(ctx.bumps)
    ensures ctx != null && !(1 <= |normalise(query)| <= 1024) ==> r == InvalidQuery && ctx.cache == old(ctx.cache)
    ensures ctx != null && 1 <= |normalise(query)| <= 1024 ==>
      var key := normalise(query);
      if key in old(ctx.cache) && old(ctx.cache)[key].version == old(ctx.version) then
        r == Results(old(ctx.cache)[key].data) && ctx.cache == old(ctx.cache)
      else
        match db
        case DbError => r == Unavailable && ctx.cache == old(ctx.cache)
        case DbRows(rows) =>
          r == Results(rows) && ctx.cache == old(ctx.cache)[key := Entry(rows, VersionAfter(ctx.bumps))]
  {
    if ctx == null {
      return Unavailable;
    }
    var trimmed := normalise(query);
    if !(1 <= |trimmed| <= 1024) {
      return InvalidQuery;
    }
    var cached := ctx.Get(trimmed);
    if cached.Some? {
      return Results(cached.value);
    }
    match db
    case DbError => r := Unavailable;
    case DbRows(rows) =>
      ctx.Insert(trimmed, rows);
      r := Results(rows);
  }
}
