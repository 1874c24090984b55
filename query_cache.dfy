/**
 * The part of the client's shared query cache that the dashboard's code
 * touches: `getQueryData`, `setQueryData`, `invalidateQueries` and
 * `cancelQueries`, plus the arrival of a fetch's result, which is what
 * `cancelQueries` guards against. An entry holds the last known data and an
 * "invalidated" flag; timers, observers and the freshness clock are outside
 * the model. How a filter key selects entries is not fixed by the
 * application's code, so it is a parameter of the cache (`MatchRule`).
 */
module QueryCache {
  import opened Wrappers

  /** A query key: its segments, compared segment by segment. */
  type QueryKey = seq<string>

  /** How a filter key selects entries: the key itself, or every key it is a prefix of. */
  datatype MatchRule = Exact | Prefix

  /** Under either rule a filter selects its own key, and only keys it is a prefix of. */
  predicate Matches(rule: MatchRule, filter: QueryKey, key: QueryKey)
    ensures key == filter ==> Matches(rule, filter, key)
    ensures Matches(rule, filter, key) ==> filter <= key
  {
    match rule
    case Exact => key == filter
    case Prefix => filter <= key
  }

  /** A query's settings: its key, how long its data stays fresh, and its polling interval. */
  datatype QueryConfig = QueryConfig(key: QueryKey, staleTimeMs: nat, refetchIntervalMs: Option<nat>)

  /** A cached query: its data, if any has arrived or been written, and whether it was invalidated. */
  datatype Entry<D> = Entry(data: Option<D>, stale: bool)

  /** The entries after invalidating `filter`: every matching entry is flagged, nothing else changes. */
  function Invalidated<D>(entries: map<QueryKey, Entry<D>>, rule: MatchRule, filter: QueryKey): (r: map<QueryKey, Entry<D>>)
    ensures r.Keys == entries.Keys
    ensures forall k :: k in r ==> r[k].data == entries[k].data
    ensures forall k :: k in r ==> (r[k].stale <==> entries[k].stale || Matches(rule, filter, k))
  {
    map k | k in entries :: if Matches(rule, filter, k) then entries[k].(stale := true) else entries[k]
  }

  /** The in-flight fetches that survive cancelling `filter`. */
  function Cancelled(fetching: set<QueryKey>, rule: MatchRule, filter: QueryKey): (r: set<QueryKey>)
    ensures r <= fetching
    ensures forall k :: k in fetching ==> (k in r <==> !Matches(rule, filter, k))
  {
    set k | k in fetching && !Matches(rule, filter, k)
  }

  /** The data an entry map holds for `key`, absent when the key has no entry or no data. */
  function DataAt<D>(entries: map<QueryKey, Entry<D>>, key: QueryKey): (r: Option<D>)
    ensures r.Some? <==> key in entries && entries[key].data.Some?
    ensures r.Some? ==> entries[key].data == r
  {
    if key in entries then entries[key].data else None
  }

  /** Cancelling the same filter twice drops no more than cancelling it once. */
  lemma CancelIdempotent(fetching: set<QueryKey>, rule: MatchRule, filter: QueryKey)
    ensures Cancelled(Cancelled(fetching, rule, filter), rule, filter) == Cancelled(fetching, rule, filter)
  {
  }

  class Cache<D> {
    /** How filter keys select entries. */
    const rule: MatchRule
    var entries: map<QueryKey, Entry<D>>
    /** Keys whose fetch is in flight and has not been cancelled. */
    var fetching: set<QueryKey>

    constructor (rule: MatchRule, entries: map<QueryKey, Entry<D>>, fetching: set<QueryKey>)
      ensures this.rule == rule && this.entries == entries && this.fetching == fetching
    {
      this.rule := rule;
      this.entries := entries;
      this.fetching := fetching;
    }

    /** `getQueryData(key)`: the key's data, absent when the key has no entry or no data. */
    function GetQueryData(key: QueryKey): (r: Option<D>)
      reads this
      ensures r == DataAt(entries, key)
    {
      DataAt(entries, key)
    }

    /** `setQueryData(key, data)`: writes the data and clears the invalidated flag. */
    method SetQueryData(key: QueryKey, data: D)
      modifies this
      ensures entries == old(entries)[key := Entry(Some(data), false)]
      ensures fetching == old(fetching)
    {
      entries := entries[key := Entry(Some(data), false)];
    }

    /** `invalidateQueries({ queryKey: filter })`. */
    method InvalidateQueries(filter: QueryKey)
      modifies this
      ensures entries == Invalidated(old(entries), rule, filter)
      ensures fetching == old(fetching)
    {
      entries := Invalidated(entries, rule, filter);
    }

    /** `cancelQueries({ queryKey: filter })`: in-flight fetches of matching keys are dropped. */
    method CancelQueries(filter: QueryKey)
      modifies this
      ensures entries == old(entries)
      ensures fetching == Cancelled(old(fetching), rule, filter)
    {
      fetching := Cancelled(fetching, rule, filter);
    }

    /** A query function starts fetching `key`. */
    method StartFetch(key: QueryKey)
      modifies this
      ensures entries == old(entries)
      ensures fetching == old(fetching) + {key}
    {
      fetching := fetching + {key};
    }

    /**
     * The fetch of `key` completes with `result` (`None` when it rejected).
     * A cancelled fetch changes nothing; a successful one stores its data
     * and clears the flag; a rejected one keeps the data it had.
     */
    method ResolveFetch(key: QueryKey, result: Option<D>)
      modifies this
      ensures key !in old(fetching) ==> entries == old(entries) && fetching == old(fetching)
      ensures key in old(fetching) ==> fetching == old(fetching) - {key}
      ensures key in old(fetching) && result.Some? ==> entries == old(entries)[key := Entry(result, false)]
      ensures key in old(fetching) && result.None? ==> entries == old(entries)
    {
      if key in fetching {
        fetching := fetching - {key};
        if result.Some? {
          entries := entries[key := Entry(result, false)];
        }
      }
    }
  }
}
