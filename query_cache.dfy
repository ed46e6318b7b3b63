/** The part of the query library the hooks rely on: structured cache keys,
    non-exact (prefix) invalidation, and freshness against a stale time. */
module QueryCache {
  import opened Wrappers
  import opened Types

  /** One element of a query key array. */
  datatype Seg =
    | S(text: string)
    /** An element that is `undefined` (hashed as `null`). */
    | Absent
    /** `{ filters, sort, page }` of a case list key; absent properties are `None`. */
    | CaseListArgs(caseFilters: Option<CaseFilters>, sort: Option<SortConfig>, page: Option<int>)
    /** `{ filters, sort, page }` of a task list key. */
    | TaskListArgs(taskFilters: Option<TaskFilters>, sort: Option<SortConfig>, page: Option<int>)
    /** `{ page, size, status }`; `{ page, size }` is the same object with `status` absent. */
    | PageArgs(pageNumber: int, size: int, status: Option<seq<string>>)
    | Range(range: DateRange)

  type Key = seq<Seg>

  /** `p` is an element-wise prefix of `k`: the library's partial key match. */
  predicate IsPrefix(p: Key, k: Key) {
    |p| <= |k| && k[..|p|] == p
  }

  lemma PrefixTransitive(a: Key, b: Key, c: Key)
    requires IsPrefix(a, b) && IsPrefix(b, c)
    ensures IsPrefix(a, c)
  {
    assert c[..|a|] == c[..|b|][..|a|];
  }

  /** A key under a prefix of two or more segments has that prefix's second segment. */
  lemma SecondSegment(p: Key, k: Key)
    requires |p| >= 2
    ensures IsPrefix(p, k) ==> k[1] == p[1]
  {
    if IsPrefix(p, k) {
      assert k[..|p|][1] == p[1];
    }
  }

  /** Some key of `prefixes` is a prefix of `k`. */
  predicate Matches(prefixes: seq<Key>, k: Key) {
    exists i :: 0 <= i < |prefixes| && IsPrefix(prefixes[i], k)
  }

  /** Matching against a literal list of one to five prefixes is matching one of them. */
  lemma Matches1(a: Key, k: Key)
    ensures Matches([a], k) <==> IsPrefix(a, k)
  {
    assert [a][0] == a;
  }

  lemma Matches2(a: Key, b: Key, k: Key)
    ensures Matches([a, b], k) <==> IsPrefix(a, k) || IsPrefix(b, k)
  {
    var ps := [a, b];
    assert ps[0] == a && ps[1] == b;
  }

  lemma Matches3(a: Key, b: Key, c: Key, k: Key)
    ensures Matches([a, b, c], k) <==> IsPrefix(a, k) || IsPrefix(b, k) || IsPrefix(c, k)
  {
    var ps := [a, b, c];
    assert ps[0] == a && ps[1] == b && ps[2] == c;
  }

  lemma Matches4(a: Key, b: Key, c: Key, d: Key, k: Key)
    ensures Matches([a, b, c, d], k) <==> IsPrefix(a, k) || IsPrefix(b, k) || IsPrefix(c, k) || IsPrefix(d, k)
  {
    var ps := [a, b, c, d];
    assert ps[0] == a && ps[1] == b && ps[2] == c && ps[3] == d;
  }

  lemma Matches5(a: Key, b: Key, c: Key, d: Key, e: Key, k: Key)
    ensures Matches([a, b, c, d, e], k) <==>
      IsPrefix(a, k) || IsPrefix(b, k) || IsPrefix(c, k) || IsPrefix(d, k) || IsPrefix(e, k)
  {
    var ps := [a, b, c, d, e];
    assert ps[0] == a && ps[1] == b && ps[2] == c && ps[3] == d && ps[4] == e;
  }

  /** One cached query result. */
  datatype Entry = Entry(data: string, fetchedAt: int, invalidated: bool)

  /** An entry is fresh while it has not been invalidated and its stale time has not elapsed. */
  predicate IsFresh(e: Entry, staleTime: nat, now: int) {
    !e.invalidated && now < e.fetchedAt + staleTime
  }

  /** Every entry under one of `prefixes`, marked invalidated. */
  function MarkStale(entries: map<Key, Entry>, prefixes: seq<Key>): (r: map<Key, Entry>)
    ensures r.Keys == entries.Keys
  {
    map k | k in entries :: if Matches(prefixes, k) then entries[k].(invalidated := true) else entries[k]
  }

  /** Invalidation keeps every key and every payload; it flips the flag of exactly the matched
      entries and leaves the others as they were. */
  lemma MarkStaleEffect(entries: map<Key, Entry>, prefixes: seq<Key>, k: Key)
    requires k in entries
    ensures k in MarkStale(entries, prefixes)
    ensures MarkStale(entries, prefixes)[k].data == entries[k].data
    ensures MarkStale(entries, prefixes)[k].fetchedAt == entries[k].fetchedAt
    ensures MarkStale(entries, prefixes)[k].invalidated <==> entries[k].invalidated || Matches(prefixes, k)
    ensures !Matches(prefixes, k) ==> MarkStale(entries, prefixes)[k] == entries[k]
  {
  }

  /** Only the set of prefixes matters, not their order or repetition. */
  lemma MarkStaleSameSet(entries: map<Key, Entry>, p: seq<Key>, q: seq<Key>)
    requires forall i :: 0 <= i < |p| ==> p[i] in q
    requires forall j :: 0 <= j < |q| ==> q[j] in p
    ensures MarkStale(entries, p) == MarkStale(entries, q)
  {
    forall k | k in entries ensures Matches(p, k) <==> Matches(q, k) {
      if Matches(p, k) {
        var i :| 0 <= i < |p| && IsPrefix(p[i], k);
        var j :| 0 <= j < |q| && q[j] == p[i];
      }
      if Matches(q, k) {
        var j :| 0 <= j < |q| && IsPrefix(q[j], k);
        var i :| 0 <= i < |p| && p[i] == q[j];
      }
    }
  }

  /** A prefix that extends another prefix of the same list adds nothing: dropping it
      invalidates the same entries. */
  lemma SubsumedPrefix(prefixes: seq<Key>, i: nat, j: nat, k: Key)
    requires i < |prefixes| && j < |prefixes| && i != j
    requires IsPrefix(prefixes[j], prefixes[i])
    ensures Matches(prefixes, k) <==> Matches(prefixes[..i] + prefixes[i + 1..], k)
  {
    var rest := prefixes[..i] + prefixes[i + 1..];
    var j' := if j < i then j else j - 1;
    assert rest[j'] == prefixes[j];
    if Matches(prefixes, k) {
      var m :| 0 <= m < |prefixes| && IsPrefix(prefixes[m], k);
      if m == i {
        PrefixTransitive(prefixes[j], prefixes[i], k);
      } else {
        var m' := if m < i then m else m - 1;
        assert rest[m'] == prefixes[m];
      }
    }
    if Matches(rest, k) {
      var m :| 0 <= m < |rest| && IsPrefix(rest[m], k);
      var m' := if m < i then m else m + 1;
      assert prefixes[m'] == rest[m];
    }
  }

  lemma MatchesSnoc(prefixes: seq<Key>, p: Key, k: Key)
    ensures Matches(prefixes + [p], k) <==> Matches(prefixes, k) || IsPrefix(p, k)
  {
    var ps := prefixes + [p];
    assert ps[|prefixes|] == p;
    if Matches(prefixes, k) {
      var i :| 0 <= i < |prefixes| && IsPrefix(prefixes[i], k);
      assert ps[i] == prefixes[i];
    }
    if Matches(ps, k) {
      var i :| 0 <= i < |ps| && IsPrefix(ps[i], k);
      if i < |prefixes| { assert ps[i] == prefixes[i]; }
    }
  }

  /** Invalidating one prefix after a list of them is invalidating the longer list. */
  lemma MarkStaleSnoc(entries: map<Key, Entry>, prefixes: seq<Key>, p: Key)
    ensures MarkStale(MarkStale(entries, prefixes), [p]) == MarkStale(entries, prefixes + [p])
  {
    forall k | k in entries
      ensures MarkStale(MarkStale(entries, prefixes), [p])[k] == MarkStale(entries, prefixes + [p])[k]
    {
      MatchesSnoc(prefixes, p, k);
      MatchesSnoc([], p, k);
    }
  }

  /** The shared query client: the cache, keyed by query key. */
  class QueryClient {
    var entries: map<Key, Entry>

    constructor ()
      ensures entries == map[]
    {
      entries := map[];
    }

    /** A query for `k` resolved with `data` at time `now`. */
    method Resolve(k: Key, data: string, now: int)
      modifies this
      ensures entries == old(entries)[k := Entry(data, now, false)]
    {
      entries := entries[k := Entry(data, now, false)];
    }

    /** `invalidateQueries({ queryKey: prefix })`. */
    method InvalidateQueries(prefix: Key)
      modifies this
      ensures entries == MarkStale(old(entries), [prefix])
    {
      entries := map k | k in entries :: if IsPrefix(prefix, k) then entries[k].(invalidated := true) else entries[k];
      forall k ensures Matches([prefix], k) <==> IsPrefix(prefix, k) {
        Matches1(prefix, k);
      }
    }

    /** The `invalidateQueries` calls of one `onSuccess` handler, in order. */
    method InvalidateAll(prefixes: seq<Key>)
      modifies this
      ensures entries == MarkStale(old(entries), prefixes)
    {
      var i := 0;
      while i < |prefixes|
        invariant 0 <= i <= |prefixes|
        invariant entries == MarkStale(old(entries), prefixes[..i])
      {
        MarkStaleSnoc(old(entries), prefixes[..i], prefixes[i]);
        InvalidateQueries(prefixes[i]);
        assert prefixes[..i + 1] == prefixes[..i] + [prefixes[i]];
        i := i + 1;
      }
      assert prefixes[..i] == prefixes;
    }

    /** A mutation settled: its invalidations run only from `onSuccess`. */
    method Settle(prefixes: seq<Key>, succeeded: bool)
      modifies this
      ensures entries == if succeeded then MarkStale(old(entries), prefixes) else old(entries)
    {
      if succeeded {
        InvalidateAll(prefixes);
      }
    }
  }

  /** What a mounted query observes: the cached data, if any, and whether it fetches. */
  datatype Observation = Observation(data: Option<string>, fetches: bool)

  /** Mounting an observer for `k`: a cached value is shown at once, and a fetch starts when
      the query is enabled and the value is missing or not fresh. */
  function Observe(entries: map<Key, Entry>, k: Key, staleTime: nat, now: int, enabled: bool): (o: Observation)
    ensures o.data.Some? <==> k in entries
    ensures o.data.Some? ==> o.data.value == entries[k].data
    ensures o.fetches <==> enabled && !(k in entries && IsFresh(entries[k], staleTime, now))
  {
    if k in entries then
      Observation(Some(entries[k].data), enabled && !IsFresh(entries[k], staleTime, now))
    else
      Observation(None, enabled)
  }
}
