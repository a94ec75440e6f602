/**
 * The search history: newest entry first, at most `MaxHistory` entries, one
 * entry per query text. `Added` and `Removed` are the values the controller's
 * `addToHistory` and `removeFromHistory` leave in its history field.
 */
module History {
  import opened Sequences
  import opened Engines

  /** The cap `addToHistory` trims the history to. */
  const MaxHistory: nat := 50

  /**
   * One past search. `id` is the creation time in milliseconds (`Date.now()`),
   * `timestamp` the ISO-8601 text of the same instant, `engine` the engine key
   * that was current at the time.
   */
  datatype HistoryEntry = HistoryEntry(id: int, query: string, engine: string, timestamp: string)

  /** The filter predicate of `addToHistory`: keep the entries of another query. */
  function OtherQuery(q: string): HistoryEntry -> bool {
    (e: HistoryEntry) => e.query != q
  }

  /** The filter predicate of `removeFromHistory`: keep the entries with another id. */
  function OtherId(id: int): HistoryEntry -> bool {
    (e: HistoryEntry) => e.id != id
  }

  predicate HasQuery(h: seq<HistoryEntry>, q: string) {
    exists k :: 0 <= k < |h| && h[k].query == q
  }

  predicate HasId(h: seq<HistoryEntry>, id: int) {
    exists k :: 0 <= k < |h| && h[k].id == id
  }

  /** No two entries record the same query text. */
  predicate UniqueQueries(h: seq<HistoryEntry>) {
    forall i, j :: 0 <= i < j < |h| ==> h[i].query != h[j].query
  }

  /** Every entry names an engine of the table, so that the history list can show the engine's name. */
  predicate EnginesKnown(h: seq<HistoryEntry>) {
    forall k :: 0 <= k < |h| ==> h[k].engine in SearchEngines
  }

  /** What the history promises to stay: bounded and deduplicated by query. */
  predicate HistoryValid(h: seq<HistoryEntry>) {
    |h| <= MaxHistory && UniqueQueries(h)
  }

  /**
   * The history after `addToHistory`: drop the entries with the new entry's
   * query, put the new entry in front, keep the first `MaxHistory`.
   */
  function Added(h: seq<HistoryEntry>, e: HistoryEntry): (r: seq<HistoryEntry>)
    ensures 1 <= |r| <= MaxHistory && r[0] == e
  {
    var front := [e] + Filter(h, OtherQuery(e.query));
    if |front| > MaxHistory then front[..MaxHistory] else front
  }

  /** The history after `removeFromHistory(id)`. */
  function Removed(h: seq<HistoryEntry>, id: int): (r: seq<HistoryEntry>)
    ensures |r| <= |h|
    ensures forall i :: 0 <= i < |r| ==> r[i].id != id
  {
    Filter(h, OtherId(id))
  }

  /**
   * The new entry comes first and is followed by the old entries of other
   * queries, in their old order, until the cap is reached.
   */
  lemma AddedContents(h: seq<HistoryEntry>, e: HistoryEntry)
    ensures var kept := Filter(h, OtherQuery(e.query));
            var r := Added(h, e);
            && |r| == (if |kept| < MaxHistory then |kept| + 1 else MaxHistory)
            && r[0] == e
            && (forall i :: 1 <= i < |r| ==> r[i] == kept[i - 1])
  {
  }

  /** Every entry after the first is an old entry with another query. */
  lemma AddedTailFromOld(h: seq<HistoryEntry>, e: HistoryEntry)
    ensures var r := Added(h, e);
            forall i :: 1 <= i < |r| ==> r[i] in h && r[i].query != e.query
  {
    var kept := Filter(h, OtherQuery(e.query));
    var r := Added(h, e);
    forall i | 1 <= i < |r| ensures r[i] in h && r[i].query != e.query {
      assert r[i] == kept[i - 1];
      assert OtherQuery(e.query)(kept[i - 1]);
    }
  }

  /** Below the cap, no old entry of another query is lost. */
  lemma AddedKeepsOthers(h: seq<HistoryEntry>, e: HistoryEntry)
    requires |Filter(h, OtherQuery(e.query))| < MaxHistory
    ensures forall k :: 0 <= k < |h| && h[k].query != e.query ==> h[k] in Added(h, e)
  {
    var kept := Filter(h, OtherQuery(e.query));
    forall k | 0 <= k < |h| && h[k].query != e.query ensures h[k] in Added(h, e) {
      assert OtherQuery(e.query)(h[k]);
      assert h[k] in kept;
      assert Added(h, e) == [e] + kept;
    }
  }

  /** The new query occurs exactly once, at index 0. */
  lemma AddedQueryOnce(h: seq<HistoryEntry>, e: HistoryEntry)
    ensures var r := Added(h, e);
            r[0].query == e.query && forall i :: 1 <= i < |r| ==> r[i].query != e.query
  {
    AddedTailFromOld(h, e);
  }

  /** Adding to a deduplicated history keeps it deduplicated. */
  lemma AddedUnique(h: seq<HistoryEntry>, e: HistoryEntry)
    requires UniqueQueries(h)
    ensures UniqueQueries(Added(h, e))
  {
    var kept := Filter(h, OtherQuery(e.query));
    FilterUnique(h, OtherQuery(e.query));
    forall x | x in kept ensures x.query != e.query {
      var k :| 0 <= k < |kept| && kept[k] == x;
      assert OtherQuery(e.query)(kept[k]);
    }
    UniqueCons(e, kept);
    var front := [e] + kept;
    if |front| > MaxHistory {
      assert forall i, j :: 0 <= i < j < MaxHistory ==> front[..MaxHistory][i] == front[i] && front[..MaxHistory][j] == front[j];
    }
  }

  /** `addToHistory` keeps a valid history valid. */
  lemma AddedValid(h: seq<HistoryEntry>, e: HistoryEntry)
    requires HistoryValid(h)
    ensures HistoryValid(Added(h, e))
  {
    AddedUnique(h, e);
  }

  /** Searching again for a query that is already recorded never makes the history longer. */
  lemma ReAddNoGrowth(h: seq<HistoryEntry>, e: HistoryEntry)
    requires HasQuery(h, e.query)
    ensures |Added(h, e)| <= |h|
  {
    var k :| 0 <= k < |h| && h[k].query == e.query;
    FilterDropsOne(h, OtherQuery(e.query), k);
  }

  /** A query not yet recorded is pushed in front of the whole old history, which the cap then truncates. */
  lemma AddedFresh(h: seq<HistoryEntry>, e: HistoryEntry)
    requires !HasQuery(h, e.query)
    ensures Added(h, e) == if |h| < MaxHistory then [e] + h else ([e] + h)[..MaxHistory]
  {
    FilterKeepsAll(h, OtherQuery(e.query));
  }

  /** Recording the same entry twice in a row is the same as recording it once. */
  lemma AddedIdempotent(h: seq<HistoryEntry>, e: HistoryEntry)
    ensures Added(Added(h, e), e) == Added(h, e)
  {
    var r := Added(h, e);
    AddedQueryOnce(h, e);
    var tail := r[1..];
    forall k | 0 <= k < |tail| ensures OtherQuery(e.query)(tail[k]) {
      assert tail[k] == r[k + 1];
    }
    FilterKeepsAll(tail, OtherQuery(e.query));
    assert r == [e] + tail;
    FilterConcat([e], tail, OtherQuery(e.query));
    assert Filter([e], OtherQuery(e.query)) == [];
  }

  /**
   * The list shows every entry's engine name: it can be shown after an addition
   * exactly when the new entry's engine and the engines of the old entries
   * that stay are in the table.
   */
  lemma AddedEnginesKnown(h: seq<HistoryEntry>, e: HistoryEntry)
    ensures EnginesKnown(h) && e.engine in SearchEngines ==> EnginesKnown(Added(h, e))
    ensures e.engine !in SearchEngines ==> !EnginesKnown(Added(h, e))
  {
    var r := Added(h, e);
    if EnginesKnown(h) && e.engine in SearchEngines {
      AddedTailFromOld(h, e);
      forall k | 1 <= k < |r| ensures r[k].engine in SearchEngines {
        var j :| 0 <= j < |h| && h[j] == r[k];
      }
    }
  }

  /** Removal keeps a history whose engines are all known in that state. */
  lemma RemovedEnginesKnown(h: seq<HistoryEntry>, id: int)
    requires EnginesKnown(h)
    ensures EnginesKnown(Removed(h, id))
  {
    RemovedContents(h, id);
    var r := Removed(h, id);
    forall k | 0 <= k < |r| ensures r[k].engine in SearchEngines {
      var j :| 0 <= j < |h| && h[j] == r[k];
    }
  }

  /** `removeFromHistory(id)` keeps exactly the entries with another id. */
  lemma RemovedContents(h: seq<HistoryEntry>, id: int)
    ensures var r := Removed(h, id);
            && (forall i :: 0 <= i < |r| ==> r[i] in h && r[i].id != id)
            && (forall k :: 0 <= k < |h| && h[k].id != id ==> h[k] in r)
  {
    var r := Removed(h, id);
    forall i | 0 <= i < |r| ensures r[i] in h && r[i].id != id {
      assert OtherId(id)(r[i]);
    }
    forall k | 0 <= k < |h| && h[k].id != id ensures h[k] in r {
      assert OtherId(id)(h[k]);
    }
  }

  /** Removing an id that is not present leaves the history unchanged. */
  lemma RemovedAbsent(h: seq<HistoryEntry>, id: int)
    requires !HasId(h, id)
    ensures Removed(h, id) == h
  {
    FilterKeepsAll(h, OtherId(id));
  }

  /** Removing an id that is present shortens the history. */
  lemma RemovedPresent(h: seq<HistoryEntry>, id: int)
    requires HasId(h, id)
    ensures |Removed(h, id)| < |h|
  {
    var k :| 0 <= k < |h| && h[k].id == id;
    FilterDropsOne(h, OtherId(id), k);
  }

  /** `removeFromHistory` keeps a valid history valid. */
  lemma RemovedValid(h: seq<HistoryEntry>, id: int)
    requires HistoryValid(h)
    ensures HistoryValid(Removed(h, id))
  {
    FilterUnique(h, OtherId(id));
  }

  /** Filtering keeps a deduplicated history deduplicated. */
  lemma {:induction false} FilterUnique(h: seq<HistoryEntry>, keep: HistoryEntry -> bool)
    requires UniqueQueries(h)
    ensures UniqueQueries(Filter(h, keep))
  {
    if h != [] {
      var t := h[1..];
      var rest := Filter(t, keep);
      assert UniqueQueries(t) by {
        forall i, j | 0 <= i < j < |t| ensures t[i].query != t[j].query {
          assert t[i] == h[i + 1] && t[j] == h[j + 1];
        }
      }
      FilterUnique(t, keep);
      if keep(h[0]) {
        forall x | x in rest ensures x.query != h[0].query {
          var j :| 0 <= j < |t| && t[j] == x;
          assert h[j + 1] == x;
        }
        UniqueCons(h[0], rest);
      }
    }
  }

  lemma UniqueCons(x: HistoryEntry, t: seq<HistoryEntry>)
    requires UniqueQueries(t)
    requires forall y :: y in t ==> y.query != x.query
    ensures UniqueQueries([x] + t)
  {
    var s := [x] + t;
    forall i, j | 0 <= i < j < |s| ensures s[i].query != s[j].query {
      assert s[j] == t[j - 1];
      if i > 0 {
        assert s[i] == t[i - 1];
      }
    }
  }
}
