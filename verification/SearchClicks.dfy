/**
 Click counts behind city suggestions: each recorded selection increments one
 counter per key, and a lookup fetches many counters in one pipeline and walks
 the flat answer with a running index. Queries and regions are normalised
 before they get here; counters' time to live is not modelled.
 */
module SearchClicks {
  import opened Common

  datatype Key = GlobalKey(region: string) | ContextKey(region: string, actor: string, field: string) | QueryKey(region: string, query: string)

  datatype Selection = Selection(query: string, region: string, actor: string, field: string, place: string)

  datatype Signals = Signals(globalClicks: int, contextClicks: int, queryClicks: int)

  /** An absent or empty actor or field reads as "all". */
  function OrAll(name: string): string {
    if name == "" then "all" else name
  }

  /** The four context keys, before duplicates and missing ones are dropped. */
  function ContextKeyList(region: string, actor: string, field: string): seq<Key> {
    [ContextKey(region, "all", "all")]
    + (if actor != "" then [ContextKey(region, OrAll(actor), "all")] else [])
    + (if field != "" then [ContextKey(region, "all", OrAll(field))] else [])
    + (if actor != "" || field != "" then [ContextKey(region, OrAll(actor), OrAll(field))] else [])
  }

  function KeysOf(s: Selection): set<Key> {
    {GlobalKey(s.region), QueryKey(s.region, s.query)} + set k <- ContextKeyList(s.region, s.actor, s.field)
  }

  predicate Accepted(s: Selection) {
    |s.query| >= 2 && s.place != ""
  }

  /** The reference: how many accepted selections of the place fall under the key. */
  function Clicks(log: seq<Selection>, k: Key, place: string): nat {
    if log == [] then 0
    else
      var last := log[|log| - 1];
      Clicks(log[..|log| - 1], k, place) + if Accepted(last) && last.place == place && k in KeysOf(last) then 1 else 0
  }

  function ClicksOver(log: seq<Selection>, keys: seq<Key>, place: string): nat {
    if keys == [] then 0 else ClicksOver(log, keys[..|keys| - 1], place) + Clicks(log, keys[|keys| - 1], place)
  }

  predicate Distinct(keys: seq<Key>) {
    forall i, j :: 0 <= i < j < |keys| ==> keys[i] != keys[j]
  }

  /** First occurrences only, in order. */
  method ContextClickKeys(region: string, actor: string, field: string) returns (deduped: seq<Key>)
    ensures Distinct(deduped)
    ensures forall k :: k in deduped <==> k in ContextKeyList(region, actor, field)
    ensures forall k :: k in deduped <==>
              || k == ContextKey(region, "all", "all")
              || (actor != "" && k == ContextKey(region, actor, "all"))
              || (field != "" && k == ContextKey(region, "all", field))
              || (actor != "" && field != "" && k == ContextKey(region, actor, field))
  {
    var keys := ContextKeyList(region, actor, field);
    deduped := [];
    var seen: set<Key> := {};
    for i := 0 to |keys|
      invariant seen == set k <- deduped
      invariant Distinct(deduped) && forall k :: k in deduped <==> k in keys[..i]
    {
      if keys[i] !in seen {
        seen := seen + {keys[i]};
        deduped := deduped + [keys[i]];
      }
    }
    assert keys[..|keys|] == keys;
  }

  lemma AllDistinct(s: Selection, contextKeys: seq<Key>)
    requires Distinct(contextKeys) && forall k <- contextKeys :: k in ContextKeyList(s.region, s.actor, s.field)
    ensures Distinct([GlobalKey(s.region)] + contextKeys + [QueryKey(s.region, s.query)])
  {
    assert forall k <- ContextKeyList(s.region, s.actor, s.field) :: k.ContextKey?;
    assert forall i :: 0 <= i < |contextKeys| ==> contextKeys[i] in contextKeys;
  }

  function ScoreOf(scores: map<(Key, string), int>, k: Key, place: string): int {
    if (k, place) in scores then scores[(k, place)] else 0
  }

  function Block(scores: map<(Key, string), int>, place: string, keys: seq<Key>): seq<int> {
    seq(|keys|, i requires 0 <= i < |keys| => ScoreOf(scores, keys[i], place))
  }

  function Flat(scores: map<(Key, string), int>, places: seq<string>, keys: seq<Key>): seq<int> {
    if places == [] then []
    else Flat(scores, places[..|places| - 1], keys) + Block(scores, places[|places| - 1], keys)
  }

  lemma {:induction false} FlatPrefix(scores: map<(Key, string), int>, places: seq<string>, keys: seq<Key>, i: nat)
    requires i <= |places|
    ensures Flat(scores, places[..i], keys) <= Flat(scores, places, keys)
    decreases |places|
  {
    if i < |places| {
      FlatPrefix(scores, places[..|places| - 1], keys, i);
      assert places[..|places| - 1][..i] == places[..i];
    } else {
      assert places[..i] == places;
    }
  }

  /** The `i`-th candidate's replies sit right after those of the candidates before it. */
  lemma FlatAt(scores: map<(Key, string), int>, places: seq<string>, keys: seq<Key>, i: nat)
    requires i < |places|
    ensures var start, raw := |Flat(scores, places[..i], keys)|, Flat(scores, places, keys);
            && start + |keys| <= |raw|
            && |Flat(scores, places[..i + 1], keys)| == start + |keys|
            && forall j :: 0 <= j < |keys| ==> raw[start + j] == ScoreOf(scores, keys[j], places[i])
  {
    var upto := places[..i + 1];
    assert upto[..i] == places[..i];
    assert Flat(scores, upto, keys) == Flat(scores, places[..i], keys) + Block(scores, places[i], keys);
    FlatPrefix(scores, places, keys, i + 1);
  }

  class ClickStore {
    var scores: map<(Key, string), int>
    ghost var log: seq<Selection>

    ghost predicate Valid()
      reads this
    {
      forall k: Key, place: string :: ScoreOf(scores, k, place) == Clicks(log, k, place)
    }

    constructor ()
      ensures Valid() && log == []
    {
      scores, log := map[], [];
    }

    method Increment(k: Key, place: string)
      modifies this`scores
      ensures scores == old(scores)[(k, place) := ScoreOf(old(scores), k, place) + 1]
    {
      scores := scores[(k, place) := ScoreOf(scores, k, place) + 1];
    }

    /** A selection too short or without a place is refused; any other counts once under each of its keys. */
    method RecordSearchSelection(s: Selection) returns (accepted: bool)
      requires Valid()
      modifies this
      ensures Valid() && log == old(log) + [s]
      ensures accepted <==> |s.query| >= 2 && s.place != ""
    {
      ghost var before := log;
      assert (before + [s])[..|before|] == before;
      accepted := |s.query| >= 2 && s.place != "";
      if accepted {
        var contextKeys := ContextClickKeys(s.region, s.actor, s.field);
        var keys := [GlobalKey(s.region)] + contextKeys + [QueryKey(s.region, s.query)];
        assert forall k :: k in keys <==> k in KeysOf(s);
        AllDistinct(s, contextKeys);
        IncrementAll(keys, s.place);
      }
      log := log + [s];
      forall k: Key, place: string ensures Clicks(log, k, place) == Clicks(before, k, place)
                + if accepted && s.place == place && k in KeysOf(s) then 1 else 0
      {
      }
    }

    method IncrementAll(keys: seq<Key>, place: string)
      requires Distinct(keys)
      modifies this`scores
      ensures forall k: Key, p: string ::
                ScoreOf(scores, k, p) == ScoreOf(old(scores), k, p) + if p == place && k in keys then 1 else 0
    {
      ghost var before := scores;
      for i := 0 to |keys|
        invariant forall k: Key, p: string ::
                    ScoreOf(scores, k, p) == ScoreOf(before, k, p) + if p == place && k in keys[..i] then 1 else 0
      {
        assert keys[i] !in keys[..i];
        Increment(keys[i], place);
      }
      assert keys[..|keys|] == keys;
    }

    /** Every candidate's signals are its own counts, although the replies come back as one flat list. */
    method LoadClickSignals(places: seq<string>, query: string, region: string, actor: string, field: string)
      returns (signals: map<string, Signals>, contextKeys: seq<Key>)
      requires Valid()
      ensures Distinct(contextKeys) && forall k :: k in contextKeys <==> k in ContextKeyList(region, actor, field)
      ensures query == "" ==> signals == map[]
      ensures query != "" ==> signals.Keys == set p <- places
      ensures forall p <- signals ::
                signals[p] == Signals(Clicks(log, GlobalKey(region), p), ClicksOver(log, contextKeys, p), Clicks(log, QueryKey(region, query), p))
    {
      contextKeys := ContextClickKeys(region, actor, field);
      signals := map[];
      if places == [] || query == "" {
        return;
      }
      var keys := [GlobalKey(region)] + contextKeys + [QueryKey(region, query)];
      var raw := Pipeline(places, keys);
      var index := 0;
      for i := 0 to |places|
        invariant index == |Flat(scores, places[..i], keys)|
        invariant signals.Keys == set p <- places[..i]
        invariant forall p <- signals ::
                    signals[p] == Signals(Clicks(log, GlobalKey(region), p), ClicksOver(log, contextKeys, p), Clicks(log, QueryKey(region, query), p))
      {
        FlatAt(scores, places, keys, i);
        var place := places[i];
        var found := Decode(raw, index, place, query, region, contextKeys);
        index := index + |keys|;
        signals := signals[place := found];
        assert places[..i + 1] == places[..i] + [place];
      }
      assert places[..|places|] == places;
    }

    /** Reads one candidate's replies: the global count, each context count, the query count. */
    method Decode(raw: seq<int>, start: nat, place: string, query: string, region: string, contextKeys: seq<Key>)
      returns (found: Signals)
      requires Valid() && start + |contextKeys| + 2 <= |raw|
      requires var keys := [GlobalKey(region)] + contextKeys + [QueryKey(region, query)];
               forall j :: 0 <= j < |keys| ==> raw[start + j] == ScoreOf(scores, keys[j], place)
      ensures found == Signals(Clicks(log, GlobalKey(region), place), ClicksOver(log, contextKeys, place),
                               Clicks(log, QueryKey(region, query), place))
    {
      ghost var keys := [GlobalKey(region)] + contextKeys + [QueryKey(region, query)];
      var index := start;
      assert raw[start + 0] == ScoreOf(scores, keys[0], place);
      var globalClicks := raw[index];
      index := index + 1;
      var contextClicks := 0;
      for j := 0 to |contextKeys|
        invariant index == start + 1 + j
        invariant contextClicks == ClicksOver(log, contextKeys[..j], place)
      {
        assert contextKeys[..j + 1][..j] == contextKeys[..j];
        assert raw[start + (1 + j)] == ScoreOf(scores, keys[1 + j], place);
        contextClicks := contextClicks + raw[index];
        index := index + 1;
      }
      assert contextKeys[..|contextKeys|] == contextKeys;
      assert raw[start + (1 + |contextKeys|)] == ScoreOf(scores, keys[1 + |contextKeys|], place);
      found := Signals(globalClicks, contextClicks, raw[index]);
    }

    /** One reply per key per candidate, in the order asked. */
    method Pipeline(places: seq<string>, keys: seq<Key>) returns (raw: seq<int>)
      ensures raw == Flat(scores, places, keys)
    {
      raw := [];
      for i := 0 to |places|
        invariant raw == Flat(scores, places[..i], keys)
      {
        assert places[..i + 1][..i] == places[..i];
        raw := raw + Block(scores, places[i], keys);
      }
      assert places[..|places|] == places;
    }
  }
}
