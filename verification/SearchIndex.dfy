/**
 The inverted index: posting sets by term and by cell, kept up to date one
 upsert at a time, and candidate retrieval that sums weights across them.
 */
module SearchIndex {
  import opened Common
  import opened Ranking
  import opened SearchDocuments

  datatype Kind = TripKind | RequestKind

  datatype Key = TokenKey(kind: Kind, token: string) | CellKey(kind: Kind, cell: string)

  type Docs = map<(Kind, string), Doc>

  // ---------------------------------------------------------------- reference: scan all documents

  /** How many entries of `xs` occur in `ys`. */
  function CountIn(xs: seq<string>, ys: seq<string>): nat {
    if xs == [] then 0 else CountIn(xs[..|xs| - 1], ys) + if xs[|xs| - 1] in ys then 1 else 0
  }

  function Score(anchor: Doc, doc: Doc): nat {
    2 * CountIn(anchor.terms, doc.terms) + 5 * CountIn(anchor.originCells, doc.routeCells)
    + 5 * CountIn(anchor.destinationCells, doc.routeCells) + CountIn(anchor.routeCells, doc.routeCells)
  }

  function Ids(docs: Docs, kind: Kind): set<string> {
    set k <- docs | k.0 == kind :: k.1
  }

  /** The stored documents that score at all, with their scores. */
  function Scored(docs: Docs, kind: Kind, anchor: Doc): map<string, int> {
    map id <- Ids(docs, kind) | (kind, id) in docs && Score(anchor, docs[(kind, id)]) > 0 :: Score(anchor, docs[(kind, id)])
  }

  /** What retrieval must return, read off the documents alone. */
  ghost function BruteForce(docs: Docs, kind: Kind, anchor: Doc, limit: int): seq<string> {
    var scores := Scored(docs, kind, anchor);
    if scores == map[] then Take(Sorted(Ids(docs, kind)), Max(limit * 8, 32))
    else Take(Ranked(scores.Keys, scores), Max(limit * 8, 48))
  }

  // ---------------------------------------------------------------- posting sets

  function MembersOf(postings: map<Key, set<string>>, k: Key): set<string> {
    if k in postings then postings[k] else {}
  }

  /** The document is listed under the key. */
  predicate Lists(doc: Doc, kind: Kind, k: Key) {
    k.kind == kind && if k.TokenKey? then k.token in doc.terms else k.cell in doc.routeCells
  }

  function KeysOf(kind: Kind, doc: Doc): seq<Key> {
    seq(|doc.terms|, i requires 0 <= i < |doc.terms| => TokenKey(kind, doc.terms[i]))
    + seq(|doc.routeCells|, i requires 0 <= i < |doc.routeCells| => CellKey(kind, doc.routeCells[i]))
  }

  lemma KeysAreListed(kind: Kind, doc: Doc, k: Key)
    ensures k in KeysOf(kind, doc) <==> Lists(doc, kind, k)
  {
    var keys := KeysOf(kind, doc);
    if Lists(doc, kind, k) {
      if k.TokenKey? {
        var i :| 0 <= i < |doc.terms| && doc.terms[i] == k.token;
        assert keys[i] == k;
      } else {
        var i :| 0 <= i < |doc.routeCells| && doc.routeCells[i] == k.cell;
        assert keys[|doc.terms| + i] == k;
      }
    }
  }

  /** How many of the keys list the id. */
  function Hits(postings: map<Key, set<string>>, keys: seq<Key>, id: string): nat {
    if keys == [] then 0
    else Hits(postings, keys[..|keys| - 1], id) + if id in MembersOf(postings, keys[|keys| - 1]) then 1 else 0
  }

  function TokenKeys(kind: Kind, tokens: seq<string>): seq<Key> {
    seq(|tokens|, i requires 0 <= i < |tokens| => TokenKey(kind, tokens[i]))
  }

  function CellKeys(kind: Kind, cells: seq<string>): seq<Key> {
    seq(|cells|, i requires 0 <= i < |cells| => CellKey(kind, cells[i]))
  }

  function ScoreOf(scores: map<string, int>, id: string): int {
    if id in scores then scores[id] else 0
  }

  /** Ids appear in the score table exactly when they have scored. */
  predicate Positive(scores: map<string, int>) {
    forall id <- scores :: scores[id] > 0
  }

  // ---------------------------------------------------------------- coherence

  /**
   An id is in a posting set exactly when its stored document lists that key,
   and the seed set is exactly the stored ids.
   */
  ghost predicate Coherent(docs: Docs, postings: map<Key, set<string>>, seeds: map<Kind, set<string>>) {
    && (forall k: Key, id: string ::
          id in MembersOf(postings, k) <==> (k.kind, id) in docs && Lists(docs[(k.kind, id)], k.kind, k))
    && (forall kind: Kind :: kind in seeds && seeds[kind] == Ids(docs, kind))
  }

  /** `id` has been taken out of every posting set its document lists, and nothing else has changed. */
  ghost predicate TakenOut(was: map<Key, set<string>>, now: map<Key, set<string>>, kind: Kind, id: string, doc: Option<Doc>) {
    forall k :: MembersOf(now, k) == MembersOf(was, k) - if doc.Some? && Lists(doc.value, kind, k) then {id} else {}
  }

  /** `id` has been put into every posting set its document lists, and nothing else has changed. */
  ghost predicate PutIn(was: map<Key, set<string>>, now: map<Key, set<string>>, kind: Kind, id: string, doc: Doc) {
    forall k :: MembersOf(now, k) == MembersOf(was, k) + if Lists(doc, kind, k) then {id} else {}
  }

  datatype Upsert = Upsert(kind: Kind, payload: Payload)

  ghost function DocsAfter(geo: Geo, docs: Docs, u: Upsert): Docs {
    var key := (u.kind, IdOf(u.payload));
    docs[key := NormalizeDoc(geo, u.payload, if key in docs then Some(docs[key]) else None)]
  }

  /** One document is replaced, under the id the payload gives, by what the patch makes of it. */
  ghost predicate Upserted(geo: Geo, was: Docs, now: Docs, kind: Kind, payload: Payload) {
    exists id ::
      && IsIdOf(payload, id) && (kind, id) in now && now == was[(kind, id) := now[(kind, id)]]
      && DocPatched(geo, now[(kind, id)], payload, if (kind, id) in was then Some(was[(kind, id)]) else None)
  }

  lemma ReplacedIsUpserted(geo: Geo, was: Docs, now: Docs, kind: Kind, payload: Payload, id: string)
    requires IsIdOf(payload, id) && (kind, id) in now && now == was[(kind, id) := now[(kind, id)]]
    requires DocPatched(geo, now[(kind, id)], payload, if (kind, id) in was then Some(was[(kind, id)]) else None)
    ensures Upserted(geo, was, now, kind, payload)
  {
  }

  ghost function DocsAfterAll(geo: Geo, upserts: seq<Upsert>): Docs {
    if upserts == [] then map[]
    else DocsAfter(geo, DocsAfterAll(geo, upserts[..|upserts| - 1]), upserts[|upserts| - 1])
  }

  function MembersAt(seeds: map<Kind, set<string>>, kind: Kind): set<string> {
    if kind in seeds then seeds[kind] else {}
  }

  lemma IdsIff(docs: Docs, kind: Kind, id: string)
    ensures id in Ids(docs, kind) <==> (kind, id) in docs
  {
    if (kind, id) in docs {
      assert (kind, id).1 in Ids(docs, kind);
    }
    if id in Ids(docs, kind) {
      var k :| k in docs && k.0 == kind && k.1 == id;
      assert k == (kind, id);
    }
  }

  lemma IdsGrow(docs: Docs, key: (Kind, string), doc: Doc)
    ensures forall kind: Kind :: Ids(docs[key := doc], kind) == Ids(docs, kind) + if kind == key.0 then {key.1} else {}
  {
    forall kind: Kind, id: string
      ensures id in Ids(docs[key := doc], kind) <==> id in Ids(docs, kind) || (kind, id) == key
    {
      IdsIff(docs, kind, id);
      IdsIff(docs[key := doc], kind, id);
    }
  }

  /** Taking the old document's entries out and putting the new one's in keeps the index coherent. */
  lemma UpsertCoherent(docs: Docs, postings: map<Key, set<string>>, seeds: map<Kind, set<string>>,
                                          key: (Kind, string), doc: Doc,
                                          cleared: map<Key, set<string>>, after: map<Key, set<string>>)
    requires Coherent(docs, postings, seeds)
    requires TakenOut(postings, cleared, key.0, key.1, if key in docs then Some(docs[key]) else None)
    requires PutIn(cleared, after, key.0, key.1, doc)
    ensures Coherent(docs[key := doc], after, seeds[key.0 := MembersAt(seeds, key.0) + {key.1}])
  {
    IdsGrow(docs, key, doc);
    forall k: Key, id: string
      ensures id in MembersOf(after, k) <==>
              (k.kind, id) in docs[key := doc] && Lists(docs[key := doc][(k.kind, id)], k.kind, k)
    {
      assert id in MembersOf(postings, k) <==> (k.kind, id) in docs && Lists(docs[(k.kind, id)], k.kind, k);
    }
  }

  /** Posting hits of a coherent index count the shared entries. */
  lemma {:induction false} HitsCount(docs: Docs, postings: map<Key, set<string>>, seeds: map<Kind, set<string>>,
                                     kind: Kind, xs: seq<string>, id: string)
    requires Coherent(docs, postings, seeds)
    ensures Hits(postings, TokenKeys(kind, xs), id) == if (kind, id) in docs then CountIn(xs, docs[(kind, id)].terms) else 0
    ensures Hits(postings, CellKeys(kind, xs), id) == if (kind, id) in docs then CountIn(xs, docs[(kind, id)].routeCells) else 0
    decreases |xs|
  {
    if xs != [] {
      var n := |xs| - 1;
      HitsCount(docs, postings, seeds, kind, xs[..n], id);
      assert TokenKeys(kind, xs)[..n] == TokenKeys(kind, xs[..n]);
      assert CellKeys(kind, xs)[..n] == CellKeys(kind, xs[..n]);
    }
  }

  lemma HitsAreScore(docs: Docs, postings: map<Key, set<string>>, seeds: map<Kind, set<string>>,
                                        kind: Kind, anchor: Doc, id: string)
    requires Coherent(docs, postings, seeds)
    ensures 2 * Hits(postings, TokenKeys(kind, anchor.terms), id)
            + 5 * Hits(postings, CellKeys(kind, anchor.originCells), id)
            + 5 * Hits(postings, CellKeys(kind, anchor.destinationCells), id)
            + Hits(postings, CellKeys(kind, anchor.routeCells), id)
            == if (kind, id) in docs then Score(anchor, docs[(kind, id)]) else 0
  {
    HitsCount(docs, postings, seeds, kind, anchor.terms, id);
    HitsCount(docs, postings, seeds, kind, anchor.originCells, id);
    HitsCount(docs, postings, seeds, kind, anchor.destinationCells, id);
    HitsCount(docs, postings, seeds, kind, anchor.routeCells, id);
  }

  lemma SameTable(scores: map<string, int>, docs: Docs, kind: Kind, anchor: Doc)
    requires Positive(scores)
    requires forall id :: ScoreOf(scores, id) == if (kind, id) in docs then Score(anchor, docs[(kind, id)]) else 0
    ensures scores == Scored(docs, kind, anchor)
    ensures scores.Keys <= Ids(docs, kind)
    ensures forall id <- Ids(docs, kind) :: (kind, id) in docs
  {
    forall id: string { IdsIff(docs, kind, id); }
    forall id: string
      ensures id in scores <==> id in Scored(docs, kind, anchor)
      ensures id in scores ==> scores[id] == Scored(docs, kind, anchor)[id] && id in Ids(docs, kind)
    {
      IdsIff(docs, kind, id);
      assert ScoreOf(scores, id) == if (kind, id) in docs then Score(anchor, docs[(kind, id)]) else 0;
    }
  }

  /** Every candidate has a stored document. */
  lemma CandidatesStored(docs: Docs, kind: Kind, anchor: Doc, limit: int)
    ensures forall id <- BruteForce(docs, kind, anchor, limit) :: (kind, id) in docs
  {
    var scores := Scored(docs, kind, anchor);
    var r := BruteForce(docs, kind, anchor, limit);
    forall id <- r ensures (kind, id) in docs {
      if scores == map[] {
        assert id in Sorted(Ids(docs, kind));
        IdsIff(docs, kind, id);
      } else {
        assert id in Ranked(scores.Keys, scores);
        assert id in scores;
      }
    }
  }

  /** The seed fallback is used exactly when every stored document scores zero. */
  lemma FallbackIff(docs: Docs, kind: Kind, anchor: Doc)
    ensures Scored(docs, kind, anchor) == map[]
            <==> forall id <- Ids(docs, kind) :: (kind, id) in docs ==> Score(anchor, docs[(kind, id)]) == 0
  {
    if id :| id in Ids(docs, kind) && (kind, id) in docs && Score(anchor, docs[(kind, id)]) > 0 {
      assert id in Scored(docs, kind, anchor);
    }
  }

  // ---------------------------------------------------------------- what is retrieved

  /** The stored documents of the kind that share a term or cell with the anchor. */
  function Scoring(docs: Docs, kind: Kind, anchor: Doc): set<string> {
    set k <- docs | k.0 == kind && Score(anchor, docs[k]) > 0 :: k.1
  }

  predicate Outranks(docs: Docs, kind: Kind, anchor: Doc, a: string, b: string)
    requires (kind, a) in docs && (kind, b) in docs
  {
    var x, y := Score(anchor, docs[(kind, a)]), Score(anchor, docs[(kind, b)]);
    x > y || (x == y && Less(a, b))
  }

  /** The scoring documents, best first, as many as the bound allows and none better left out. */
  ghost predicate TopScoring(docs: Docs, kind: Kind, anchor: Doc, bound: nat, ids: seq<string>) {
    var scoring := Scoring(docs, kind, anchor);
    && |ids| == Min(bound, |scoring|)
    && (forall id <- ids :: id in scoring && (kind, id) in docs)
    && (forall i, j :: 0 <= i < j < |ids| ==> Outranks(docs, kind, anchor, ids[i], ids[j]))
    && (forall x <- scoring, y <- ids :: x in ids || ((kind, x) in docs && Outranks(docs, kind, anchor, y, x)))
  }

  /** The ids of the kind in order, as many as the bound allows and no smaller one left out. */
  ghost predicate FirstIds(docs: Docs, kind: Kind, bound: nat, ids: seq<string>) {
    && |ids| == Min(bound, |Ids(docs, kind)|)
    && (forall id <- ids :: (kind, id) in docs)
    && (forall i, j :: 0 <= i < j < |ids| ==> Less(ids[i], ids[j]))
    && (forall x <- Ids(docs, kind), y <- ids :: x in ids || Less(y, x))
  }

  /** Up to eight times the limit, and at least 48, of what scores; or, when nothing does, at least 32 ids. */
  ghost predicate Retrieved(docs: Docs, kind: Kind, anchor: Doc, limit: int, ids: seq<string>) {
    if Scoring(docs, kind, anchor) != {} then TopScoring(docs, kind, anchor, Max(limit * 8, 48), ids)
    else FirstIds(docs, kind, Max(limit * 8, 32), ids)
  }

  lemma ScoringIs(docs: Docs, kind: Kind, anchor: Doc, id: string)
    ensures id in Scored(docs, kind, anchor) <==> id in Scoring(docs, kind, anchor)
    ensures id in Scoring(docs, kind, anchor) ==>
              (kind, id) in docs && Scored(docs, kind, anchor)[id] == Score(anchor, docs[(kind, id)])
  {
    IdsIff(docs, kind, id);
    if (kind, id) in docs && Score(anchor, docs[(kind, id)]) > 0 { assert (kind, id).1 in Scoring(docs, kind, anchor); }
  }

  lemma SameScoring(docs: Docs, kind: Kind, anchor: Doc)
    ensures Scored(docs, kind, anchor).Keys == Scoring(docs, kind, anchor)
  {
    forall id: string ensures id in Scored(docs, kind, anchor) <==> id in Scoring(docs, kind, anchor) {
      ScoringIs(docs, kind, anchor, id);
    }
  }

  lemma BetterOutranks(docs: Docs, kind: Kind, anchor: Doc, a: string, b: string)
    requires a in Scored(docs, kind, anchor) && b in Scored(docs, kind, anchor) && Better(Scored(docs, kind, anchor), a, b)
    ensures (kind, a) in docs && (kind, b) in docs && Outranks(docs, kind, anchor, a, b)
  {
    ScoringIs(docs, kind, anchor, a);
    ScoringIs(docs, kind, anchor, b);
  }

  lemma BestAreTop(docs: Docs, kind: Kind, anchor: Doc, bound: nat, ids: seq<string>)
    requires AreBest(ids, Scored(docs, kind, anchor).Keys, Scored(docs, kind, anchor), bound)
    ensures TopScoring(docs, kind, anchor, bound, ids)
  {
    SameScoring(docs, kind, anchor);
    forall id <- ids ensures id in Scoring(docs, kind, anchor) && (kind, id) in docs {
      ScoringIs(docs, kind, anchor, id);
    }
    forall i, j | 0 <= i < j < |ids| ensures Outranks(docs, kind, anchor, ids[i], ids[j]) {
      BetterOutranks(docs, kind, anchor, ids[i], ids[j]);
    }
    forall x <- Scoring(docs, kind, anchor), y <- ids
      ensures x in ids || ((kind, x) in docs && Outranks(docs, kind, anchor, y, x))
    {
      if x !in ids { BetterOutranks(docs, kind, anchor, y, x); }
    }
  }

  lemma SortedAreFirst(docs: Docs, kind: Kind, bound: nat, ids: seq<string>)
    requires AreBest(ids, Ids(docs, kind), Zeros(Ids(docs, kind)), bound)
    ensures FirstIds(docs, kind, bound, ids)
  {
    forall id <- ids ensures (kind, id) in docs { IdsIff(docs, kind, id); }
  }

  lemma BruteForceRetrieves(docs: Docs, kind: Kind, anchor: Doc, limit: int)
    ensures Retrieved(docs, kind, anchor, limit, BruteForce(docs, kind, anchor, limit))
  {
    var scores, all := Scored(docs, kind, anchor), Ids(docs, kind);
    SameScoring(docs, kind, anchor);
    if scores.Keys != {} {
      CutIsBest(scores.Keys, scores, Max(limit * 8, 48));
      BestAreTop(docs, kind, anchor, Max(limit * 8, 48), Take(Ranked(scores.Keys, scores), Max(limit * 8, 48)));
      assert scores != map[];
    } else {
      assert scores == map[];
      CutIsBest(all, Zeros(all), Max(limit * 8, 32));
      SortedAreFirst(docs, kind, Max(limit * 8, 32), Take(Sorted(all), Max(limit * 8, 32)));
    }
  }

  // ---------------------------------------------------------------- what scores mean

  predicate Distinct(xs: seq<string>) {
    forall i, j :: 0 <= i < j < |xs| ==> xs[i] != xs[j]
  }

  function Elements(xs: seq<string>): set<string> {
    set x <- xs
  }

  lemma OverlapSnoc(xs: seq<string>, x: string, ys: seq<string>)
    ensures Elements(xs + [x]) * Elements(ys) == Elements(xs) * Elements(ys) + if x in ys then {x} else {}
  {
    assert Elements(xs + [x]) == Elements(xs) + {x};
  }

  /** On a list without repeats the count is the size of the overlap. */
  lemma {:induction false} CountIsOverlap(xs: seq<string>, ys: seq<string>)
    requires Distinct(xs)
    ensures CountIn(xs, ys) == |Elements(xs) * Elements(ys)|
    decreases |xs|
  {
    if xs != [] {
      var n, x := |xs| - 1, xs[|xs| - 1];
      CountIsOverlap(xs[..n], ys);
      assert xs == xs[..n] + [x];
      OverlapSnoc(xs[..n], x, ys);
      assert x !in Elements(xs[..n]);
    }
  }

  /** Two points for every shared term, five for every end cell on the route, one for every shared route cell. */
  lemma ScoreIsOverlap(anchor: Doc, doc: Doc)
    requires Distinct(anchor.terms) && Distinct(anchor.originCells) && Distinct(anchor.destinationCells) && Distinct(anchor.routeCells)
    ensures Score(anchor, doc) == 2 * |Elements(anchor.terms) * Elements(doc.terms)|
                                  + 5 * |Elements(anchor.originCells) * Elements(doc.routeCells)|
                                  + 5 * |Elements(anchor.destinationCells) * Elements(doc.routeCells)|
                                  + |Elements(anchor.routeCells) * Elements(doc.routeCells)|
  {
    CountIsOverlap(anchor.terms, doc.terms);
    CountIsOverlap(anchor.originCells, doc.routeCells);
    CountIsOverlap(anchor.destinationCells, doc.routeCells);
    CountIsOverlap(anchor.routeCells, doc.routeCells);
  }

  lemma SortedDistinct(ids: set<string>)
    ensures Distinct(Sorted(ids)) && Elements(Sorted(ids)) == ids
  {
    RankedIsSorted(ids, Zeros(ids));
    forall i, j | 0 <= i < j < |Sorted(ids)| ensures Sorted(ids)[i] != Sorted(ids)[j] {
      LessIrreflexive(Sorted(ids)[i]);
    }
  }

  /** Cells of different resolutions are different cells. */
  ghost predicate ResolutionsDiffer(geo: Geo) {
    forall lat: real, lng: real, lat': real, lng': real, r: nat, r': nat ::
      r != r' ==> geo.cell(lat, lng, r) != geo.cell(lat', lng', r')
  }

  lemma ThreeCells(geo: Geo, lat: real, lng: real)
    requires ResolutionsDiffer(geo)
    ensures |CellSet(geo, lat, lng)| == 3
  {
    assert CellSet(geo, lat, lng) == {geo.cell(lat, lng, 5), geo.cell(lat, lng, 6), geo.cell(lat, lng, 7)} by {
      assert H3_RESOLUTIONS[0] == 5 && H3_RESOLUTIONS[1] == 6 && H3_RESOLUTIONS[2] == 7;
    }
  }

  /** Lists that share at least the set `common` count at least that many. */
  lemma CountAtLeast(xs: set<string>, ys: set<string>, common: set<string>)
    requires common <= xs && common <= ys
    ensures CountIn(Sorted(xs), Sorted(ys)) >= |common|
  {
    SortedDistinct(xs);
    SortedDistinct(ys);
    CountIsOverlap(Sorted(xs), Sorted(ys));
    assert xs * ys == common + (xs * ys - common);
  }

  /** A trip and a request that start at the same point score at least 18 against each other. */
  lemma SameOriginScores(geo: Geo, anchor: Payload, p: Payload, stored: Option<Doc>)
    requires ResolutionsDiffer(geo)
    requires var a, d := NormalizeDoc(geo, anchor, None), NormalizeDoc(geo, p, stored);
             && HasPoint(a.origin) && HasPoint(a.destination) && HasPoint(d.origin) && HasPoint(d.destination)
             && a.origin.latitude == d.origin.latitude && a.origin.longitude == d.origin.longitude
    ensures Score(NormalizeDoc(geo, anchor, None), NormalizeDoc(geo, p, stored)) >= 18
  {
    var a, d := NormalizeDoc(geo, anchor, None), NormalizeDoc(geo, p, stored);
    var origin := PointCells(geo, a.origin);
    var route := RouteCellSet(geo, Points(geo, d.origin, d.destination));
    ThreeCells(geo, a.origin.latitude.value, a.origin.longitude.value);
    RouteEnds(geo, a.origin, a.destination);
    RouteEnds(geo, d.origin, d.destination);
    CountAtLeast(origin, route, origin);
    CountAtLeast(RouteCellSet(geo, Points(geo, a.origin, a.destination)), route, origin);
  }

  /** The documents of what is retrieved for the anchor, read as a document of its own. */
  ghost predicate Listed(geo: Geo, docs: Docs, kind: Kind, anchor: Payload, limit: int, found: seq<Doc>) {
    exists doc, ids ::
      && DocPatched(geo, doc, anchor, None) && Retrieved(docs, kind, doc, limit, ids)
      && |found| == |ids| && forall i :: 0 <= i < |ids| ==> (kind, ids[i]) in docs && found[i] == docs[(kind, ids[i])]
  }

  lemma LoadedIsListed(geo: Geo, docs: Docs, kind: Kind, anchor: Payload, limit: int, doc: Doc, ids: seq<string>, found: seq<Doc>)
    requires DocPatched(geo, doc, anchor, None) && Retrieved(docs, kind, doc, limit, ids)
    requires |found| == |ids| && forall i :: 0 <= i < |ids| ==> (kind, ids[i]) in docs && found[i] == docs[(kind, ids[i])]
    ensures Listed(geo, docs, kind, anchor, limit, found)
  {
  }

  // ---------------------------------------------------------------- as it runs

  class Cache {
    const geo: Geo
    var docs: Docs
    var postings: map<Key, set<string>>
    var seeds: map<Kind, set<string>>

    ghost predicate Valid()
      reads this
    {
      Coherent(docs, postings, seeds)
    }

    constructor (geo: Geo)
      ensures this.geo == geo && docs == map[] && Valid()
    {
      this.geo := geo;
      docs, postings := map[], map[];
      seeds := map[TripKind := {}, RequestKind := {}];
      new;
      forall kind: Kind ensures kind in seeds && seeds[kind] == Ids(docs, kind) {
        if kind == TripKind {} else { assert kind == RequestKind; }
      }
    }

    method RemoveMemberships(kind: Kind, id: string, doc: Doc)
      modifies this`postings
      ensures TakenOut(old(postings), postings, kind, id, Some(doc))
    {
      var keys := KeysOf(kind, doc);
      ghost var was := postings;
      for i := 0 to |keys|
        invariant forall k :: MembersOf(postings, k) == MembersOf(was, k) - if k in keys[..i] then {id} else {}
      {
        postings := postings[keys[i] := MembersOf(postings, keys[i]) - {id}];
      }
      forall k ensures k in keys[..|keys|] <==> Lists(doc, kind, k) { KeysAreListed(kind, doc, k); }
    }

    method AddMemberships(kind: Kind, id: string, doc: Doc)
      modifies this`postings
      ensures PutIn(old(postings), postings, kind, id, doc)
    {
      var keys := KeysOf(kind, doc);
      ghost var was := postings;
      for i := 0 to |keys|
        invariant forall k :: MembersOf(postings, k) == MembersOf(was, k) + if k in keys[..i] then {id} else {}
      {
        postings := postings[keys[i] := MembersOf(postings, keys[i]) + {id}];
      }
      forall k ensures k in keys[..|keys|] <==> Lists(doc, kind, k) { KeysAreListed(kind, doc, k); }
    }

    /** Takes the stored document's entries out, stores the new one, and puts its entries in. */
    method StoreDocument(kind: Kind, id: string, doc: Doc)
      requires Valid()
      modifies this
      ensures Valid() && docs == old(docs)[(kind, id) := doc]
    {
      if (kind, id) in docs {
        RemoveMemberships(kind, id, docs[(kind, id)]);
      }
      ghost var cleared := postings;
      docs := docs[(kind, id) := doc];
      seeds := seeds[kind := seeds[kind] + {id}];
      AddMemberships(kind, id, doc);
      UpsertCoherent(old(docs), old(postings), old(seeds), (kind, id), doc, cleared, postings);
    }

    /** `upsert_trip_document` and `upsert_delivery_request_document`. */
    method UpsertDocument(kind: Kind, payload: Payload)
      requires Valid()
      modifies this
      ensures Valid() && docs == DocsAfter(geo, old(docs), Upsert(kind, payload))
      ensures Upserted(geo, old(docs), docs, kind, payload)
    {
      var id := IdOf(payload);
      var stored := if (kind, id) in docs then Some(docs[(kind, id)]) else None;
      var doc := MakeDoc(geo, payload, stored);
      StoreDocument(kind, id, doc);
      ReplacedIsUpserted(geo, old(docs), docs, kind, payload, id);
    }

    /** From the empty store, any sequence of upserts leaves the index agreeing with the documents. */
    method Replay(upserts: seq<Upsert>)
      requires Valid() && docs == map[]
      modifies this
      ensures Valid() && docs == DocsAfterAll(geo, upserts)
    {
      for i := 0 to |upserts|
        invariant Valid() && docs == DocsAfterAll(geo, upserts[..i])
      {
        assert upserts[..i + 1][..i] == upserts[..i];
        UpsertDocument(upserts[i].kind, upserts[i].payload);
        assert upserts[i] == Upsert(upserts[i].kind, upserts[i].payload);
      }
      assert upserts[..|upserts|] == upserts;
    }

    /** Adds the weight to every id listed under each of the keys. */
    method AddScores(scores: map<string, int>, keys: seq<Key>, weight: int) returns (r: map<string, int>)
      requires weight > 0 && Positive(scores)
      ensures Positive(r)
      ensures forall id :: ScoreOf(r, id) == ScoreOf(scores, id) + weight * Hits(postings, keys, id)
    {
      r := scores;
      for i := 0 to |keys|
        invariant Positive(r)
        invariant forall id :: ScoreOf(r, id) == ScoreOf(scores, id) + weight * Hits(postings, keys[..i], id)
      {
        assert keys[..i + 1][..i] == keys[..i];
        r := Bump(r, MembersOf(postings, keys[i]), weight);
      }
      assert keys[..|keys|] == keys;
    }

    method Bump(scores: map<string, int>, ids: set<string>, weight: int) returns (r: map<string, int>)
      requires weight > 0 && Positive(scores)
      ensures Positive(r)
      ensures forall id :: ScoreOf(r, id) == ScoreOf(scores, id) + if id in ids then weight else 0
    {
      r := scores;
      var todo := ids;
      while todo != {}
        invariant todo <= ids && Positive(r)
        invariant forall id :: ScoreOf(r, id) == ScoreOf(scores, id) + if id in ids - todo then weight else 0
        decreases |todo|
      {
        var id :| id in todo;
        r := r[id := ScoreOf(r, id) + weight];
        todo := todo - {id};
      }
    }

    /** The four passes over the posting sets. */
    method SumScores(kind: Kind, anchor: Doc) returns (scores: map<string, int>)
      requires Valid()
      ensures scores == Scored(docs, kind, anchor)
    {
      var none: map<string, int> := map[];
      var s1 := AddScores(none, TokenKeys(kind, anchor.terms), 2);
      var s2 := AddScores(s1, CellKeys(kind, anchor.originCells), 5);
      var s3 := AddScores(s2, CellKeys(kind, anchor.destinationCells), 5);
      scores := AddScores(s3, CellKeys(kind, anchor.routeCells), 1);
      forall id: string
        ensures ScoreOf(scores, id) == if (kind, id) in docs then Score(anchor, docs[(kind, id)]) else 0
      {
        HitsAreScore(docs, postings, seeds, kind, anchor, id);
      }
      SameTable(scores, docs, kind, anchor);
    }

    /** Retrieval over the posting sets returns the very list a scan of all documents gives. */
    method CandidateIds(kind: Kind, anchor: Doc, limit: int) returns (ids: seq<string>)
      requires Valid()
      ensures ids == BruteForce(docs, kind, anchor, limit) && Retrieved(docs, kind, anchor, limit, ids)
    {
      BruteForceRetrieves(docs, kind, anchor, limit);
      var scores := SumScores(kind, anchor);
      if scores == map[] {
        var seedIds := SortStrings(seeds[kind]);
        ids := Take(seedIds, Max(limit * 8, 32));
      } else {
        var ordered := Sort(scores.Keys, scores);
        ids := Take(ordered, Max(limit * 8, 48));
      }
    }

    /** `list_candidate_*_documents`: no candidate is without its document. */
    method ListCandidates(kind: Kind, anchor: Payload, limit: int) returns (found: seq<Doc>)
      requires Valid()
      ensures var ids := BruteForce(docs, kind, NormalizeDoc(geo, anchor, None), limit);
              && |found| == |ids|
              && forall i :: 0 <= i < |ids| ==> (kind, ids[i]) in docs && found[i] == docs[(kind, ids[i])]
      ensures Listed(geo, docs, kind, anchor, limit, found)
    {
      var doc := MakeDoc(geo, anchor, None);
      var ids := CandidateIds(kind, doc, limit);
      CandidatesStored(docs, kind, doc, limit);
      found := LoadAll(kind, ids);
      LoadedIsListed(geo, docs, kind, anchor, limit, doc, ids, found);
    }

    /** Loads the document of each id, skipping an id that has none. */
    method LoadAll(kind: Kind, ids: seq<string>) returns (found: seq<Doc>)
      ensures (forall id <- ids :: (kind, id) in docs) ==>
                |found| == |ids| && forall i :: 0 <= i < |ids| ==> found[i] == docs[(kind, ids[i])]
    {
      found := [];
      for i := 0 to |ids|
        invariant (forall id <- ids :: (kind, id) in docs) ==>
                    |found| == i && forall j :: 0 <= j < i ==> found[j] == docs[(kind, ids[j])]
      {
        assert ids[i] in ids;
        if (kind, ids[i]) in docs {
          found := found + [docs[(kind, ids[i])]];
        }
      }
    }
  }
}
