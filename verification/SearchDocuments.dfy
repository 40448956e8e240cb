/**
 Documents of the search index: how a patch and the stored document become the
 next document, and which terms and cells it is listed under. Cell ids and
 distances come from outside and are parameters.
 */
module SearchDocuments {
  import opened Common
  import opened Ranking

  const H3_RESOLUTIONS: seq<nat> := [5, 6, 7]

  /** `cell(lat, lng, resolution)` and `distanceKm(lng, lat, lng, lat)`. */
  datatype Geo = Geo(cell: (real, real, nat) -> string, distanceKm: (real, real, real, real) -> real)

  datatype Location = Location(city: Option<string>, state: Option<string>, placeId: Option<string>,
                               latitude: Option<real>, longitude: Option<real>)

  /** A location as callers send it; `point` is the GeoJSON list, empty when there is none. */
  datatype RawLocation = RawLocation(city: Option<string>, state: Option<string>,
                                     place_id: Option<string>, placeId: Option<string>,
                                     latitude: Option<real>, longitude: Option<real>, point: seq<real>)

  /** The part of an upsert payload the index depends on; `None` locations are missing or empty. */
  datatype Payload = Payload(primaryId: Option<string>, camelId: Option<string>, aggregateId: Option<string>,
                             origin: Option<RawLocation>, destination: Option<RawLocation>)

  datatype Doc = Doc(origin: Location, destination: Location, terms: seq<string>,
                     originCells: seq<string>, destinationCells: seq<string>, routeCells: seq<string>)

  const NO_LOCATION := Location(None, None, None, None, None)

  // ---------------------------------------------------------------- normalisation

  predicate Truthy(s: Option<string>) {
    s.Some? && s.value != ""
  }

  /** Python's `a or b` on optional strings. */
  function Or(a: Option<string>, b: Option<string>): Option<string> {
    if Truthy(a) then a else b
  }

  function IdOf(p: Payload): string {
    Or(p.primaryId, Or(p.camelId, Or(p.aggregateId, Some("")))).GetOr("")
  }

  /** The first of the three ids that is not empty. */
  predicate IsIdOf(p: Payload, id: string) {
    if p.primaryId.Some? && p.primaryId.value != "" then id == p.primaryId.value
    else if p.camelId.Some? && p.camelId.value != "" then id == p.camelId.value
    else if p.aggregateId.Some? then id == p.aggregateId.value
    else id == ""
  }

  function AsRaw(l: Location): RawLocation {
    RawLocation(l.city, l.state, l.placeId, None, l.latitude, l.longitude, [])
  }

  function FirstOf(a: Option<real>, b: Option<real>): Option<real> {
    if a.Some? then a else b
  }

  function NormalizeLocation(payload: Option<RawLocation>, fallback: Option<Location>): Location {
    var stored := fallback.GetOr(NO_LOCATION);
    var source := payload.GetOr(AsRaw(stored));
    var longitude := if |source.point| >= 2 then FirstOf(source.longitude, Some(source.point[0])) else source.longitude;
    var latitude := if |source.point| >= 2 then FirstOf(source.latitude, Some(source.point[1])) else source.latitude;
    Location(Or(source.city, stored.city), Or(source.state, stored.state),
             Or(source.place_id, Or(source.placeId, stored.placeId)),
             FirstOf(latitude, stored.latitude), FirstOf(longitude, stored.longitude))
  }

  // ---------------------------------------------------------------- terms

  function Lower(c: char): char {
    if 'A' <= c <= 'Z' then c - 'A' + 'a' else c
  }

  predicate WordChar(c: char) {
    'a' <= c <= 'z' || '0' <= c <= '9'
  }

  /** The maximal runs of word characters of the lower-cased text; `run` is the run in progress. */
  function Runs(text: string, run: string): set<string>
    decreases |text|
  {
    var ended := if |run| >= 2 then {run} else {};
    if text == "" then ended
    else
      var c := Lower(text[0]);
      if WordChar(c) then Runs(text[1..], run + [c]) else ended + Runs(text[1..], "")
  }

  function Lowered(text: string): string {
    if text == "" then "" else [Lower(text[0])] + Lowered(text[1..])
  }

  /** `w[i..j]` consists of word characters and stretches as far as it can. */
  predicate IsBlock(w: string, i: int, j: int) {
    && 0 <= i < j <= |w|
    && (forall k :: i <= k < j ==> WordChar(w[k]))
    && (i == 0 || !WordChar(w[i - 1])) && (j == |w| || !WordChar(w[j]))
  }

  ghost predicate HasBlock(w: string, t: string) {
    exists i, j :: IsBlock(w, i, j) && j - i >= 2 && w[i..j] == t
  }

  predicate AllWord(run: string) {
    forall c <- run :: WordChar(c)
  }

  lemma WholeBlock(run: string, t: string)
    requires AllWord(run)
    ensures HasBlock(run, t) <==> |run| >= 2 && t == run
  {
    if |run| >= 2 {
      assert IsBlock(run, 0, |run|) && run[0..|run|] == run;
    }
    if HasBlock(run, t) {
      var i, j :| IsBlock(run, i, j) && j - i >= 2 && run[i..j] == t;
      assert forall k :: 0 <= k < |run| ==> run[k] in run;
      assert run[0..|run|] == run;
    }
  }

  /** A block of a whole text is a block before or after a separator in it. */
  lemma BlockSide(run: string, c: char, rest: string, i: int, j: int)
    requires !WordChar(c) && IsBlock(run + [c] + rest, i, j)
    ensures var w, n := run + [c] + rest, |run| + 1;
            if i <= |run| then j <= |run| && IsBlock(run, i, j) && run[i..j] == w[i..j]
            else IsBlock(rest, i - n, j - n) && rest[i - n..j - n] == w[i..j]
  {
    var w, n := run + [c] + rest, |run| + 1;
    assert w[|run|] == c;
    if i <= |run| {
      assert forall k :: 0 <= k < |run| ==> w[k] == run[k];
      assert j <= |run| && run[i..j] == w[i..j];
      assert j < |run| ==> w[j] == run[j];
      assert i > 0 ==> w[i - 1] == run[i - 1];
    } else {
      assert forall k :: n <= k < |w| ==> w[k] == rest[k - n];
      assert rest[i - n..j - n] == w[i..j];
      assert i > n ==> w[i - 1] == rest[i - n - 1];
      assert forall k :: i - n <= k < j - n ==> w[k + n] == rest[k];
    }
  }

  lemma BlockBefore(run: string, c: char, rest: string, i: int, j: int)
    requires !WordChar(c) && IsBlock(run, i, j)
    ensures var w := run + [c] + rest; IsBlock(w, i, j) && w[i..j] == run[i..j]
  {
    var w := run + [c] + rest;
    assert w[|run|] == c;
    assert forall k :: 0 <= k < |run| ==> w[k] == run[k];
  }

  lemma BlockAfter(run: string, c: char, rest: string, i: int, j: int)
    requires !WordChar(c) && IsBlock(rest, i, j)
    ensures var w, n := run + [c] + rest, |run| + 1; IsBlock(w, n + i, n + j) && w[n + i..n + j] == rest[i..j]
  {
    var w, n := run + [c] + rest, |run| + 1;
    assert w[|run|] == c;
    assert forall k :: n <= k < |w| ==> w[k] == rest[k - n];
  }

  /** A separator ends the run before it, and what follows stands on its own. */
  lemma BlocksSplit(run: string, c: char, rest: string, t: string)
    requires !WordChar(c)
    ensures HasBlock(run + [c] + rest, t) <==> HasBlock(run, t) || HasBlock(rest, t)
  {
    var w := run + [c] + rest;
    if HasBlock(run, t) {
      var i, j :| IsBlock(run, i, j) && j - i >= 2 && run[i..j] == t;
      BlockBefore(run, c, rest, i, j);
    }
    if HasBlock(rest, t) {
      var i, j :| IsBlock(rest, i, j) && j - i >= 2 && rest[i..j] == t;
      BlockAfter(run, c, rest, i, j);
    }
    if HasBlock(w, t) {
      var i, j :| IsBlock(w, i, j) && j - i >= 2 && w[i..j] == t;
      BlockSide(run, c, rest, i, j);
    }
  }

  /** The terms are exactly the maximal blocks of two or more word characters of the lowered text. */
  lemma {:induction false} RunsAreBlocks(text: string, run: string, t: string)
    requires AllWord(run)
    ensures t in Runs(text, run) <==> HasBlock(run + Lowered(text), t)
    decreases |text|
  {
    if text == "" {
      assert run + Lowered(text) == run;
      WholeBlock(run, t);
    } else {
      var c, rest := Lower(text[0]), Lowered(text[1..]);
      if WordChar(c) {
        assert run + Lowered(text) == (run + [c]) + rest;
        RunsAreBlocks(text[1..], run + [c], t);
      } else {
        assert run + Lowered(text) == run + [c] + rest;
        assert "" + rest == rest;
        RunsAreBlocks(text[1..], "", t);
        BlocksSplit(run, c, rest, t);
        WholeBlock(run, t);
      }
    }
  }

  function TermSet(parts: seq<Option<string>>): set<string> {
    if parts == [] then {}
    else TermSet(parts[..|parts| - 1]) + if Truthy(parts[|parts| - 1]) then Runs(parts[|parts| - 1].value, "") else {}
  }

  function TermParts(origin: Location, destination: Location): seq<Option<string>> {
    [origin.city, destination.city, origin.placeId, destination.placeId]
  }

  // ---------------------------------------------------------------- cells

  predicate HasPoint(l: Location) {
    l.latitude.Some? && l.longitude.Some?
  }

  function CellSet(geo: Geo, lat: real, lng: real): set<string> {
    set r <- H3_RESOLUTIONS :: geo.cell(lat, lng, r)
  }

  function PointCells(geo: Geo, l: Location): set<string> {
    if HasPoint(l) then CellSet(geo, l.latitude.value, l.longitude.value) else {}
  }

  function Steps(geo: Geo, o: Location, d: Location): (n: int)
    requires HasPoint(o) && HasPoint(d)
    ensures 2 <= n <= 16
  {
    var km := geo.distanceKm(o.longitude.value, o.latitude.value, d.longitude.value, d.latitude.value);
    Max(2, Min(16, (km / 75.0).Floor + 2))
  }

  /** The point a share of the way along, as (latitude, longitude). */
  function Along(o: Location, d: Location, ratio: real): (real, real)
    requires HasPoint(o) && HasPoint(d)
  {
    (o.latitude.value + (d.latitude.value - o.latitude.value) * ratio,
     o.longitude.value + (d.longitude.value - o.longitude.value) * ratio)
  }

  /** The `i`-th interpolated point. */
  function PointAt(o: Location, d: Location, i: int, n: int): (real, real)
    requires HasPoint(o) && HasPoint(d) && n > 0
  {
    Along(o, d, i as real / n as real)
  }

  function Points(geo: Geo, o: Location, d: Location): seq<(real, real)> {
    if HasPoint(o) && HasPoint(d) then
      var n := Steps(geo, o, d);
      seq(n + 1, i requires 0 <= i <= n => PointAt(o, d, i, n))
    else []
  }

  function RouteCellSet(geo: Geo, points: seq<(real, real)>): set<string> {
    if points == [] then {}
    else
      var last := points[|points| - 1];
      RouteCellSet(geo, points[..|points| - 1]) + CellSet(geo, last.0, last.1)
  }

  /** The document a patch makes of the stored one. */
  ghost function NormalizeDoc(geo: Geo, p: Payload, stored: Option<Doc>): Doc {
    var origin := NormalizeLocation(p.origin, if stored.Some? then Some(stored.value.origin) else None);
    var destination := NormalizeLocation(p.destination, if stored.Some? then Some(stored.value.destination) else None);
    Doc(origin, destination, Sorted(TermSet(TermParts(origin, destination))),
        Sorted(PointCells(geo, origin)), Sorted(PointCells(geo, destination)),
        Sorted(RouteCellSet(geo, Points(geo, origin, destination))))
  }

  /** A term is listed exactly when some part that is not empty has it as a block. */
  lemma {:induction false} TermsAreBlocks(parts: seq<Option<string>>, t: string)
    ensures t in TermSet(parts) <==> exists k :: 0 <= k < |parts| && Truthy(parts[k]) && HasBlock(Lowered(parts[k].value), t)
    decreases |parts|
  {
    if parts != [] {
      var n := |parts| - 1;
      TermsAreBlocks(parts[..n], t);
      if Truthy(parts[n]) {
        RunsAreBlocks(parts[n].value, "", t);
        assert "" + Lowered(parts[n].value) == Lowered(parts[n].value);
      }
      if k :| 0 <= k < |parts| && Truthy(parts[k]) && HasBlock(Lowered(parts[k].value), t) {
        if k < n { assert parts[..n][k] == parts[k]; }
      }
    }
  }

  // ---------------------------------------------------------------- what a patch makes of a document

  /** A coordinate the patch gives wins, then the entry of its point, then the stored one. */
  predicate PatchedCoordinate(now: Option<real>, patch: Option<RawLocation>, given: Option<real>, entry: nat, stored: Option<real>)
    requires entry <= 1
  {
    if patch.None? then now == stored
    else if given.Some? then now == given
    else if |patch.value.point| >= 2 then now == Some(patch.value.point[entry])
    else now == stored
  }

  /** A name the patch gives replaces the stored one; an empty or missing one leaves it. */
  predicate PatchedName(now: Option<string>, patch: Option<string>, stored: Option<string>) {
    if patch.Some? && patch.value != "" then now == patch else now == stored
  }

  /** The GeoJSON point lists longitude before latitude. A place id may come under either of two names. */
  predicate Patched(now: Location, patch: Option<RawLocation>, stored: Location) {
    && PatchedCoordinate(now.longitude, patch, if patch.Some? then patch.value.longitude else None, 0, stored.longitude)
    && PatchedCoordinate(now.latitude, patch, if patch.Some? then patch.value.latitude else None, 1, stored.latitude)
    && PatchedName(now.city, if patch.Some? then patch.value.city else None, stored.city)
    && PatchedName(now.state, if patch.Some? then patch.value.state else None, stored.state)
    && (if patch.Some? && patch.value.place_id.Some? && patch.value.place_id.value != "" then now.placeId == patch.value.place_id
        else PatchedName(now.placeId, if patch.Some? then patch.value.placeId else None, stored.placeId))
  }

  lemma LocationIsPatched(patch: Option<RawLocation>, stored: Option<Location>)
    ensures Patched(NormalizeLocation(patch, stored), patch, stored.GetOr(NO_LOCATION))
  {
  }

  /** Exactly the cells of the point at the three resolutions; none without both coordinates. */
  ghost predicate CellsOfPoint(geo: Geo, cells: seq<string>, l: Location) {
    forall c :: c in cells <==>
      l.latitude.Some? && l.longitude.Some?
      && (c == geo.cell(l.latitude.value, l.longitude.value, 5)
          || c == geo.cell(l.latitude.value, l.longitude.value, 6)
          || c == geo.cell(l.latitude.value, l.longitude.value, 7))
  }

  predicate IsCellOf(geo: Geo, c: string, p: (real, real)) {
    c == geo.cell(p.0, p.1, 5) || c == geo.cell(p.0, p.1, 6) || c == geo.cell(p.0, p.1, 7)
  }

  /** Exactly the cells of the interpolated points. */
  ghost predicate CellsOfRoute(geo: Geo, cells: seq<string>, o: Location, d: Location) {
    forall c :: c in cells <==> exists i :: 0 <= i < |Points(geo, o, d)| && IsCellOf(geo, c, Points(geo, o, d)[i])
  }

  ghost predicate IsTerm(part: Option<string>, t: string) {
    part.Some? && part.value != "" && HasBlock(Lowered(part.value), t)
  }

  /** Exactly the blocks of the two cities and the two place ids. */
  ghost predicate TermsOf(terms: seq<string>, o: Location, d: Location) {
    forall t :: t in terms <==> IsTerm(o.city, t) || IsTerm(d.city, t) || IsTerm(o.placeId, t) || IsTerm(d.placeId, t)
  }

  /** The document a patch makes of the stored one, field by field. */
  ghost predicate DocPatched(geo: Geo, doc: Doc, p: Payload, stored: Option<Doc>) {
    && Patched(doc.origin, p.origin, if stored.Some? then stored.value.origin else NO_LOCATION)
    && Patched(doc.destination, p.destination, if stored.Some? then stored.value.destination else NO_LOCATION)
    && TermsOf(doc.terms, doc.origin, doc.destination)
    && CellsOfPoint(geo, doc.originCells, doc.origin)
    && CellsOfPoint(geo, doc.destinationCells, doc.destination)
    && CellsOfRoute(geo, doc.routeCells, doc.origin, doc.destination)
  }

  lemma CellSetIs(geo: Geo, lat: real, lng: real, c: string)
    ensures c in CellSet(geo, lat, lng) <==> IsCellOf(geo, c, (lat, lng))
  {
    assert H3_RESOLUTIONS[0] == 5 && H3_RESOLUTIONS[1] == 6 && H3_RESOLUTIONS[2] == 7;
  }

  lemma {:induction false} RouteCellSetIs(geo: Geo, points: seq<(real, real)>, c: string)
    ensures c in RouteCellSet(geo, points) <==> exists i :: 0 <= i < |points| && IsCellOf(geo, c, points[i])
    decreases |points|
  {
    if points != [] {
      var n := |points| - 1;
      RouteCellSetIs(geo, points[..n], c);
      CellSetIs(geo, points[n].0, points[n].1, c);
      if i :| 0 <= i < |points| && IsCellOf(geo, c, points[i]) {
        if i < n { assert points[..n][i] == points[i]; }
      }
    }
  }

  lemma PointCellsAre(geo: Geo, l: Location)
    ensures CellsOfPoint(geo, Sorted(PointCells(geo, l)), l)
  {
    if HasPoint(l) {
      forall c: string { CellSetIs(geo, l.latitude.value, l.longitude.value, c); }
    }
  }

  lemma TermsAre(o: Location, d: Location)
    ensures TermsOf(Sorted(TermSet(TermParts(o, d))), o, d)
  {
    var parts := TermParts(o, d);
    forall t
      ensures t in TermSet(parts) <==> IsTerm(o.city, t) || IsTerm(d.city, t) || IsTerm(o.placeId, t) || IsTerm(d.placeId, t)
    {
      TermsAreBlocks(parts, t);
      assert parts[0] == o.city && parts[1] == d.city && parts[2] == o.placeId && parts[3] == d.placeId;
      assert forall k :: 0 <= k < 4 ==> (Truthy(parts[k]) && HasBlock(Lowered(parts[k].value), t) <==> IsTerm(parts[k], t));
    }
  }

  lemma DocIsPatched(geo: Geo, p: Payload, stored: Option<Doc>)
    ensures DocPatched(geo, NormalizeDoc(geo, p, stored), p, stored)
  {
    var doc := NormalizeDoc(geo, p, stored);
    LocationIsPatched(p.origin, if stored.Some? then Some(stored.value.origin) else None);
    LocationIsPatched(p.destination, if stored.Some? then Some(stored.value.destination) else None);
    TermsAre(doc.origin, doc.destination);
    PointCellsAre(geo, doc.origin);
    PointCellsAre(geo, doc.destination);
    forall c: string { RouteCellSetIs(geo, Points(geo, doc.origin, doc.destination), c); }
  }

  /** A patch that gives only a GeoJSON point puts the document in the cells of (point[1], point[0]). */
  lemma PointDecidesCells(geo: Geo, doc: Doc, p: Payload, stored: Option<Doc>, c: string)
    requires DocPatched(geo, doc, p, stored)
    requires p.origin.Some? && p.origin.value.latitude == None && p.origin.value.longitude == None && |p.origin.value.point| >= 2
    ensures c in doc.originCells <==> IsCellOf(geo, c, (p.origin.value.point[1], p.origin.value.point[0]))
  {
  }

  /** The route takes one step more for every 75 kilometres, never fewer than two nor more than sixteen. */
  lemma StepsAreLegs(geo: Geo, o: Location, d: Location)
    requires HasPoint(o) && HasPoint(d)
    ensures var n, km := Steps(geo, o, d), geo.distanceKm(o.longitude.value, o.latitude.value, d.longitude.value, d.latitude.value);
            && 2 <= n <= 16
            && (n > 2 ==> km >= 75.0 * (n - 2) as real)
            && (n < 16 ==> km < 75.0 * (n - 1) as real)
  {
  }

  lemma ScaledBack(x: real, ratio: real, n: real)
    ensures x * ratio * n == x * (ratio * n)
  {
  }

  /** The points lie evenly on the straight line, each as (latitude, longitude). */
  lemma EvenlySpaced(geo: Geo, o: Location, d: Location, i: nat)
    requires HasPoint(o) && HasPoint(d) && i <= Steps(geo, o, d)
    ensures var n, ps := Steps(geo, o, d), Points(geo, o, d);
            && |ps| == n + 1
            && (ps[i].0 - o.latitude.value) * n as real == (d.latitude.value - o.latitude.value) * i as real
            && (ps[i].1 - o.longitude.value) * n as real == (d.longitude.value - o.longitude.value) * i as real
  {
    var n := Steps(geo, o, d);
    var ratio := i as real / n as real;
    assert ratio * n as real == i as real;
    ScaledBack(d.latitude.value - o.latitude.value, ratio, n as real);
    ScaledBack(d.longitude.value - o.longitude.value, ratio, n as real);
  }

  // ---------------------------------------------------------------- the loops

  method Tokenize(parts: seq<Option<string>>) returns (terms: seq<string>)
    ensures terms == Sorted(TermSet(parts))
    ensures forall t :: t in terms <==> exists k :: 0 <= k < |parts| && Truthy(parts[k]) && HasBlock(Lowered(parts[k].value), t)
  {
    var tokens: set<string> := {};
    for i := 0 to |parts|
      invariant tokens == TermSet(parts[..i])
    {
      assert parts[..i + 1][..i] == parts[..i];
      if Truthy(parts[i]) {
        tokens := tokens + Runs(parts[i].value, "");
      }
    }
    assert parts[..|parts|] == parts;
    terms := SortStrings(tokens);
    forall t ensures t in TermSet(parts) <==> exists k :: 0 <= k < |parts| && Truthy(parts[k]) && HasBlock(Lowered(parts[k].value), t) {
      TermsAreBlocks(parts, t);
    }
  }

  method InterpolatedPoints(geo: Geo, o: Location, d: Location) returns (points: seq<(real, real)>)
    ensures points == Points(geo, o, d)
  {
    if !HasPoint(o) || !HasPoint(d) {
      return [];
    }
    var n := Steps(geo, o, d);
    points := [];
    for step := 0 to n + 1
      invariant |points| == step
      invariant forall i :: 0 <= i < step ==> points[i] == PointAt(o, d, i, n)
    {
      points := points + [PointAt(o, d, step, n)];
    }
  }

  method RouteCells(geo: Geo, o: Location, d: Location) returns (cells: seq<string>)
    ensures cells == Sorted(RouteCellSet(geo, Points(geo, o, d)))
  {
    var points := InterpolatedPoints(geo, o, d);
    var found: set<string> := {};
    for i := 0 to |points|
      invariant found == RouteCellSet(geo, points[..i])
    {
      assert points[..i + 1][..i] == points[..i];
      found := found + set r <- H3_RESOLUTIONS :: geo.cell(points[i].0, points[i].1, r);
    }
    assert points[..|points|] == points;
    cells := SortStrings(found);
  }

  method MakeDoc(geo: Geo, p: Payload, stored: Option<Doc>) returns (doc: Doc)
    ensures doc == NormalizeDoc(geo, p, stored) && DocPatched(geo, doc, p, stored)
  {
    DocIsPatched(geo, p, stored);
    var origin := NormalizeLocation(p.origin, if stored.Some? then Some(stored.value.origin) else None);
    var destination := NormalizeLocation(p.destination, if stored.Some? then Some(stored.value.destination) else None);
    var terms := Tokenize([origin.city, destination.city, origin.placeId, destination.placeId]);
    var originCells := SortStrings(PointCells(geo, origin));
    var destinationCells := SortStrings(PointCells(geo, destination));
    var routeCells := RouteCells(geo, origin, destination);
    doc := Doc(origin, destination, terms, originCells, destinationCells, routeCells);
  }

  // ---------------------------------------------------------------- properties of documents

  lemma {:induction false} RouteCellsContain(geo: Geo, points: seq<(real, real)>, i: nat)
    requires i < |points|
    ensures CellSet(geo, points[i].0, points[i].1) <= RouteCellSet(geo, points)
    decreases |points|
  {
    if i < |points| - 1 {
      RouteCellsContain(geo, points[..|points| - 1], i);
    }
  }

  lemma WholeShare(n: real)
    requires n > 0.0
    ensures 0.0 / n == 0.0 && n / n == 1.0
  {
  }

  lemma FirstAndLast(o: Location, d: Location, n: int)
    requires HasPoint(o) && HasPoint(d) && n > 0
    ensures PointAt(o, d, 0, n) == (o.latitude.value, o.longitude.value)
    ensures PointAt(o, d, n, n) == (d.latitude.value, d.longitude.value)
  {
    WholeShare(n as real);
    assert PointAt(o, d, 0, n) == Along(o, d, 0.0);
    assert PointAt(o, d, n, n) == Along(o, d, 1.0);
  }

  /** With both points known the route has 3 to 17 points, from the origin exactly to the destination. */
  lemma RouteEnds(geo: Geo, o: Location, d: Location)
    requires HasPoint(o) && HasPoint(d)
    ensures var ps := Points(geo, o, d);
            && 3 <= |ps| <= 17
            && ps[0] == (o.latitude.value, o.longitude.value)
            && ps[|ps| - 1] == (d.latitude.value, d.longitude.value)
    ensures PointCells(geo, o) + PointCells(geo, d) <= RouteCellSet(geo, Points(geo, o, d))
  {
    var ps, n := Points(geo, o, d), Steps(geo, o, d);
    FirstAndLast(o, d, n);
    RouteCellsContain(geo, ps, 0);
    RouteCellsContain(geo, ps, n);
  }

  /** A patch that says nothing about locations leaves every list of the document as it was. */
  lemma EmptyPatchKeepsDoc(geo: Geo, p0: Payload, stored: Option<Doc>, p: Payload)
    requires p.origin == None && p.destination == None
    ensures var doc := NormalizeDoc(geo, p0, stored); NormalizeDoc(geo, p, Some(doc)) == doc
  {
  }
}
