/**
 The server quote a cart is checked against: `normalizeDigitalCart` (lib/digital/domain.ts) over a fixed catalogue,
 and the client's acceptance of a response (lib/digital/cart-presentation.ts, floating-cart-presentation.ts).
 */
module DigitalQuote {
  import opened Prelude
  import opened DigitalCartStorage

  datatype Selection = Selection(
    id: OfferId,
    album: bool,
    priceCents: int,
    freeCompletion: bool,
    completionBase: Option<int>,
    tracks: seq<nat>)

  datatype Quote = Quoted(lines: seq<Selection>, totalCents: int, removed: seq<OfferId>) | Refused

  /** The offers on sale and the checks of a line against what its buyer owns; both stay fixed. */
  datatype Server = Server(catalogue: map<OfferId, Selection>, acceptable: Selection -> bool)

  ghost predicate ValidServer(server: Server) {
    forall id :: id in server.catalogue ==> server.catalogue[id].id == id
  }

  const MAX_SELECTION: nat := 50
  const MAX_TOTAL_CENTS: int := 500_000

  predicate WellPriced(s: Selection) {
    && ((s.album && s.priceCents == 0 && s.freeCompletion) || DigitalPrice(s.priceCents))
    && (s.completionBase.Some? ==> DigitalPrice(s.completionBase.value))
    && s.tracks != []
  }

  function Put(done: seq<Selection>, s: Selection): seq<Selection> {
    if done == [] then [s]
    else if done[0].id == s.id then [s] + done[1..]
    else [done[0]] + Put(done[1..], s)
  }

  /** A Map from id to selection keeps the first position and the last value. */
  function UniqueById(selected: seq<Selection>): (u: seq<Selection>)
    decreases |selected|
  {
    if selected == [] then []
    else Put(UniqueById(selected[..|selected| - 1]), selected[|selected| - 1])
  }

  function Covered(selected: seq<Selection>): set<nat> {
    set s, t | s in selected && s.album && t in s.tracks :: t
  }

  predicate Kept(s: Selection, covered: set<nat>) {
    s.album || s.tracks == [] || s.tracks[0] !in covered
  }

  function Lines(unique: seq<Selection>, covered: set<nat>): seq<Selection> {
    if unique == [] then []
    else if Kept(unique[0], covered) then [unique[0]] + Lines(unique[1..], covered)
    else Lines(unique[1..], covered)
  }

  function Removed(unique: seq<Selection>, covered: set<nat>): seq<OfferId> {
    if unique == [] then []
    else if Kept(unique[0], covered) then Removed(unique[1..], covered)
    else [unique[0].id] + Removed(unique[1..], covered)
  }

  function Ids(selected: seq<Selection>): seq<OfferId> {
    seq(|selected|, i requires 0 <= i < |selected| => selected[i].id)
  }

  function Total(lines: seq<Selection>): int {
    if lines == [] then 0 else lines[0].priceCents + Total(lines[1..])
  }

  function AllTracks(lines: seq<Selection>): seq<nat> {
    if lines == [] then [] else lines[0].tracks + AllTracks(lines[1..])
  }

  ghost function Normalize(selected: seq<Selection>, acceptable: Selection -> bool): Quote {
    var unique := UniqueById(selected);
    var covered := Covered(unique);
    var lines := Lines(unique, covered);
    if || |selected| > MAX_SELECTION
       || (exists s :: s in unique && !WellPriced(s))
       || (exists s :: s in lines && !acceptable(s))
       || !Distinct(AllTracks(lines))
       || ((exists s :: s in lines && s.completionBase.Some?) && |lines| != 1)
       || Total(lines) > MAX_TOTAL_CENTS
    then Refused
    else Quoted(lines, Total(lines), Removed(unique, covered))
  }

  /** The offers of the rows that the database returned, in their order (lib/digital/catalog.ts). */
  function Select(server: Server, ids: seq<OfferId>): seq<Selection>
    requires forall id :: id in ids ==> id in server.catalogue
  {
    seq(|ids|, i requires 0 <= i < |ids| => server.catalogue[ids[i]])
  }

  /** The quote when the rows come in the order of `ids`; the query for them asks for no order. */
  ghost function Answer(server: Server, ids: seq<OfferId>): Quote {
    if exists id :: id in ids && id !in server.catalogue then Refused
    else Normalize(Select(server, ids), server.acceptable)
  }

  /** The rows for the asked ids: any order of them. */
  function Rows(ids: seq<OfferId>, order: seq<OfferId>): (rows: seq<OfferId>)
    ensures Rearranges(rows, ids)
  {
    if Rearranges(order, ids) then order else ids
  }

  /** Two quotes that differ at most in the order of their lines and of their removed ids. */
  predicate Alike(q: Quote, r: Quote) {
    || (q.Refused? && r.Refused?)
    || (q.Quoted? && r.Quoted? && q.totalCents == r.totalCents
        && Rearranges(q.lines, r.lines) && Rearranges(q.removed, r.removed))
  }

  /** A selection the server would keep as it is. */
  ghost predicate Settled(server: Server, ids: seq<OfferId>) {
    Answer(server, ids).Quoted? && Ids(Answer(server, ids).lines) == ids
  }

  // ----- normalisation

  lemma {:induction false} PutNew(done: seq<Selection>, s: Selection)
    requires s.id !in Ids(done)
    ensures Put(done, s) == done + [s]
  {
    if done != [] {
      assert Ids(done)[0] == done[0].id;
      assert forall i :: 0 <= i < |done[1..]| ==> Ids(done[1..])[i] == Ids(done)[i + 1];
      PutNew(done[1..], s);
    }
  }

  lemma {:induction false} UniqueByIdOfDistinct(selected: seq<Selection>)
    requires Distinct(Ids(selected))
    ensures UniqueById(selected) == selected
    decreases |selected|
  {
    if selected != [] {
      var front, last := selected[..|selected| - 1], selected[|selected| - 1];
      assert forall i :: 0 <= i < |front| ==> Ids(front)[i] == Ids(selected)[i];
      assert Ids(selected)[|selected| - 1] == last.id;
      UniqueByIdOfDistinct(front);
      PutNew(front, last);
      assert selected == front + [last];
    }
  }

  lemma {:induction false} LinesAreKept(unique: seq<Selection>, covered: set<nat>)
    ensures forall s :: s in Lines(unique, covered) <==> s in unique && Kept(s, covered)
    ensures |Lines(unique, covered)| + |Removed(unique, covered)| == |unique|
    ensures Removed(unique, covered) == [] ==> Lines(unique, covered) == unique
    ensures (forall s :: s in unique ==> Kept(s, covered)) ==> Lines(unique, covered) == unique
  {
    if unique != [] {
      LinesAreKept(unique[1..], covered);
      assert forall s :: s in unique <==> s == unique[0] || s in unique[1..];
      assert forall s :: s in unique[1..] ==> s in unique;
    }
  }

  lemma IdsOfCons(s: Selection, rest: seq<Selection>)
    ensures Ids([s] + rest) == [s.id] + Ids(rest)
  {
  }

  lemma {:induction false} LinesStayDistinct(unique: seq<Selection>, covered: set<nat>)
    requires Distinct(Ids(unique))
    ensures Distinct(Ids(Lines(unique, covered)))
    ensures forall id :: id in Ids(Lines(unique, covered)) ==> id in Ids(unique)
  {
    if unique != [] {
      var rest := unique[1..];
      IdsOfCons(unique[0], rest);
      assert unique == [unique[0]] + rest;
      assert Ids(rest) == Ids(unique)[1..];
      LinesStayDistinct(rest, covered);
      if Kept(unique[0], covered) {
        IdsOfCons(unique[0], Lines(rest, covered));
        assert unique[0].id !in Ids(rest) by {
          assert forall k :: 0 <= k < |rest| ==> Ids(rest)[k] == Ids(unique)[k + 1] != Ids(unique)[0];
        }
      }
    }
  }

  lemma AlbumsStay(unique: seq<Selection>)
    ensures Covered(Lines(unique, Covered(unique))) == Covered(unique)
  {
    LinesAreKept(unique, Covered(unique));
  }

  /** For a duplicate-free selection the lines are part of it, and they are all of it when nothing is removed. */
  lemma NormalizeShape(selected: seq<Selection>, acceptable: Selection -> bool)
    requires Distinct(Ids(selected)) && Normalize(selected, acceptable).Quoted?
    ensures var q := Normalize(selected, acceptable);
            && (forall s :: s in q.lines ==> s in selected)
            && Distinct(Ids(q.lines))
            && |q.lines| + |q.removed| == |selected|
            && (q.removed == [] ==> q.lines == selected)
            && q.totalCents == Total(q.lines)
  {
    UniqueByIdOfDistinct(selected);
    LinesAreKept(selected, Covered(selected));
    LinesStayDistinct(selected, Covered(selected));
  }

  /** The kept lines alone are quoted unchanged: same lines, same total, nothing more to remove. */
  lemma NormalizeIsIdempotent(selected: seq<Selection>, acceptable: Selection -> bool)
    requires Distinct(Ids(selected)) && Normalize(selected, acceptable).Quoted?
    ensures var q := Normalize(selected, acceptable);
            Normalize(q.lines, acceptable) == Quoted(q.lines, q.totalCents, [])
  {
    NormalizeShape(selected, acceptable);
    var lines := Normalize(selected, acceptable).lines;
    UniqueByIdOfDistinct(selected);
    UniqueByIdOfDistinct(lines);
    AlbumsStay(selected);
    LinesAreKept(selected, Covered(selected));
    LinesAreKept(lines, Covered(lines));
  }

  lemma {:induction false} TotalIsNatural(lines: seq<Selection>)
    requires forall s :: s in lines ==> WellPriced(s)
    ensures Total(lines) >= 0
  {
    if lines != [] {
      assert lines[0] in lines;
      TotalIsNatural(lines[1..]);
    }
  }

  // ----- the server

  lemma SelectedIds(server: Server, ids: seq<OfferId>)
    requires ValidServer(server) && forall id :: id in ids ==> id in server.catalogue
    ensures Ids(Select(server, ids)) == ids
    ensures forall s :: s in Select(server, ids) ==> s.id in ids && server.catalogue[s.id] == s
  {
    forall s | s in Select(server, ids) ensures s.id in ids && server.catalogue[s.id] == s {
      var i :| 0 <= i < |ids| && Select(server, ids)[i] == s;
      assert ids[i] in ids;
    }
    assert forall i :: 0 <= i < |ids| ==> ids[i] in ids;
  }

  /** Looking the ids of some selected lines up again gives the same lines. */
  lemma Reselected(server: Server, ids: seq<OfferId>, lines: seq<Selection>)
    requires ValidServer(server) && forall id :: id in ids ==> id in server.catalogue
    requires forall s :: s in lines ==> s in Select(server, ids)
    ensures forall id :: id in Ids(lines) ==> id in ids && id in server.catalogue
    ensures Select(server, Ids(lines)) == lines
  {
    SelectedIds(server, ids);
    forall id | id in Ids(lines) ensures id in ids && id in server.catalogue {
      var i :| 0 <= i < |lines| && Ids(lines)[i] == id;
      assert lines[i] in Select(server, ids);
    }
    forall i | 0 <= i < |lines| ensures server.catalogue[Ids(lines)[i]] == lines[i] {
      assert lines[i] in Select(server, ids);
    }
  }

  /** A quote of distinct ids prices a duplicate-free part of them, and pruning the cart to it settles the cart. */
  lemma QuoteSettles(server: Server, ids: seq<OfferId>)
    requires ValidServer(server) && Distinct(ids) && Answer(server, ids).Quoted?
    ensures var q := Answer(server, ids);
            && Distinct(Ids(q.lines))
            && (forall id :: id in Ids(q.lines) ==> id in ids)
            && Answer(server, Ids(q.lines)) == Quoted(q.lines, q.totalCents, [])
            && Settled(server, Ids(q.lines))
            && (q.removed == [] <==> Ids(q.lines) == ids)
            && (q.removed != [] ==> |q.lines| < |ids|)
            && 0 <= q.totalCents <= MAX_TOTAL_CENTS
            && (q.lines == [] ==> q.totalCents == 0)
  {
    var q, selected := Answer(server, ids), Select(server, ids);
    SelectedIds(server, ids);
    NormalizeShape(selected, server.acceptable);
    NormalizeIsIdempotent(selected, server.acceptable);
    Reselected(server, ids, q.lines);
    UniqueByIdOfDistinct(selected);
    LinesAreKept(selected, Covered(selected));
    TotalIsNatural(q.lines);
    assert |Ids(q.lines)| == |q.lines|;
  }

  /** The ids that are not among those gone, in their order. */
  function Without(ids: seq<OfferId>, gone: seq<OfferId>): seq<OfferId> {
    if ids == [] then []
    else if ids[0] in gone then Without(ids[1..], gone)
    else [ids[0]] + Without(ids[1..], gone)
  }

  lemma {:induction false} WithoutIgnores(ids: seq<OfferId>, gone: seq<OfferId>, x: OfferId)
    requires x !in ids
    ensures Without(ids, [x] + gone) == Without(ids, gone)
  {
    if ids != [] {
      assert ids[0] in ids;
      WithoutIgnores(ids[1..], gone, x);
    }
  }

  lemma {:induction false} LinesAreTheRest(unique: seq<Selection>, covered: set<nat>)
    requires Distinct(Ids(unique))
    ensures Ids(Lines(unique, covered)) == Without(Ids(unique), Removed(unique, covered))
    ensures forall id :: id in Removed(unique, covered) ==> id in Ids(unique)
  {
    if unique != [] {
      var s, rest := unique[0], unique[1..];
      IdsOfCons(s, rest);
      assert unique == [s] + rest && Ids(unique)[1..] == Ids(rest);
      assert s.id !in Ids(rest) by {
        assert forall k :: 0 <= k < |rest| ==> Ids(rest)[k] == Ids(unique)[k + 1] != Ids(unique)[0];
      }
      LinesAreTheRest(rest, covered);
      if Kept(s, covered) {
        IdsOfCons(s, Lines(rest, covered));
      } else {
        WithoutIgnores(Ids(rest), Removed(rest, covered), s.id);
      }
    }
  }

  /** What a quote keeps of the rows is the rest, in their order, once the removed ids are taken out; those were asked. */
  lemma QuotedIdsAreTheRest(server: Server, ids: seq<OfferId>)
    requires ValidServer(server) && Distinct(ids) && Answer(server, ids).Quoted?
    ensures var q := Answer(server, ids);
            Ids(q.lines) == Without(ids, q.removed) && forall id :: id in q.removed ==> id in ids
  {
    var selected := Select(server, ids);
    SelectedIds(server, ids);
    UniqueByIdOfDistinct(selected);
    LinesAreTheRest(selected, Covered(selected));
  }

  /**
   What is removed is exactly what the buyer gets with an album of the same cart: each removed title's track is in a line
   that stays and is an album, and no title that stays is in one.
   */
  lemma RemovedAreCovered(server: Server, ids: seq<OfferId>, id: OfferId)
    requires ValidServer(server) && Distinct(ids) && Answer(server, ids).Quoted? && id in ids
    ensures id in server.catalogue
    ensures var q, s := Answer(server, ids), server.catalogue[id];
            && s.tracks != []
            && (id in q.removed <==> !s.album && exists a :: a in q.lines && a.album && s.tracks[0] in a.tracks)
  {
    var q, s, selected := Answer(server, ids), server.catalogue[id], Select(server, ids);
    SelectedIds(server, ids);
    UniqueByIdOfDistinct(selected);
    LinesAreTheRest(selected, Covered(selected));
    LinesAreKept(selected, Covered(selected));
    var i :| 0 <= i < |ids| && ids[i] == id;
    assert selected[i] == s && s in selected;
    RemovedExactly(selected, Covered(selected), s);
    if s.tracks[0] in Covered(selected) {
      var a :| a in selected && a.album && s.tracks[0] in a.tracks;
      assert a in q.lines;
    }
  }

  lemma {:induction false} RemovedExactly(unique: seq<Selection>, covered: set<nat>, s: Selection)
    requires Distinct(Ids(unique)) && s in unique
    ensures s.id in Removed(unique, covered) <==> !Kept(s, covered)
  {
    var rest := unique[1..];
    assert unique == [unique[0]] + rest;
    IdsOfCons(unique[0], rest);
    assert Ids(unique)[1..] == Ids(rest);
    assert unique[0].id !in Ids(rest) by {
      assert forall k :: 0 <= k < |rest| ==> Ids(rest)[k] == Ids(unique)[k + 1] != Ids(unique)[0];
    }
    LinesAreTheRest(rest, covered);
    if s != unique[0] {
      RemovedExactly(rest, covered, s);
      var i :| 0 <= i < |rest| && rest[i] == s;
      assert Ids(rest)[i] == s.id;
    }
  }

  // ----- when there is a quote

  /** An album of the same selection has the track of this single title. */
  predicate InAlbum(selected: seq<Selection>, s: Selection) {
    !s.album && s.tracks != [] && exists a :: a in selected && a.album && s.tracks[0] in a.tracks
  }

  /** No track is sold twice, within a line or in two of them. */
  ghost predicate TracksOnce(lines: seq<Selection>) {
    && (forall i :: 0 <= i < |lines| ==> Distinct(lines[i].tracks))
    && (forall i, j, t :: 0 <= i < j < |lines| && t in lines[i].tracks ==> t !in lines[j].tracks)
  }

  lemma {:induction false} TracksAreAll(lines: seq<Selection>)
    ensures forall t :: t in AllTracks(lines) <==> exists i :: 0 <= i < |lines| && t in lines[i].tracks
  {
    if lines != [] {
      TracksAreAll(lines[1..]);
      forall t ensures t in AllTracks(lines) <==> exists i :: 0 <= i < |lines| && t in lines[i].tracks {
        if t in AllTracks(lines[1..]) {
          var i :| 0 <= i < |lines[1..]| && t in lines[1..][i].tracks;
          assert t in lines[i + 1].tracks;
        }
        if i :| 0 <= i < |lines| && t in lines[i].tracks {
          assert i > 0 ==> t in lines[1..][i - 1].tracks;
        }
      }
    }
  }

  lemma SharedIsTwice<T>(a: seq<T>, b: seq<T>, x: T)
    requires x in a && x in b
    ensures !Distinct(a + b)
  {
    var i :| 0 <= i < |a| && a[i] == x;
    var j :| 0 <= j < |b| && b[j] == x;
    assert (a + b)[i] == (a + b)[|a| + j];
  }

  lemma DistinctConcat<T>(a: seq<T>, b: seq<T>)
    ensures Distinct(a + b) <==> Distinct(a) && Distinct(b) && forall x :: x in a ==> x !in b
  {
    var c := a + b;
    if Distinct(c) {
      assert forall i, j :: 0 <= i < j < |a| ==> c[i] == a[i] && c[j] == a[j];
      assert forall i, j :: 0 <= i < j < |b| ==> c[|a| + i] == b[i] && c[|a| + j] == b[j];
      forall x | x in a ensures x !in b {
        if x in b { SharedIsTwice(a, b, x); }
      }
    } else {
      var i, j :| 0 <= i < j < |c| && c[i] == c[j];
      assert if j < |a| then a[i] == a[j] else if i < |a| then a[i] in b else b[i - |a|] == b[j - |a|];
    }
  }

  lemma {:induction false} DistinctTracks(lines: seq<Selection>)
    ensures Distinct(AllTracks(lines)) <==> TracksOnce(lines)
  {
    if lines != [] {
      var first, rest := lines[0], lines[1..];
      DistinctTracks(rest);
      DistinctConcat(first.tracks, AllTracks(rest));
      TracksAreAll(rest);
      if TracksOnce(lines) {
        assert forall i :: 0 <= i < |rest| ==> rest[i] == lines[i + 1];
      }
      if Distinct(AllTracks(lines)) {
        forall i, j, t | 0 <= i < j < |lines| && t in lines[i].tracks ensures t !in lines[j].tracks {
          assert lines[j] == rest[j - 1] && (i > 0 ==> lines[i] == rest[i - 1]);
        }
        assert forall i :: 0 < i < |lines| ==> lines[i] == rest[i - 1];
      }
      hide AllTracks, Distinct;
    }
  }

  /**
   For distinct offers there is a quote exactly if they are fifty at most, each is well priced, each that no album covers
   passes the checks of its buyer, these have no track in common, a completed album is alone among them, and they cost
   no more than the limit.
   */
  lemma QuotedExactly(selected: seq<Selection>, acceptable: Selection -> bool)
    requires Distinct(Ids(selected))
    ensures var lines := Lines(selected, Covered(selected));
            && (forall s :: s in lines <==> s in selected && !InAlbum(selected, s))
            && (Normalize(selected, acceptable).Quoted? <==>
                  && |selected| <= 50
                  && (forall s :: s in selected ==> WellPriced(s))
                  && (forall s :: s in selected && !InAlbum(selected, s) ==> acceptable(s))
                  && TracksOnce(lines)
                  && ((exists s :: s in selected && !InAlbum(selected, s) && s.completionBase.Some?) ==> |lines| == 1)
                  && Total(lines) <= 500_000)
  {
    hide Lines, AllTracks, Distinct, TracksOnce, WellPriced, Total, UniqueById, InAlbum;
    UniqueByIdOfDistinct(selected);
    KeptOutsideAlbums(selected);
    DistinctTracks(Lines(selected, Covered(selected)));
  }

  lemma KeptOutsideAlbums(selected: seq<Selection>)
    ensures forall s :: s in Lines(selected, Covered(selected)) <==> s in selected && !InAlbum(selected, s)
  {
    LinesAreKept(selected, Covered(selected));
    hide Lines;
  }

  /** The server asks for the offers first: one that is not on sale refuses the cart, and otherwise it is quoted as above. */
  lemma OffersOnSaleAreQuoted(server: Server, ids: seq<OfferId>)
    requires ValidServer(server) && Distinct(ids)
    ensures (exists id :: id in ids && id !in server.catalogue) ==> Answer(server, ids).Refused?
    ensures (forall id :: id in ids ==> id in server.catalogue) ==>
              Ids(Select(server, ids)) == ids && Answer(server, ids) == Normalize(Select(server, ids), server.acceptable)
  {
    if forall id :: id in ids ==> id in server.catalogue {
      SelectedIds(server, ids);
    }
    hide Normalize;
  }

  // ----- the order of the rows

  lemma {:induction false} SumsOfConcat(a: seq<Selection>, b: seq<Selection>)
    ensures Total(a + b) == Total(a) + Total(b)
    ensures AllTracks(a + b) == AllTracks(a) + AllTracks(b)
  {
    if a == [] {
      assert a + b == b;
    } else {
      assert (a + b)[1..] == a[1..] + b;
      SumsOfConcat(a[1..], b);
    }
  }

  lemma {:induction false} LinesOfConcat(a: seq<Selection>, b: seq<Selection>, covered: set<nat>)
    ensures Lines(a + b, covered) == Lines(a, covered) + Lines(b, covered)
    ensures Removed(a + b, covered) == Removed(a, covered) + Removed(b, covered)
  {
    hide Kept;
    if a == [] {
      assert a + b == b;
    } else {
      assert (a + b)[0] == a[0] && (a + b)[1..] == a[1..] + b;
      LinesOfConcat(a[1..], b, covered);
    }
  }

  /** The total has every line's own price in it, once, wherever the line stands. */
  lemma TotalAddsPrices(before: seq<Selection>, s: Selection, after: seq<Selection>)
    ensures Total(before + [s] + after) == Total(before) + s.priceCents + Total(after) && Total([]) == 0
  {
    SumsOfConcat(before + [s], after);
    SumsOfConcat(before, [s]);
  }

  /** What a quote sums does not depend on the order. */
  lemma {:induction false} RearrangedSums(a: seq<Selection>, b: seq<Selection>)
    requires Rearranges(a, b)
    ensures Total(a) == Total(b) && Rearranges(AllTracks(a), AllTracks(b))
    decreases |a|
  {
    if a == [] {
      assert |multiset(b)| == 0;
    } else {
      var i := RearrangedWithoutFirst(a, b);
      var first, x, y := [a[0]], b[..i], b[i + 1..];
      RearrangedSums(a[1..], x + y);
      assert a == first + a[1..] && b == x + first + y;
      SumsOfConcat(first, a[1..]);
      SumsOfConcat(x + first, y);
      SumsOfConcat(x, first);
      SumsOfConcat(x, y);
      hide Total, AllTracks;
    }
  }

  /** Nor does which lines are kept and which ids are removed. */
  lemma {:induction false} RearrangedLines(a: seq<Selection>, b: seq<Selection>, covered: set<nat>)
    requires Rearranges(a, b)
    ensures Rearranges(Lines(a, covered), Lines(b, covered)) && Rearranges(Removed(a, covered), Removed(b, covered))
    decreases |a|
  {
    if a == [] {
      assert |multiset(b)| == 0;
    } else {
      var i := RearrangedWithoutFirst(a, b);
      var first, x, y := [a[0]], b[..i], b[i + 1..];
      RearrangedLines(a[1..], x + y, covered);
      assert a == first + a[1..] && b == x + first + y;
      LinesOfConcat(first, a[1..], covered);
      LinesOfConcat(x + first, y, covered);
      LinesOfConcat(x, first, covered);
      LinesOfConcat(x, y, covered);
      hide Lines, Removed, Rearranges;
      InsertedRearranges(Lines(first, covered), Lines(a[1..], covered), Lines(x, covered), Lines(y, covered));
      InsertedRearranges(Removed(first, covered), Removed(a[1..], covered), Removed(x, covered), Removed(y, covered));
    }
  }

  lemma {:induction false} SelectRearranged(server: Server, rows: seq<OfferId>, ids: seq<OfferId>)
    requires Rearranges(rows, ids) && forall id :: id in rows ==> id in server.catalogue
    ensures forall id :: id in ids ==> id in server.catalogue
    ensures Rearranges(Select(server, rows), Select(server, ids))
    decreases |rows|
  {
    forall id | id in ids ensures id in server.catalogue {
      assert id in multiset(rows);
    }
    if rows == [] {
      assert |multiset(ids)| == 0;
    } else {
      var i := RearrangedWithoutFirst(rows, ids);
      var x, y := ids[..i], ids[i + 1..];
      SelectRearranged(server, rows[1..], x + y);
      var first := server.catalogue[rows[0]];
      assert Select(server, rows) == [first] + Select(server, rows[1..]);
      assert Select(server, x + y) == Select(server, x) + Select(server, y);
      assert Select(server, ids) == Select(server, x) + [first] + Select(server, y);
      hide Select;
    }
  }

  lemma {:induction false} IdsRearranged(a: seq<Selection>, b: seq<Selection>)
    requires Rearranges(a, b)
    ensures Rearranges(Ids(a), Ids(b))
    decreases |a|
  {
    if a == [] {
      assert |multiset(b)| == 0;
    } else {
      var i := RearrangedWithoutFirst(a, b);
      var first, x, y := [a[0]], b[..i], b[i + 1..];
      IdsRearranged(a[1..], x + y);
      assert a == first + a[1..] && b == x + first + y;
      assert Ids(a) == Ids(first) + Ids(a[1..]) && Ids(b) == Ids(x) + Ids(first) + Ids(y);
      assert Ids(x + y) == Ids(x) + Ids(y);
      hide Ids, Rearranges;
      InsertedRearranges(Ids(first), Ids(a[1..]), Ids(x), Ids(y));
    }
  }

  lemma NormalizeIgnoresOrder(a: seq<Selection>, b: seq<Selection>, acceptable: Selection -> bool)
    requires Rearranges(a, b) && Distinct(Ids(a)) && Distinct(Ids(b))
    ensures Alike(Normalize(a, acceptable), Normalize(b, acceptable))
  {
    UniqueByIdOfDistinct(a);
    UniqueByIdOfDistinct(b);
    forall s ensures s in a <==> s in b {
      assert s in a <==> s in multiset(a);
      assert s in b <==> s in multiset(b);
    }
    assert |a| == |multiset(a)| && |b| == |multiset(b)|;
    assert Covered(a) == Covered(b);
    var covered := Covered(a);
    RearrangedLines(a, b, covered);
    var linesA, linesB := Lines(a, covered), Lines(b, covered);
    RearrangedSums(linesA, linesB);
    forall s ensures s in linesA <==> s in linesB {
      assert s in linesA <==> s in multiset(linesA);
      assert s in linesB <==> s in multiset(linesB);
    }
    assert |linesA| == |multiset(linesA)| && |linesB| == |multiset(linesB)|;
    DistinctByCount(AllTracks(linesA));
    DistinctByCount(AllTracks(linesB));
    hide Lines, Removed, Covered, Total, AllTracks, UniqueById, Kept, WellPriced, Distinct;
  }

  /** Total, lines and removed ids do not depend on the order of the rows; only the order of the lines does. */
  lemma OrderDoesNotMatter(server: Server, rows: seq<OfferId>, ids: seq<OfferId>)
    requires ValidServer(server) && Distinct(ids) && Rearranges(rows, ids)
    ensures Distinct(rows) && |rows| == |ids|
    ensures Alike(Answer(server, rows), Answer(server, ids))
    ensures Settled(server, rows) <==> Settled(server, ids)
  {
    RearrangedIsDistinct(rows, ids);
    if forall id :: id in ids ==> id in server.catalogue {
      SelectRearranged(server, rows, ids);
      SelectedIds(server, rows);
      SelectedIds(server, ids);
      NormalizeIgnoresOrder(Select(server, rows), Select(server, ids), server.acceptable);
    }
    hide Normalize, Select;
    if Answer(server, ids).Quoted? {
      QuoteSettles(server, rows);
      QuoteSettles(server, ids);
      var p, q := Answer(server, rows).removed, Answer(server, ids).removed;
      assert |multiset(p)| == |multiset(q)|;
      assert p == [] <==> q == [];
    }
  }

  // ----- the client's acceptance of a response

  /** A response body as the browser reads it: lines without a string id and a total of another type are possible. */
  datatype Response = Response(lines: Option<seq<Option<OfferId>>>, totalCents: Option<int>)

  predicate AcceptedIds(lines: seq<Option<OfferId>>, requested: seq<OfferId>, ids: seq<OfferId>) {
    && |ids| == |lines|
    && (forall i :: 0 <= i < |lines| ==> lines[i] == Some(ids[i]) && ids[i] in requested)
    && (forall i, j :: 0 <= i < j < |ids| ==> ids[i] != ids[j])
  }

  lemma NothingElseIsAccepted(lines: seq<Option<OfferId>>, requested: seq<OfferId>, collected: seq<OfferId>)
    requires |collected| < |lines| && lines[|collected|].Some?
    requires forall k :: 0 <= k < |collected| ==> lines[k] == Some(collected[k])
    requires lines[|collected|].value !in requested || lines[|collected|].value in collected
    ensures forall ids :: !AcceptedIds(lines, requested, ids)
  {
    var i := |collected|;
    forall ids | |ids| == |lines| && (forall k :: 0 <= k < |lines| ==> lines[k] == Some(ids[k]))
      ensures !AcceptedIds(lines, requested, ids)
    {
      assert ids[..i] == collected && ids[i] == lines[i].value;
    }
  }

  /** The loop of `digitalQuotedCartIds`: the ids of the lines exactly when all are distinct requested ids. */
  method QuotedCartIds(lines: seq<Option<OfferId>>, requested: seq<OfferId>) returns (ids: Option<seq<OfferId>>)
    ensures ids.Some? ==> AcceptedIds(lines, requested, ids.value)
    ensures ids.None? ==> forall candidate :: !AcceptedIds(lines, requested, candidate)
  {
    var collected: seq<OfferId> := [];
    for i := 0 to |lines|
      invariant |collected| == i
      invariant forall k :: 0 <= k < i ==> lines[k] == Some(collected[k]) && collected[k] in requested
      invariant forall j, k :: 0 <= j < k < i ==> collected[j] != collected[k]
    {
      if lines[i].None? { return None; }
      var id := lines[i].value;
      if id !in requested || id in collected {
        NothingElseIsAccepted(lines, requested, collected);
        return None;
      }
      collected := collected + [id];
    }
    return Some(collected);
  }

  predicate AcceptedTotal(totalCents: Option<int>, ids: seq<OfferId>) {
    totalCents.Some? && 0 <= totalCents.value <= MAX_SAFE_INTEGER && (ids == [] ==> totalCents.value == 0)
  }

  /** `floatingDigitalCartQuote`: a total is only shown with a membership that passed the same checks. */
  method FloatingQuote(response: Response, requested: seq<OfferId>) returns (r: Option<(seq<OfferId>, int)>)
    ensures r.Some? ==> response.lines.Some? && AcceptedIds(response.lines.value, requested, r.value.0)
                        && AcceptedTotal(response.totalCents, r.value.0) && response.totalCents == Some(r.value.1)
    ensures r.None? ==> response.lines.None?
                        || forall ids :: !AcceptedIds(response.lines.value, requested, ids)
                                         || !AcceptedTotal(response.totalCents, ids)
  {
    if response.lines.None? { return None; }
    var ids := QuotedCartIds(response.lines.value, requested);
    if ids.None? { return None; }
    forall other | AcceptedIds(response.lines.value, requested, other) ensures other == ids.value {
    }
    if response.totalCents.None? { return None; }
    var total := response.totalCents.value;
    if total < 0 || total > MAX_SAFE_INTEGER || (ids.value == [] && total != 0) { return None; }
    return Some((ids.value, total));
  }

  function Body(q: Quote): Response
    requires q.Quoted?
  {
    Response(Some(seq(|q.lines|, i requires 0 <= i < |q.lines| => Some(q.lines[i].id))), Some(q.totalCents))
  }

  /** The client accepts every quote of the server for distinct ids, in any order, with exactly its lines and its total. */
  lemma ServerQuoteIsAccepted(server: Server, rows: seq<OfferId>, ids: seq<OfferId>)
    requires ValidServer(server) && Distinct(ids) && Rearranges(rows, ids) && Answer(server, rows).Quoted?
    ensures var q := Answer(server, rows);
            AcceptedIds(Body(q).lines.value, ids, Ids(q.lines)) && AcceptedTotal(Body(q).totalCents, Ids(q.lines))
  {
    RearrangedIsDistinct(rows, ids);
    QuoteSettles(server, rows);
    var q := Answer(server, rows);
    assert forall i :: 0 <= i < |q.lines| ==> Ids(q.lines)[i] in Ids(q.lines);
  }
}
