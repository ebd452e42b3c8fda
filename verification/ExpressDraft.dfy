/** A music draft and its normal form: `expressDraft` (lib/digital/express-policy.ts). */
module ExpressDraft {
  import opened Prelude
  import opened Text
  import opened IdempotentSubmission

  datatype Track = Track(id: Option<Text>, title: Text, priceCents: int, expectedOfferVersion: int)

  datatype Draft = Draft(
    projectId: Option<Text>,
    expectedUpdatedAt: Option<Text>,
    title: Text,
    single: bool,
    releaseDate: Option<Option<Text>>,
    membersPreview: Option<bool>,
    hasCollaborations: Option<bool>,
    tracks: seq<Track>,
    albumPriceCents: int,
    expectedAlbumOfferVersion: int)

  /** Which strings the platform's date parser accepts, as an instant and as a calendar day. */
  datatype Dates = Dates(instant: Text -> bool, day: Text -> bool)

  const TITLE_LIMIT: nat := 240
  const MAX_TRACKS: nat := 100

  predicate ValidTitle(t: Text) {
    Trim(t) != [] && |Trim(t)| <= TITLE_LIMIT && forall i :: 0 <= i < |t| ==> t[i] > 0x1f
  }

  predicate ValidVersion(v: int) {
    0 <= v <= MAX_SAFE_INTEGER
  }

  predicate ValidTrack(newProject: bool, t: Track) {
    && (t.id.Some? ==> IsUuid(t.id.value) && !newProject)
    && ValidTitle(t.title) && DigitalPrice(t.priceCents) && ValidVersion(t.expectedOfferVersion)
  }

  predicate DistinctIds(tracks: seq<Track>) {
    forall i, j :: 0 <= i < j < |tracks| && tracks[i].id.Some? && tracks[j].id.Some? ==> tracks[i].id != tracks[j].id
  }

  predicate Valid(dates: Dates, d: Draft) {
    && (d.projectId.Some? ==> IsUuid(d.projectId.value))
    && (if d.projectId.None? then d.expectedUpdatedAt.None?
        else d.expectedUpdatedAt.Some? && dates.instant(d.expectedUpdatedAt.value))
    && 1 <= |d.tracks| <= MAX_TRACKS && (d.single ==> |d.tracks| == 1)
    && (forall i :: 0 <= i < |d.tracks| ==> ValidTrack(d.projectId.None?, d.tracks[i]))
    && DistinctIds(d.tracks)
    && ValidTitle(d.title)
    && (d.releaseDate.Some? && d.releaseDate.value.Some? ==> dates.day(d.releaseDate.value.value))
    && DigitalPrice(d.albumPriceCents) && ValidVersion(d.expectedAlbumOfferVersion)
  }

  /** A valid draft is a new project without any id, or the revision of a known one as it was at an instant. */
  lemma ValidDraftIsNewOrRevision(dates: Dates, d: Draft)
    requires Valid(dates, d)
    ensures if d.projectId.None? then
              d.expectedUpdatedAt.None? && forall i :: 0 <= i < |d.tracks| ==> d.tracks[i].id.None?
            else
              IsUuid(d.projectId.value) && d.expectedUpdatedAt.Some? && dates.instant(d.expectedUpdatedAt.value)
              && forall i, j :: 0 <= i < j < |d.tracks| && d.tracks[i].id.Some? ==> d.tracks[i].id != d.tracks[j].id
  {
    hide IsUuid, ValidTitle;
  }

  function TrimTrack(t: Track): Track {
    t.(title := Trim(t.title))
  }

  function TrimTracks(tracks: seq<Track>): seq<Track> {
    seq(|tracks|, i requires 0 <= i < |tracks| => TrimTrack(tracks[i]))
  }

  function Normal(d: Draft): Draft {
    d.(title := Trim(d.title), tracks := TrimTracks(d.tracks))
  }

  function Canonical(dates: Dates): Draft -> Option<Draft> {
    d => if Valid(dates, d) then Some(Normal(d)) else None
  }

  lemma TrimmedTitleIsValid(t: Text)
    requires ValidTitle(t)
    ensures ValidTitle(Trim(t)) && Trim(Trim(t)) == Trim(t)
  {
    TrimTwiceIsOnce(t);
    forall i | 0 <= i < |Trim(t)| ensures Trim(t)[i] > 0x1f {
      assert Trim(t)[i] in t;
    }
  }

  /** The normal form of a draft is a valid draft in normal form: storing, recovering and resending it changes nothing. */
  lemma NormalFormIsStable(dates: Dates, d: Draft)
    requires Valid(dates, d)
    ensures Valid(dates, Normal(d)) && Normal(Normal(d)) == Normal(d)
  {
    hide IsUuid, Trim, ValidTitle;
    TrimmedTitleIsValid(d.title);
    forall i | 0 <= i < |d.tracks|
      ensures ValidTitle(Normal(d).tracks[i].title) && Trim(Normal(d).tracks[i].title) == Normal(d).tracks[i].title
    {
      TrimmedTitleIsValid(d.tracks[i].title);
    }
    assert Normal(Normal(d)).tracks == Normal(d).tracks;
  }

  /** `r` is what remains of `t` once the white space around it is gone. */
  ghost predicate Stripped(t: Text, r: Text) {
    && (r != [] ==> !IsSpace(r[0]) && !IsSpace(r[|r| - 1]))
    && exists i: nat, j: nat :: SpacesAround(t, i, j) && t[i..j] == r
  }

  predicate SpacesAround(t: Text, i: nat, j: nat) {
    i <= j <= |t| && AllSpaces(t[..i]) && AllSpaces(t[j..])
  }

  predicate AllSpaces(t: Text) {
    forall i :: 0 <= i < |t| ==> IsSpace(t[i])
  }

  /** There is only one such remainder. */
  lemma StrippedOnce(t: Text, r: Text, s: Text)
    requires Stripped(t, r) && Stripped(t, s)
    ensures r == s
  {
    var i: nat, j: nat :| SpacesAround(t, i, j) && t[i..j] == r;
    var k: nat, l: nat :| SpacesAround(t, k, l) && t[k..l] == s;
    assert i < j ==> t[i] == r[0] && t[j - 1] == r[|r| - 1];
    assert k < l ==> t[k] == s[0] && t[l - 1] == s[|s| - 1];
    SameCut(t, i, j, k, l);
  }

  lemma SameCut(t: Text, i: nat, j: nat, k: nat, l: nat)
    requires SpacesAround(t, i, j) && (i < j ==> !IsSpace(t[i]) && !IsSpace(t[j - 1]))
    requires SpacesAround(t, k, l) && (k < l ==> !IsSpace(t[k]) && !IsSpace(t[l - 1]))
    ensures t[i..j] == t[k..l]
  {
    hide AllSpaces, IsSpace;
    if i < j {
      assert !(i < k) && !(l <= i) by { SpacesOutside(t, k, l, i); }
      assert !(j - 1 < k) && !(l <= j - 1) by { SpacesOutside(t, k, l, j - 1); }
    }
    if k < l {
      assert !(k < i) && !(j <= k) by { SpacesOutside(t, i, j, k); }
      assert !(l - 1 < i) && !(j <= l - 1) by { SpacesOutside(t, i, j, l - 1); }
    }
  }

  lemma SpacesOutside(t: Text, start: nat, end: nat, i: nat)
    requires start <= end <= |t| && i < |t| && AllSpaces(t[..start]) && AllSpaces(t[end..])
    ensures i < start || end <= i ==> IsSpace(t[i])
  {
    assert i < start ==> t[..start][i] == t[i];
    assert end <= i ==> t[end..][i - end] == t[i];
  }

  lemma {:induction false} TrimStartDropsSpaces(t: Text)
    ensures AllSpaces(t[..|t| - |TrimStart(t)|])
  {
    if t != [] && IsSpace(t[0]) {
      TrimStartDropsSpaces(t[1..]);
      var n := |t| - |TrimStart(t)|;
      assert t[..n] == [t[0]] + t[1..][..n - 1];
    }
  }

  lemma {:induction false} TrimEndDropsSpaces(t: Text)
    ensures AllSpaces(t[|TrimEnd(t)|..])
  {
    if t != [] && IsSpace(t[|t| - 1]) {
      TrimEndDropsSpaces(t[..|t| - 1]);
      var n := |TrimEnd(t)|;
      assert t[n..] == t[..|t| - 1][n..] + [t[|t| - 1]];
    }
  }

  lemma TrimStrips(t: Text)
    ensures Stripped(t, Trim(t))
  {
    var start := TrimStart(t);
    var i := |t| - |start|;
    var j := i + |Trim(t)|;
    TrimStartDropsSpaces(t);
    TrimEndDropsSpaces(start);
    assert t[i..j] == start[..|Trim(t)|] == Trim(t);
    assert t[j..] == start[|Trim(t)|..];
    assert SpacesAround(t, i, j);
    if Trim(t) != [] {
      assert Trim(t)[0] == start[0];
    }
  }

  /** `n` is `d` with the white space around its titles gone, and nothing else changed. */
  ghost predicate KeepsContent(d: Draft, n: Draft) {
    && n.projectId == d.projectId && n.expectedUpdatedAt == d.expectedUpdatedAt
    && n.single == d.single && n.releaseDate == d.releaseDate
    && n.membersPreview == d.membersPreview && n.hasCollaborations == d.hasCollaborations
    && n.albumPriceCents == d.albumPriceCents && n.expectedAlbumOfferVersion == d.expectedAlbumOfferVersion
    && Stripped(d.title, n.title)
    && |n.tracks| == |d.tracks|
    && forall i :: 0 <= i < |d.tracks| ==>
         && n.tracks[i].id == d.tracks[i].id && n.tracks[i].priceCents == d.tracks[i].priceCents
         && n.tracks[i].expectedOfferVersion == d.tracks[i].expectedOfferVersion
         && Stripped(d.tracks[i].title, n.tracks[i].title)
  }

  lemma NormalKeepsContent(d: Draft)
    ensures KeepsContent(d, Normal(d))
  {
    var normal := Normal(d);
    hide Trim, Stripped;
    TrimStrips(d.title);
    forall i | 0 <= i < |d.tracks|
      ensures normal.tracks[i] == d.tracks[i].(title := normal.tracks[i].title)
      ensures Stripped(d.tracks[i].title, normal.tracks[i].title)
    {
      TrimStrips(d.tracks[i].title);
    }
  }

  /** A draft has a normal form exactly if it is valid, and that one keeps its content. */
  lemma NormalFormKeepsContent(dates: Dates, d: Draft)
    ensures Canonical(dates)(d).Some? <==> Valid(dates, d)
    ensures Canonical(dates)(d).Some? ==> KeepsContent(d, Canonical(dates)(d).value)
  {
    NormalKeepsContent(d);
    hide Normal, Valid, KeepsContent;
  }

  /** No other draft does, so this says what the normal form is. */
  lemma NormalFormIsTheOnly(dates: Dates, d: Draft, n: Draft)
    requires Valid(dates, d) && KeepsContent(d, n)
    ensures Canonical(dates)(d) == Some(n)
  {
    NormalFormKeepsContent(dates, d);
    hide KeepsContent, Valid;
    ContentIsUnique(d, n, Canonical(dates)(d).value);
  }

  lemma ContentIsUnique(d: Draft, n: Draft, m: Draft)
    requires KeepsContent(d, n) && KeepsContent(d, m)
    ensures n == m
  {
    StrippedOnce(d.title, n.title, m.title);
    forall i | 0 <= i < |d.tracks| ensures n.tracks[i] == m.tracks[i] {
      StrippedOnce(d.tracks[i].title, n.tracks[i].title, m.tracks[i].title);
    }
  }

  lemma DraftsAreIdempotent(dates: Dates)
    ensures Idempotent(Canonical(dates))
  {
    forall d | Canonical(dates)(d).Some? ensures Canonical(dates)(Canonical(dates)(d).value) == Canonical(dates)(d) {
      NormalFormIsStable(dates, d);
    }
  }
}
