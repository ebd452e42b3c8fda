/**
 Site-wide arbitration: any number of players on one page, of all three kinds, share one coordinator
 (lib/media/playback-coordinator.ts): a claim reaches every other player synchronously, never its owner. Players come
 and go with the content of the page.
 */
module PlaybackArbitration {
  import opened Prelude
  import opened MediaElement
  import Jukebox
  import JukeboxSafety
  import PreviewPlayers

  datatype Medium =
    | JukeboxMedium(props: Jukebox.Props, jukebox: Jukebox.State)
    | PreviewMedium(preview: PreviewPlayers.Preview)

  datatype MediumEvent = ToJukebox(e: Jukebox.Event) | ToPreview(p: PreviewPlayers.Event)

  type Page = map<nat, Medium>

  /** A player mounts under an id of its own; one that leaves takes its element and its listener along. */
  datatype PageEvent = Acts(owner: nat, event: MediumEvent) | Mounts(id: nat, medium: Medium) | Leaves(gone: nat)

  ghost predicate MediumValid(m: Medium) {
    m.JukeboxMedium? ==> JukeboxSafety.Inv(m.props, m.jukebox)
  }

  predicate Running(m: Medium) {
    match m
    case JukeboxMedium(_, s) => !s.audio.paused
    case PreviewMedium(p) => !p.audio.paused
  }

  /** A play event of this medium has not been delivered yet. */
  predicate PlayUndelivered(m: Medium) {
    match m
    case JukeboxMedium(_, s) => PlayEvent in s.audio.queue
    case PreviewMedium(p) => PlayEvent in p.audio.queue
  }

  ghost function StepMedium(m: Medium, e: MediumEvent): Medium
    requires MediumValid(m)
  {
    if m.JukeboxMedium? && e.ToJukebox? then m.(jukebox := Jukebox.Step(m.props, m.jukebox, e.e))
    else if m.PreviewMedium? && e.ToPreview? then m.(preview := PreviewPlayers.Step(m.preview, e.p))
    else m
  }

  ghost predicate Claims(m: Medium, e: MediumEvent)
    requires MediumValid(m)
  {
    if m.JukeboxMedium? && e.ToJukebox? then Jukebox.Announces(m.props, m.jukebox, e.e)
    else m.PreviewMedium? && e.ToPreview? && PreviewPlayers.Announces(m.preview, e.p)
  }

  /** The listener of a player whose coordinator hears another owner's claim. */
  ghost function Hear(m: Medium): Medium
    requires MediumValid(m)
  {
    match m
    case JukeboxMedium(props, s) => m.(jukebox := Jukebox.Step(props, s, Jukebox.OtherMedia))
    case PreviewMedium(p) => m.(preview := PreviewPlayers.HearOther(p))
  }

  ghost predicate PageValid(page: Page) {
    forall id :: id in page ==> MediumValid(page[id])
  }

  /** Of two running media, at least one has not had its play event delivered. */
  ghost predicate Arbitrated(page: Page) {
    forall a, b :: a in page && b in page && a != b && Running(page[a]) && Running(page[b])
      ==> PlayUndelivered(page[a]) || PlayUndelivered(page[b])
  }

  ghost function StepPage(page: Page, e: PageEvent): Page
    requires PageValid(page)
  {
    match e
    case Mounts(id, medium) =>
      if id in page || !MediumValid(medium) || Running(medium) then page else page[id := medium]
    case Leaves(gone) => page - {gone}
    case Acts(owner, event) =>
      if owner !in page then page
      else if Claims(page[owner], event) then
        map id | id in page :: if id == owner then StepMedium(page[id], event) else Hear(page[id])
      else page[owner := StepMedium(page[owner], event)]
  }

  // ----- one medium

  predicate Established(m: Medium) {
    Running(m) && !PlayUndelivered(m)
  }

  lemma JukeboxDeliverEstablishes(props: Jukebox.Props, s: Jukebox.State)
    requires s.audio.queue != [] && s.mounted
    ensures var t := Jukebox.DeliverTask(s);
            !t.audio.paused && PlayEvent !in t.audio.queue ==>
              || (s.audio.queue[0].PlayEvent? && Jukebox.AcceptsPlayEvent(s.(audio := Pop(s.audio))))
              || (!s.audio.paused && PlayEvent !in s.audio.queue)
  {
    JukeboxSafety.PopKeepsEvents(s.audio);
    assert PlayEvent in Pop(s.audio).queue ==> PlayEvent in Pause(Pop(s.audio)).queue;
  }

  lemma ElementEstablishes<T>(e: Element<T>)
    ensures !Ready(e).paused && PlayEvent !in Ready(e).queue ==> !e.paused && PlayEvent !in e.queue
    ensures !ReachEnd(e).paused && PlayEvent !in ReachEnd(e).queue ==> !e.paused && PlayEvent !in e.queue
    ensures !Fail(e).paused && PlayEvent !in Fail(e).queue ==> !e.paused && PlayEvent !in e.queue
    ensures !SystemPlay(e).paused && PlayEvent !in SystemPlay(e).queue ==> !e.paused && PlayEvent !in e.queue
  {
    assert forall x :: x in e.queue ==> x in Ready(e).queue;
    assert forall x :: x in e.queue ==> x in Fail(e).queue;
    assert !SystemPlay(e).paused && e.paused ==> SystemPlay(e).queue[|e.queue|] == PlayEvent;
  }

  lemma SyncEstablishes(props: Jukebox.Props, s: Jukebox.State, index: int)
    ensures var t := Jukebox.SyncTrackMedia(props, s, index); t.audio == s.audio || t.audio.paused
  {
  }

  lemma QuietHandlerEstablishes(props: Jukebox.Props, s: Jukebox.State, e: Jukebox.Event)
    requires props.projects != [] && s.mounted && !Jukebox.Announces(props, s, e)
    requires e.Select? || e.Toggle? || e.PlayerButton? || e.OtherMedia? || e.SystemPause? || e.Unmount?
    ensures var t := Jukebox.Handle(props, s, e); t.audio == s.audio || t.audio.paused
  {
    if e.Select? {
      var next := Jukebox.Clamp(e.index, |props.projects|);
      if props.projects[next].slug != s.player.selected {
        var paused := Jukebox.PauseCurrent(s, true, false);
        SyncEstablishes(props, JukeboxSafety.Selected(props, paused, next), next);
      }
    }
  }

  lemma JukeboxEstablishes(props: Jukebox.Props, s: Jukebox.State, e: Jukebox.Event)
    requires JukeboxSafety.Inv(props, s) && s.mounted && !Jukebox.Announces(props, s, e)
    ensures var t := Jukebox.Step(props, s, e);
            !t.audio.paused && PlayEvent !in t.audio.queue ==> !s.audio.paused && PlayEvent !in s.audio.queue
  {
    hide JukeboxSafety.Explained, JukeboxSafety.PromisesTracked;
    var t := Jukebox.Handle(props, s, e);
    match e {
      case MediaReady => ElementEstablishes(s.audio);
      case MediaEnds => ElementEstablishes(s.audio);
      case MediaFails => ElementEstablishes(s.audio);
      case SystemPlays => ElementEstablishes(s.audio);
      case Deliver => if s.audio.queue != [] { JukeboxDeliverEstablishes(props, s); }
      case _ => QuietHandlerEstablishes(props, s, e);
    }
    SyncEstablishes(props, t.(externallyPaused := None),
                    Jukebox.FindIndex(props.projects, Jukebox.MetadataSlug(t.player)));
  }

  lemma PreviewEstablishes(p: PreviewPlayers.Preview, e: PreviewPlayers.Event)
    requires !PreviewPlayers.Announces(p, e)
    ensures var t := PreviewPlayers.Step(p, e);
            !t.audio.paused && PlayEvent !in t.audio.queue ==> !p.audio.paused && PlayEvent !in p.audio.queue
  {
    match e
    case Press(answer) =>
      if p.audio.paused && answer.Accepted? && PreviewPlayers.PressEnabled(p) {
        assert PreviewPlayers.Step(p, e).audio.queue[|p.audio.queue|] == PlayEvent;
      }
    case Deliver =>
      if p.audio.queue != [] { JukeboxSafety.PopKeepsEvents(p.audio); }
    case _ => ElementEstablishes(p.audio);
  }

  /** A medium only comes to run with its play event delivered by a step in which it claims playback. */
  lemma EstablishedByClaim(m: Medium, e: MediumEvent)
    requires MediumValid(m) && !Claims(m, e) && Established(StepMedium(m, e))
    ensures Established(m)
  {
    match m
    case PreviewMedium(p) => if e.ToPreview? { PreviewEstablishes(p, e.p); }
    case JukeboxMedium(props, s) =>
      if e.ToJukebox? {
        if s.mounted {
          JukeboxEstablishes(props, s, e.e);
        } else {
          JukeboxSafety.StepKeeps(props, s, e.e);
          UnmountedStaysSilent(props, s, e.e);
        }
      }
  }

  lemma UnmountedStaysSilent(props: Jukebox.Props, s: Jukebox.State, e: Jukebox.Event)
    requires JukeboxSafety.Inv(props, s) && !s.mounted
    ensures Jukebox.Step(props, s, e).audio.paused
  {
    hide JukeboxSafety.Explained;
  }

  /** Whoever hears a claim does not run afterwards. */
  lemma HearingSilences(m: Medium)
    requires MediumValid(m)
    ensures MediumValid(Hear(m)) && !Running(Hear(m))
  {
    if m.JukeboxMedium? {
      JukeboxSafety.StepKeeps(m.props, m.jukebox, Jukebox.OtherMedia);
      HearingSilencesJukebox(m.props, m.jukebox);
    }
  }

  lemma HearingSilencesJukebox(props: Jukebox.Props, s: Jukebox.State)
    requires JukeboxSafety.Inv(props, s)
    ensures Jukebox.Step(props, s, Jukebox.OtherMedia).audio.paused
  {
    hide JukeboxSafety.Explained, JukeboxSafety.PromisesTracked;
    SyncEstablishes(props, Jukebox.HearOtherMedia(s).(externallyPaused := None),
                    Jukebox.FindIndex(props.projects, Jukebox.MetadataSlug(Jukebox.HearOtherMedia(s).player)));
  }

  // ----- the page

  lemma StepPageKeeps(page: Page, e: PageEvent)
    requires PageValid(page) && Arbitrated(page)
    ensures PageValid(StepPage(page, e)) && Arbitrated(StepPage(page, e))
  {
    if e.Acts? && e.owner in page {
      var m := page[e.owner];
      if m.JukeboxMedium? && e.event.ToJukebox? {
        JukeboxSafety.StepKeeps(m.props, m.jukebox, e.event.e);
      }
      assert MediumValid(StepMedium(m, e.event));
      if Claims(m, e.event) {
        forall id | id in page ensures MediumValid(Hear(page[id])) && !Running(Hear(page[id])) {
          HearingSilences(page[id]);
        }
      } else if Established(StepMedium(m, e.event)) {
        EstablishedByClaim(m, e.event);
      }
    }
  }

  ghost predicate RunsTo(start: Page, events: seq<PageEvent>, end: Page)
    decreases |events|
  {
    PageValid(start) && if events == [] then start == end else RunsTo(StepPage(start, events[0]), events[1..], end)
  }

  /** In every run, all but at most one of the running media still have an undelivered play event. */
  lemma {:induction false} AtMostOneEstablished(start: Page, events: seq<PageEvent>, end: Page)
    requires PageValid(start) && Arbitrated(start) && RunsTo(start, events, end)
    ensures PageValid(end) && Arbitrated(end)
    ensures forall a, b :: a in end && b in end && Established(end[a]) && Established(end[b]) ==> a == b
    decreases |events|
  {
    if events != [] {
      StepPageKeeps(start, events[0]);
      AtMostOneEstablished(StepPage(start, events[0]), events[1..], end);
    }
  }

  /** Starting from a silent page: whenever no play event is outstanding, at most one medium runs. */
  lemma AtMostOnePlays(start: Page, events: seq<PageEvent>, end: Page)
    requires PageValid(start) && (forall id :: id in start ==> !Running(start[id])) && RunsTo(start, events, end)
    requires forall id :: id in end ==> !PlayUndelivered(end[id])
    ensures forall a, b :: a in end && b in end && Running(end[a]) && Running(end[b]) ==> a == b
  {
    AtMostOneEstablished(start, events, end);
  }

  /** The claim of a medium that really runs leaves it as the only running one. */
  lemma ClaimantRunsAlone(page: Page, e: PageEvent)
    requires PageValid(page) && e.Acts? && e.owner in page && Claims(page[e.owner], e.event)
    ensures forall id :: id in page && id != e.owner ==> !Running(StepPage(page, e)[id])
  {
    forall id | id in page && id != e.owner ensures !Running(StepPage(page, e)[id]) {
      HearingSilences(page[id]);
    }
  }
}
