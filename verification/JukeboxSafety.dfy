/** What every interleaving of the jukebox's steps keeps. */
module JukeboxSafety {
  import opened Prelude
  import opened MediaElement
  import opened Jukebox

  function PreviewOf(projects: seq<Project>, slug: Slug): Option<Url> {
    var index := FindIndex(projects, slug);
    if index < 0 then None else projects[index].preview
  }

  /** The refs, the reducer state and the displayed flags agree. */
  ghost predicate Consistent(props: Props, s: State) {
    && Catalogue(props)
    && FindIndex(props.projects, s.player.selected) >= 0
    && s.loaded == s.player.selected
    && (s.player.playing == None || s.player.playing == Some(s.loaded))
    && (s.mounted ==> s.loading == s.pending.Some?)
    && (s.pending.Some? ==> s.pending.value == Request(s.request, s.loaded) && s.player.playing.None?)
    && s.unlocked == s.continuous
    && s.externallyPaused == None
    && s.audio.src == PreviewOf(props.projects, s.loaded)
    && (!s.mounted ==> s.audio.paused && s.pending.None?)
  }

  /** Exactly the newest request can still be outstanding with effect, and only while it is pending. */
  ghost predicate PromisesTracked(s: State) {
    Tracked(Outstanding(s.audio), s.request, s.pending)
  }

  ghost predicate Tracked(outstanding: multiset<Request>, request: nat, pending: Option<Request>) {
    && (forall t :: t in outstanding ==> t.id <= request && (t.id == request ==> pending == Some(t)))
    && (pending.Some? ==> pending.value.id == request && outstanding[pending.value] == 1)
  }

  /** A queued rejection of the request `t` is followed by a play event, or the error event will stop the element. */
  ghost predicate RejectionsCovered(queue: seq<Task<Request>>, t: Request) {
    forall i :: 0 <= i < |queue| && queue[i].Settle? && queue[i].token == t && queue[i].outcome.Rejected?
      ==> ErrorEvent in queue || PlayEvent in queue[i + 1..]
  }

  /** Whatever makes the running element and the playing slug differ is still in the element's queue. */
  ghost predicate Explained(s: State) {
    var q := s.audio.queue;
    && (!s.audio.paused ==> s.player.playing.Some? || s.pending.Some? || PlayEvent in q || ErrorEvent in q)
    && (!s.audio.paused && s.pending.Some? ==> RejectionsCovered(q, s.pending.value))
    && (s.player.playing.Some? && s.audio.paused && s.mounted ==> PauseEvent in q)
    && (ErrorEvent in q ==> s.audio.error && s.audio.src.Some?)
  }

  ghost predicate Inv(props: Props, s: State) {
    Consistent(props, s) && PromisesTracked(s) && Explained(s)
  }

  // ----- queues

  lemma NoStraySettle<T>(e: Element<T>, t: T)
    requires t !in Outstanding(e)
    ensures forall i :: 0 <= i < |e.queue| && e.queue[i].Settle? ==> e.queue[i].token != t
  {
    forall i | 0 <= i < |e.queue| && e.queue[i].Settle? ensures e.queue[i].token != t {
      SettleIsCounted(e.queue, i);
    }
  }

  lemma CoveredAfterAppend(queue: seq<Task<Request>>, more: seq<Task<Request>>, t: Request)
    requires RejectionsCovered(queue, t)
    requires forall i :: 0 <= i < |more| && more[i].Settle? && more[i].outcome.Rejected? ==> ErrorEvent in queue + more
    ensures RejectionsCovered(queue + more, t)
  {
    var all := queue + more;
    forall i | 0 <= i < |all| && all[i].Settle? && all[i].token == t && all[i].outcome.Rejected?
      ensures ErrorEvent in all || PlayEvent in all[i + 1..]
    {
      if i < |queue| {
        assert all[i + 1..] == queue[i + 1..] + more;
      } else {
        assert all[i] == more[i - |queue|];
      }
    }
  }

  lemma CoveredByPlayAtEnd(queue: seq<Task<Request>>, t: Request)
    ensures RejectionsCovered(queue + [PlayEvent], t)
  {
    var all := queue + [PlayEvent];
    forall i | 0 <= i < |all| && all[i].Settle? && all[i].token == t && all[i].outcome.Rejected?
      ensures PlayEvent in all[i + 1..]
    {
      assert all[i + 1..][|all| - 1 - (i + 1)] == PlayEvent;
    }
  }

  lemma CoveredAfterPop(queue: seq<Task<Request>>, t: Request)
    requires queue != [] && RejectionsCovered(queue, t) && !queue[0].ErrorEvent?
    ensures RejectionsCovered(queue[1..], t)
  {
    forall i | 0 <= i < |queue[1..]| && queue[1..][i].Settle? && queue[1..][i].token == t && queue[1..][i].outcome.Rejected?
      ensures ErrorEvent in queue[1..] || PlayEvent in queue[1..][i + 1..]
    {
      assert queue[i + 1].Settle?;
      assert queue[1..][i + 1..] == queue[i + 2..];
    }
  }

  lemma TokensOfPop<T>(e: Element<T>)
    requires e.queue != []
    ensures Outstanding(e) ==
            Outstanding(Pop(e)) + (if e.queue[0].Settle? then multiset{e.queue[0].token} else multiset{})
  {
  }

  lemma FindIndexIsInverse(props: Props, i: nat)
    requires Catalogue(props) && i < |props.projects|
    ensures FindIndex(props.projects, props.projects[i].slug) == i
  {
    var found := FindIndex(props.projects, props.projects[i].slug);
    assert found >= 0;
    assert found < i || found > i || found == i;
  }

  /** An event other than the head is still queued once the head is gone. */
  lemma PopKeepsEvents<T>(e: Element<T>)
    requires e.queue != []
    ensures forall x :: x in e.queue && x != e.queue[0] ==> x in Pop(e).queue
    ensures forall x :: x in Pop(e).queue ==> x in e.queue
  {
    assert e.queue == [e.queue[0]] + Pop(e).queue;
  }

  // ----- the refs and the displayed flags agree

  lemma AttemptIsConsistent(props: Props, s: State, index: nat, answer: Answer)
    requires Consistent(props, s) && s.mounted && s.player.playing.None?
    requires index < |props.projects| && props.projects[index].slug == s.loaded
    ensures Consistent(props, AttemptPlayback(props, s, index, answer))
    ensures SyncTrackMedia(props, s, index) == s || props.projects[index].preview.None?
  {
    FindIndexIsInverse(props, index);
  }

  /** Moving a stopped jukebox: its selection, its loaded slug and its source change together. */
  lemma MoveIsConsistent(props: Props, s: State, index: nat)
    requires Consistent(props, s) && s.mounted && s.player.playing.None? && s.pending.None?
    requires index < |props.projects|
    ensures Consistent(props, SyncTrackMedia(props, Selected(props, s, index), index))
  {
    FindIndexIsInverse(props, index);
  }

  function Selected(props: Props, s: State, index: nat): State
    requires index < |props.projects|
  {
    s.(player := Reduce(s.player, SelectSlug(props.projects[index].slug)), failure := NoFailure)
  }

  lemma SelectIsConsistent(props: Props, s: State, index: int, answer: Answer)
    requires Consistent(props, s) && s.mounted
    ensures Consistent(props, SelectProject(props, s, index, answer))
  {
    var next := Clamp(index, |props.projects|);
    var paused := PauseCurrent(s, true, false);
    MoveIsConsistent(props, paused, next);
    AttemptIsConsistent(props, SyncTrackMedia(props, Selected(props, paused, next), next), next, answer);
  }

  lemma ToggleIsConsistent(props: Props, s: State, answer: Answer)
    requires Consistent(props, s) && s.mounted
    ensures Consistent(props, TogglePlay(props, s, answer))
  {
    var stopped := if s.player.playing.Some? then PauseCurrent(s, true, true) else s;
    AttemptIsConsistent(props, stopped, ActiveIndex(props, s.player), answer);
  }

  lemma DeliverIsConsistent(props: Props, s: State)
    requires Consistent(props, s) && s.audio.queue != []
    ensures Consistent(props, DeliverTask(s))
  {
    hide FindIndex, PreviewOf;
    var popped := s.(audio := Pop(s.audio));
    assert Consistent(props, popped);
    match s.audio.queue[0]
    case Settle(r, Fulfilled) =>
    case Settle(r, Rejected(reason)) =>
    case EndOfMedia =>
      assert Consistent(props, popped.(audio := StopAtEnd(popped.audio)));
    case _ =>
      assert Consistent(props, popped.(audio := Pause(popped.audio)));
  }

  lemma HandleIsConsistent(props: Props, s: State, e: Event)
    requires Consistent(props, s) && (s.mounted || e.Deliver?)
    ensures Consistent(props, Handle(props, s, e))
  {
    match e
    case Select(index, answer) => SelectIsConsistent(props, s, index, answer);
    case Toggle(answer) => ToggleIsConsistent(props, s, answer);
    case PlayerButton(answer) => ToggleIsConsistent(props, s, answer);
    case Deliver => if s.audio.queue != [] { DeliverIsConsistent(props, s); }
    case _ =>
  }

  // ----- promises

  lemma TrackedAfterRetiring(outstanding: multiset<Request>, request: nat, pending: Option<Request>)
    requires Tracked(outstanding, request, pending)
    ensures Tracked(outstanding, request + 1, None)
  {
  }

  lemma TrackedAfterSettling(outstanding: multiset<Request>, request: nat, pending: Option<Request>, r: Request)
    requires Tracked(outstanding + multiset{r}, request, pending)
    ensures Tracked(outstanding, request, if r.id == request then None else pending)
    ensures r.id == request ==> pending == Some(r)
  {
    var before := outstanding + multiset{r};
    assert r in before;
    assert forall t :: before[t] == outstanding[t] + (if t == r then 1 else 0);
    assert forall t :: t in outstanding ==> t in before;
  }

  lemma PauseCurrentTracks(s: State, reset: bool, disable: bool)
    requires PromisesTracked(s)
    ensures PromisesTracked(PauseCurrent(s, reset, disable))
    ensures PromisesTracked(s.(audio := Pause(s.audio)))
    ensures PromisesTracked(UnmountPlayer(s))
  {
    hide Outstanding, Pause;
    PauseKeepsPromises(s.audio);
    assert Outstanding(PauseCurrent(s, reset, disable).audio) == Outstanding(s.audio) by {
      RewindKeepsPromises(Pause(s.audio));
    }
    TrackedAfterRetiring(Outstanding(s.audio), s.request, s.pending);
  }

  lemma SyncTracks(props: Props, s: State, index: nat)
    requires PromisesTracked(s) && s.pending.None? && index < |props.projects|
    ensures PromisesTracked(SyncTrackMedia(props, s, index))
    ensures SyncTrackMedia(props, s, index).pending.None?
  {
    hide Outstanding;
    LoadKeepsPromises(s.audio, props.projects[index].preview);
    assert Outstanding(SyncTrackMedia(props, s, index).audio) == Outstanding(s.audio);
    TrackedAfterRetiring(Outstanding(s.audio), s.request, s.pending);
  }

  function Ask(s: State, r: Request): State {
    s.(request := r.id, pending := Some(r), failure := NoFailure, loading := true, audio := Play(s.audio, r))
  }

  lemma AskTracks(s: State, r: Request)
    requires PromisesTracked(s) && r.id == s.request + 1
    ensures r !in Outstanding(s.audio)
    ensures PromisesTracked(Ask(s, r))
    ensures Tracked(Outstanding(s.audio), r.id, None)
  {
    hide Outstanding;
    PlayAddsItsPromise(s.audio, r);
  }

  lemma AttemptTracks(props: Props, s: State, index: nat, answer: Answer)
    requires PromisesTracked(s) && s.pending.None? && index < |props.projects|
    ensures PromisesTracked(AttemptPlayback(props, s, index, answer))
  {
    hide Outstanding, Tracked, Play;
    if props.projects[index].preview.Some? {
      SyncTracks(props, s, index);
      var synced := SyncTrackMedia(props, s, index);
      var r := Request(synced.request + 1, props.projects[index].slug);
      AskTracks(synced, r);
      assert synced.loaded == r.slug;
      assert answer.Accepted? ==> AttemptPlayback(props, s, index, answer) == Ask(synced, r);
      assert answer.Denied? ==> AttemptPlayback(props, s, index, answer).audio == synced.audio;
    }
  }

  lemma SelectTracks(props: Props, s: State, index: int, answer: Answer)
    requires PromisesTracked(s) && props.projects != []
    ensures PromisesTracked(SelectProject(props, s, index, answer))
  {
    hide Outstanding, Tracked, SyncTrackMedia, AttemptPlayback;
    var next := Clamp(index, |props.projects|);
    PauseCurrentTracks(s, true, false);
    var moved := Selected(props, PauseCurrent(s, true, false), next);
    assert PromisesTracked(moved);
    SyncTracks(props, moved, next);
    AttemptTracks(props, SyncTrackMedia(props, moved, next), next, answer);
  }

  lemma ToggleTracks(props: Props, s: State, answer: Answer)
    requires PromisesTracked(s) && props.projects != []
    ensures PromisesTracked(TogglePlay(props, s, answer))
  {
    hide Outstanding, Tracked, AttemptPlayback;
    PauseCurrentTracks(s, true, true);
    if s.pending.None? {
      AttemptTracks(props, if s.player.playing.Some? then PauseCurrent(s, true, true) else s,
                    ActiveIndex(props, s.player), answer);
    }
  }

  lemma SettleTracks(props: Props, s: State)
    requires Consistent(props, s) && PromisesTracked(s) && s.audio.queue != [] && s.audio.queue[0].Settle?
    ensures PromisesTracked(DeliverTask(s))
  {
    hide Outstanding, Tracked;
    TokensOfPop(s.audio);
    TrackedAfterSettling(Outstanding(Pop(s.audio)), s.request, s.pending, s.audio.queue[0].token);
    assert Outstanding(DeliverTask(s).audio) == Outstanding(Pop(s.audio));
  }

  lemma EventTracks(s: State)
    requires PromisesTracked(s) && s.audio.queue != [] && !s.audio.queue[0].Settle?
    ensures PromisesTracked(DeliverTask(s))
  {
    hide Outstanding, Tracked, Pause, StopAtEnd, PauseCurrent;
    TokensOfPop(s.audio);
    var popped := s.(audio := Pop(s.audio));
    assert Outstanding(popped.audio) == Outstanding(s.audio);
    PauseCurrentTracks(popped, false, true);
    PauseKeepsPromises(popped.audio);
    if s.audio.queue[0].EndOfMedia? {
      assert Outstanding(DeliverTask(s).audio) == Outstanding(popped.audio);
    }
  }

  lemma HandleTracks(props: Props, s: State, e: Event)
    requires Consistent(props, s) && PromisesTracked(s)
    ensures PromisesTracked(Handle(props, s, e))
  {
    hide Outstanding, Tracked, SelectProject, TogglePlay, PauseCurrent, DeliverTask, Pause, Ready, ReachEnd, Fail, SystemPlay;
    match e
    case Select(index, answer) => SelectTracks(props, s, index, answer);
    case Toggle(answer) => ToggleTracks(props, s, answer);
    case PlayerButton(answer) => ToggleTracks(props, s, answer); PauseCurrentTracks(s, true, true);
    case OtherMedia => PauseCurrentTracks(s, false, true);
    case MediaReady => ReadyKeepsPromises(s.audio);
    case MediaEnds => UserAgentKeepsPromises(s.audio);
    case MediaFails => FailKeepsPromises(s.audio);
    case SystemPause => PauseCurrentTracks(s, false, true);
    case SystemPlays => UserAgentKeepsPromises(s.audio);
    case Deliver =>
      if s.audio.queue != [] {
        if s.audio.queue[0].Settle? { SettleTracks(props, s); } else { EventTracks(s); }
      }
    case Unmount => PauseCurrentTracks(s, false, true); assert Handle(props, s, e) == UnmountPlayer(s);
  }

  // ----- the element and the playing slug

  lemma PauseIsExplained(s: State, reset: bool, disable: bool)
    requires Explained(s) && s.mounted
    ensures Explained(PauseCurrent(s, reset, disable))
    ensures Explained(s.(audio := Pause(s.audio)))
    ensures Explained(UnmountPlayer(s))
  {
    assert ErrorEvent in Pause(s.audio).queue ==> ErrorEvent in s.audio.queue;
    assert !s.audio.paused ==> PauseEvent in Pause(s.audio).queue by {
      assert !s.audio.paused ==> Pause(s.audio).queue[|s.audio.queue|] == PauseEvent;
    }
  }

  lemma LoadIsExplained(s: State, src: Option<Url>)
    requires s.player.playing.None?
    ensures Explained(s.(audio := Load(s.audio, src)))
  {
    TokensOfSettlesOnly(s.audio.queue);
    assert ErrorEvent !in Load(s.audio, src).queue;
  }

  lemma AskIsExplained(s: State, r: Request)
    requires Explained(s) && s.player.playing.None? && r !in Outstanding(s.audio)
    ensures Explained(s.(request := r.id, pending := Some(r), failure := NoFailure, loading := true,
                         audio := Play(s.audio, r)))
  {
    NoStraySettle(s.audio, r);
    CoveredAfterAppend(s.audio.queue, [PlayEvent], r);
    assert ErrorEvent in Play(s.audio, r).queue ==> ErrorEvent in s.audio.queue;
  }

  lemma AttemptIsExplained(props: Props, s: State, index: nat, answer: Answer)
    requires Consistent(props, s) && PromisesTracked(s) && Explained(s) && s.mounted
    requires s.player.playing.None? && s.pending.None?
    requires index < |props.projects| && props.projects[index].slug == s.loaded
    ensures Explained(AttemptPlayback(props, s, index, answer))
  {
    AttemptIsConsistent(props, s, index, answer);
    var r := Request(s.request + 1, s.loaded);
    AskTracks(s, r);
    AskIsExplained(s, r);
  }

  lemma SelectedIsExplained(props: Props, s: State, index: nat)
    requires Explained(s) && index < |props.projects|
    ensures Explained(Selected(props, s, index))
  {
  }

  lemma SyncIsExplained(props: Props, s: State, index: nat)
    requires Explained(s) && s.player.playing.None? && s.pending.None? && index < |props.projects|
    ensures Explained(SyncTrackMedia(props, s, index))
  {
    LoadIsExplained(s.(request := s.request + 1, loaded := props.projects[index].slug), props.projects[index].preview);
    LoadIsExplained(s, props.projects[index].preview);
  }

  lemma SelectIsExplained(props: Props, s: State, index: int, answer: Answer)
    requires Inv(props, s) && s.mounted
    ensures Explained(SelectProject(props, s, index, answer))
  {
    hide FindIndex, PreviewOf, Outstanding, Tracked, AttemptPlayback, Explained;
    var next := Clamp(index, |props.projects|);
    PauseIsExplained(s, true, false);
    PauseCurrentTracks(s, true, false);
    var paused := PauseCurrent(s, true, false);
    var moved := Selected(props, paused, next);
    MoveIsConsistent(props, paused, next);
    SyncTracks(props, moved, next);
    SelectedIsExplained(props, paused, next);
    SyncIsExplained(props, moved, next);
    var synced := SyncTrackMedia(props, moved, next);
    assert next < |props.projects|;
    if props.projects[next].slug != s.player.selected {
      assert synced.player.playing.None? && synced.pending.None?;
      AttemptIsExplained(props, synced, next, answer);
    }
  }

  lemma ToggleIsExplained(props: Props, s: State, answer: Answer)
    requires Inv(props, s) && s.mounted
    ensures Explained(TogglePlay(props, s, answer))
  {
    PauseIsExplained(s, true, true);
    PauseCurrentTracks(s, true, true);
    if s.pending.None? {
      AttemptIsExplained(props, if s.player.playing.Some? then PauseCurrent(s, true, true) else s,
                         ActiveIndex(props, s.player), answer);
    }
  }

  /** A settlement: fulfilled while running it sets the playing slug, rejected it leaves its cause in the queue. */
  lemma SettleIsExplained(props: Props, s: State)
    requires Consistent(props, s) && Explained(s) && PromisesTracked(s)
    requires s.audio.queue != [] && s.audio.queue[0].Settle?
    ensures Explained(DeliverTask(s))
  {
    PopKeepsEvents(s.audio);
    assert s.audio.queue[0].token in Outstanding(s.audio);
    if s.pending.Some? && !s.audio.paused {
      CoveredAfterPop(s.audio.queue, s.pending.value);
      assert s.audio.queue[0 + 1..] == Pop(s.audio).queue;
    }
  }

  lemma EventIsExplained(props: Props, s: State)
    requires Consistent(props, s) && Explained(s) && s.audio.queue != [] && s.mounted
    requires s.audio.queue[0].PlayEvent? || s.audio.queue[0].PauseEvent?
    ensures Explained(DeliverTask(s))
  {
    PopKeepsEvents(s.audio);
    if s.pending.Some? && !s.audio.paused {
      CoveredAfterPop(s.audio.queue, s.pending.value);
    }
    assert ErrorEvent in Pause(Pop(s.audio)).queue ==> ErrorEvent in s.audio.queue;
    assert !s.audio.paused ==> PauseEvent in Pause(Pop(s.audio)).queue by {
      assert !s.audio.paused ==> Pause(Pop(s.audio)).queue[|s.audio.queue| - 1] == PauseEvent;
    }
  }

  lemma FaultIsExplained(props: Props, s: State)
    requires Consistent(props, s) && Explained(s) && s.audio.queue != [] && s.mounted
    requires s.audio.queue[0].ErrorEvent? || s.audio.queue[0].EndOfMedia?
    ensures Explained(DeliverTask(s))
  {
    PopKeepsEvents(s.audio);
    assert ErrorEvent in Pause(Pop(s.audio)).queue ==> ErrorEvent in s.audio.queue;
    assert ErrorEvent in StopAtEnd(Pop(s.audio)).queue ==> ErrorEvent in s.audio.queue;
    if s.pending.Some? && !s.audio.paused && s.audio.queue[0].EndOfMedia? {
      CoveredAfterPop(s.audio.queue, s.pending.value);
    }
  }

  lemma DeliverIsExplained(props: Props, s: State)
    requires Inv(props, s) && s.audio.queue != []
    ensures Explained(DeliverTask(s))
  {
    if s.audio.queue[0].Settle? {
      SettleIsExplained(props, s);
    } else if !s.mounted {
      PopKeepsEvents(s.audio);
    } else if s.audio.queue[0].PlayEvent? || s.audio.queue[0].PauseEvent? {
      EventIsExplained(props, s);
    } else {
      FaultIsExplained(props, s);
    }
  }

  lemma ReadyIsExplained(s: State)
    requires Explained(s)
    ensures Explained(s.(audio := Ready(s.audio)))
  {
    if !s.audio.paused && s.pending.Some? {
      CoveredAfterAppend(s.audio.queue, Settlements(s.audio.promises, Fulfilled), s.pending.value);
    }
    assert forall x :: x in Ready(s.audio).queue && !x.Settle? ==> x in s.audio.queue;
    assert forall x :: x in s.audio.queue ==> x in Ready(s.audio).queue;
  }

  lemma ReachEndIsExplained(s: State)
    requires Explained(s)
    ensures Explained(s.(audio := ReachEnd(s.audio)))
  {
    if !s.audio.paused && s.pending.Some? {
      CoveredAfterAppend(s.audio.queue, [EndOfMedia], s.pending.value);
    }
  }

  lemma FailIsExplained(s: State)
    requires Explained(s)
    ensures Explained(s.(audio := Fail(s.audio)))
  {
    if s.audio.src.Some? {
      assert Fail(s.audio).queue[|s.audio.queue|] == ErrorEvent;
      assert forall x :: x in s.audio.queue ==> x in Fail(s.audio).queue;
    }
  }

  lemma SystemPlayIsExplained(s: State)
    requires Explained(s)
    ensures Explained(s.(audio := SystemPlay(s.audio)))
  {
    if s.pending.Some? {
      CoveredByPlayAtEnd(s.audio.queue, s.pending.value);
    }
    assert ErrorEvent in SystemPlay(s.audio).queue ==> ErrorEvent in s.audio.queue;
  }

  lemma HandleIsExplained(props: Props, s: State, e: Event)
    requires Inv(props, s) && (s.mounted || e.Deliver?)
    ensures Explained(Handle(props, s, e))
  {
    match e
    case Select(index, answer) => SelectIsExplained(props, s, index, answer);
    case Toggle(answer) => ToggleIsExplained(props, s, answer);
    case PlayerButton(answer) => ToggleIsExplained(props, s, answer); PauseIsExplained(s, true, true);
    case OtherMedia => PauseIsExplained(s, false, true);
    case MediaReady => ReadyIsExplained(s);
    case MediaEnds => ReachEndIsExplained(s);
    case MediaFails => FailIsExplained(s);
    case SystemPause => PauseIsExplained(s, false, true);
    case SystemPlays => SystemPlayIsExplained(s);
    case Deliver => if s.audio.queue != [] { DeliverIsExplained(props, s); }
    case Unmount => PauseIsExplained(s, false, true);
  }

  // ----- steps and runs

  /** The displayed project only changes when another one is selected, and nothing plays then. */
  lemma MetadataChangesOnSelect(props: Props, s: State, e: Event)
    requires Consistent(props, s) && (s.mounted || e.Deliver?)
    ensures MetadataSlug(s.player) != MetadataSlug(Handle(props, s, e).player)
            ==> e.Select? && Handle(props, s, e).player.playing.None?
  {
    HandleIsConsistent(props, s, e);
  }

  /** The effect finds everything in place; it can only reload an element that has no source. */
  lemma EffectKeeps(props: Props, s: State)
    requires Inv(props, s) && s.mounted && s.player.playing.None?
    ensures Inv(props, MetadataEffect(props, s))
    ensures s.audio.src.Some? ==> MetadataEffect(props, s) == s
  {
    var index := FindIndex(props.projects, s.player.selected);
    if s.audio.src.None? {
      LoadIsExplained(s, None);
      LoadKeepsPromises(s.audio, None);
    }
  }

  lemma StepKeeps(props: Props, s: State, e: Event)
    requires Inv(props, s)
    ensures Inv(props, Step(props, s, e))
  {
    if s.mounted || e.Deliver? {
      HandleIsConsistent(props, s, e);
      HandleTracks(props, s, e);
      HandleIsExplained(props, s, e);
      MetadataChangesOnSelect(props, s, e);
      var after := Handle(props, s, e);
      if after.mounted && MetadataSlug(s.player) != MetadataSlug(after.player) {
        EffectKeeps(props, after);
      }
    }
  }

  lemma InitialHolds(props: Props)
    requires Catalogue(props)
    ensures Inv(props, Initial(props))
  {
    FindIndexIsInverse(props, Clamp(props.initialIndex, |props.projects|));
    LoadIsExplained(Initial(props), None);
  }

  lemma {:induction false} RunKeeps(props: Props, s: State, events: seq<Event>)
    requires Inv(props, s)
    ensures Inv(props, Run(props, s, events))
    decreases |events|
  {
    if events != [] {
      StepKeeps(props, s, events[0]);
      RunKeeps(props, Step(props, s, events[0]), events[1..]);
    }
  }

  // ----- the main results, for every run

  function Reached(props: Props, events: seq<Event>): State
    requires props.projects != []
  {
    Run(props, Initial(props), events)
  }

  lemma ReachedHolds(props: Props, events: seq<Event>)
    requires Catalogue(props)
    ensures Inv(props, Reached(props, events))
  {
    InitialHolds(props);
    RunKeeps(props, Initial(props), events);
  }

  /** A pending play is the newest request, for the loaded project; its promise is still to be settled, exactly once. */
  lemma PendingIsNewest(props: Props, events: seq<Event>)
    requires Catalogue(props)
    ensures var s := Reached(props, events);
            && (s.mounted ==> s.loading == s.pending.Some?)
            && (s.pending.Some? ==>
                  && s.pending.value == Request(s.request, s.loaded)
                  && s.player.playing.None?
                  && Outstanding(s.audio)[s.pending.value] == 1)
  {
    ReachedHolds(props, events);
  }

  /** The loaded project is the selected one, and nothing else plays; the two continuity flags agree. */
  lemma LoadedIsSelected(props: Props, events: seq<Event>)
    requires Catalogue(props)
    ensures var s := Reached(props, events);
            && s.loaded == s.player.selected
            && MetadataSlug(s.player) == s.player.selected
            && (s.player.playing.Some? ==> s.player.playing.value == s.loaded)
            && s.audio.src == PreviewOf(props.projects, s.loaded)
            && s.continuous == s.unlocked
            && s.externallyPaused.None?
  {
    ReachedHolds(props, events);
  }

  /** With no event and no promise outstanding, the element runs if and only if the page says so, and nothing loads. */
  lemma QuietElementAgrees(props: Props, events: seq<Event>)
    requires Catalogue(props)
    ensures var s := Reached(props, events);
            s.mounted && s.audio.queue == [] && s.audio.promises == [] ==>
              (!s.audio.paused <==> s.player.playing.Some?) && !s.loading && s.pending.None?
  {
    ReachedHolds(props, events);
  }

  /** A settlement of any request but the newest only leaves the element's queue. */
  lemma SupersededSettlementChangesNothing(props: Props, events: seq<Event>)
    requires Catalogue(props)
    ensures var s := Reached(props, events);
            s.audio.queue != [] && s.audio.queue[0].Settle? && s.audio.queue[0].token.id != s.request ==>
              Step(props, s, Deliver) == s.(audio := Pop(s.audio))
  {
    ReachedHolds(props, events);
    hide Inv;
  }

  /** Once unmounted the jukebox stays silent and no late settlement reaches its refs or its flags. */
  lemma UnmountedIsInert(props: Props, events: seq<Event>, e: Event)
    requires Catalogue(props)
    ensures var s := Reached(props, events);
            !s.mounted ==> s.audio.paused && Step(props, s, e) == s.(audio := Step(props, s, e).audio)
  {
    ReachedHolds(props, events);
    var s := Reached(props, events);
    if !s.mounted && e.Deliver? && s.audio.queue != [] && s.audio.queue[0].Settle? {
      var r := s.audio.queue[0].token;
      assert r in Outstanding(s.audio);
    }
  }

  /** Continuous listening: choosing another project that has a preview asks for it at once, without losing continuity. */
  lemma SelectionContinuesListening(props: Props, s: State, index: nat)
    requires Inv(props, s) && s.mounted && s.continuous
    requires index < |props.projects| && props.projects[index].slug != s.player.selected
    ensures var t := Step(props, s, Select(index, Accepted));
            && t.player == Player(props.projects[index].slug, None)
            && t.continuous
            && t.request > s.request
            && (if props.projects[index].preview.Some?
                then t.pending == Some(Request(t.request, t.loaded)) && !t.audio.paused
                     && t.audio.src == props.projects[index].preview
                else t.pending.None? && t.audio.paused && t.audio.src.None?)
  {
    hide Explained, PromisesTracked;
    HandleIsConsistent(props, s, Select(index, Accepted));
    var paused := PauseCurrent(s, true, false);
    MoveIsConsistent(props, paused, index);
    FindIndexIsInverse(props, index);
    var synced := SyncTrackMedia(props, Selected(props, paused, index), index);
    AttemptIsConsistent(props, synced, index, Accepted);
    var after := Handle(props, s, Select(index, Accepted));
    assert after.player == Player(props.projects[index].slug, None);
    if props.projects[index].preview.Some? {
      assert MetadataEffect(props, after) == after;
    }
  }

  /** The natural end of a preview clears the playing slug but keeps continuous listening. */
  lemma NaturalEndKeepsContinuity(props: Props, s: State)
    requires Inv(props, s) && s.mounted && s.audio.queue != [] && s.audio.queue[0] == EndOfMedia && s.audio.atEnd
    ensures var t := Step(props, s, Deliver);
            t.continuous == s.continuous && t.audio.paused && t.player == Player(s.player.selected, None)
  {
    hide Explained, PromisesTracked, FindIndex, PreviewOf;
  }

  /** A pause from the system, once delivered, stops continuous listening if and only if the preview had not ended. */
  lemma SystemPauseStopsContinuity(props: Props, s: State)
    requires Inv(props, s) && s.mounted && s.audio.queue != [] && s.audio.queue[0] == PauseEvent
    requires s.audio.paused && s.player.playing.Some? && s.continuous
    ensures var t := Step(props, s, Deliver);
            t.player.playing.None? && (t.continuous <==> s.audio.atEnd)
  {
    hide Explained, PromisesTracked, FindIndex, PreviewOf;
  }
}
