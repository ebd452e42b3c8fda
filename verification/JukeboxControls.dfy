/** What each control of the jukebox and each answer of its element brings about, in every state that a run can reach. */
module JukeboxControls {
  import opened Prelude
  import opened MediaElement
  import opened Jukebox
  import opened JukeboxSafety

  /** The preview of the selected project. */
  function ActivePreview(props: Props, s: State): Option<Url> {
    PreviewOf(props.projects, s.player.selected)
  }

  /** A start is pending, or the selected project is marked as playing and runs: the next press stops. */
  predicate Busy(s: State) {
    s.pending.Some? || (s.player.playing == Some(s.player.selected) && !s.audio.paused)
  }

  /** A start of the selected project is under way: the newest request, shown as loading, on its running preview. */
  predicate Starting(props: Props, s: State) {
    && s.pending == Some(Request(s.request, s.player.selected)) && s.loading && s.failure.NoFailure?
    && s.player.playing.None? && s.loaded == s.player.selected
    && !s.audio.paused && !s.audio.atEnd && s.audio.src == ActivePreview(props, s)
  }

  /** Nothing runs, nothing is asked and nothing will follow by itself. */
  predicate Silent(s: State) {
    && s.audio.paused && s.pending.None? && s.player.playing.None?
    && !s.loading && !s.continuous && !s.unlocked
  }

  /** The active project is the selected one, and the element has its preview. */
  lemma ActiveIsSelected(props: Props, s: State)
    requires Consistent(props, s)
    ensures var target := props.projects[ActiveIndex(props, s.player)];
            target.slug == s.player.selected && target.preview == ActivePreview(props, s) == s.audio.src
    ensures FindIndex(props.projects, MetadataSlug(s.player)) == ActiveIndex(props, s.player)
  {
  }

  /** The request of a press comes on top of all that are still outstanding. */
  ghost predicate AsksAnew(s: State, t: State)
    requires t.pending.Some?
  {
    && t.request > s.request && t.player.selected == s.player.selected
    && Outstanding(t.audio) == Outstanding(s.audio) + multiset{t.pending.value}
    && t.continuous == (s.continuous && s.player.playing.None?)
  }

  /** A press on a stopped jukebox starts the selected preview, and one that still marks it as playing stops it before. */
  lemma PressStarts(props: Props, s: State)
    requires Inv(props, s) && s.mounted && ActivePreview(props, s).Some? && !Busy(s)
    ensures var t := Step(props, s, Toggle(Accepted));
            Starting(props, t) && AsksAnew(s, t) && (s.audio.paused ==> PlayEvent in t.audio.queue)
    ensures Announces(props, s, Toggle(Accepted))
  {
    hide Explained, PromisesTracked, Outstanding, FindIndex, PreviewOf, AttemptPlayback;
    ActiveIsSelected(props, s);
    var index := ActiveIndex(props, s.player);
    var stopped := if s.player.playing.Some? then PauseCurrent(s, true, true) else s;
    AttemptAsks(props, stopped, index);
    PauseKeepsPromises(s.audio);
    RewindKeepsPromises(Pause(s.audio));
  }

  lemma AttemptAsks(props: Props, s: State, index: nat)
    requires Catalogue(props) && index < |props.projects| && props.projects[index].slug == s.loaded
    requires props.projects[index].preview.Some? && props.projects[index].preview == s.audio.src
    ensures var t, r := AttemptPlayback(props, s, index, Accepted), Request(s.request + 1, s.loaded);
            && t == s.(request := r.id, pending := Some(r), failure := NoFailure, loading := true,
                       audio := t.audio)
            && !t.audio.paused && !t.audio.atEnd && t.audio.src == s.audio.src
            && Outstanding(t.audio) == Outstanding(s.audio) + multiset{r}
            && (s.audio.paused ==> PlayEvent in t.audio.queue)
            && t.audio.promises == s.audio.promises + [r]
            && (s.audio.paused ==> t.audio.queue == s.audio.queue + [PlayEvent])
  {
    var r := Request(s.request + 1, s.loaded);
    PlayAddsItsPromise(s.audio, r);
    assert s.audio.paused ==> Play(s.audio, r).queue[|s.audio.queue|] == PlayEvent;
    hide Outstanding;
  }

  /** A start that the browser refuses at once leaves nothing pending, and says whether it asked for a click. */
  lemma PressIsRefused(props: Props, s: State, reason: Refusal)
    requires Inv(props, s) && s.mounted && ActivePreview(props, s).Some? && !Busy(s)
    ensures var t := Step(props, s, Toggle(Denied(reason)));
            && t.pending.None? && t.player.playing.None? && !t.loading && !t.continuous && !t.unlocked
            && (t.failure.Blocked? <==> reason == NotAllowed) && (t.failure.Unavailable? <==> reason != NotAllowed)
            && t.request > s.request && Outstanding(t.audio) == Outstanding(s.audio)
            && (s.audio.paused || s.player.playing.Some? ==> t.audio.paused)
  {
    hide Explained, PromisesTracked, Outstanding, FindIndex, PreviewOf;
    ActiveIsSelected(props, s);
    PauseKeepsPromises(s.audio);
    RewindKeepsPromises(Pause(s.audio));
  }

  /** A press while it starts or plays ends in silence, back at the beginning; without a preview a press does nothing. */
  lemma PressStops(props: Props, s: State, answer: Answer)
    requires Inv(props, s) && s.mounted
    ensures var t := Step(props, s, Toggle(answer));
            && (ActivePreview(props, s).None? ==> t == s)
            && (ActivePreview(props, s).Some? && Busy(s) ==>
                  Silent(t) && !t.audio.atEnd && t.request > s.request && t.player.selected == s.player.selected
                  && (!s.audio.paused ==> PauseEvent in t.audio.queue))
    ensures Announces(props, s, Toggle(answer)) <==> ActivePreview(props, s).Some? && !Busy(s)
  {
    hide Explained, PromisesTracked, Outstanding, FindIndex, PreviewOf;
    ActiveIsSelected(props, s);
    assert !s.audio.paused ==> Pause(s.audio).queue[|s.audio.queue|] == PauseEvent;
  }

  /** The button under the player stops whatever is marked as playing, and is the press on the record otherwise. */
  lemma PlayerButtonIsThePress(props: Props, s: State, answer: Answer)
    requires Inv(props, s) && s.mounted
    ensures var t := Step(props, s, PlayerButton(answer));
            if ActivePreview(props, s).Some? && s.player.playing.Some? then Silent(t) && t.request > s.request
            else t == Step(props, s, Toggle(answer))
  {
    hide Explained, PromisesTracked, Outstanding, FindIndex, PreviewOf, AttemptPlayback;
    ActiveIsSelected(props, s);
    HandleIsConsistent(props, s, PlayerButton(answer));
  }

  /**
   From any quiet page with a preview: a press, the element becoming ready and the delivery of its two tasks leave the
   selected project playing, marked as such, with continuous listening on.
   */
  lemma PressPlaysThrough(props: Props, s: State)
    requires Inv(props, s) && s.mounted && ActivePreview(props, s).Some?
    requires s.audio.queue == [] && s.audio.promises == [] && s.audio.paused
    ensures var t := Run(props, s, [Toggle(Accepted), MediaReady, Deliver, Deliver]);
            && t.player == Player(s.player.selected, Some(s.player.selected)) && !t.audio.paused
            && t.continuous && t.unlocked && !t.loading && t.pending.None? && t.audio.queue == []
  {
    PressStarts(props, s);
    AttemptOnQuietElement(props, s);
    StepKeeps(props, s, Toggle(Accepted));
    hide Step, Inv;
    StartedPlays(props, Step(props, s, Toggle(Accepted)));
    RunOfFour(props, s, Toggle(Accepted), MediaReady, Deliver, Deliver);
  }

  lemma AttemptOnQuietElement(props: Props, s: State)
    requires Inv(props, s) && s.mounted && ActivePreview(props, s).Some?
    requires s.audio.queue == [] && s.audio.promises == [] && s.audio.paused && s.pending.None?
    ensures var t := Step(props, s, Toggle(Accepted));
            && t.mounted && t.pending.Some? && t.audio.queue == [PlayEvent] && t.audio.promises == [t.pending.value]
  {
    hide PromisesTracked, Outstanding, FindIndex, PreviewOf, AttemptPlayback;
    ActiveIsSelected(props, s);
    AttemptAsks(props, s, ActiveIndex(props, s.player));
    assert s.player.playing.None?;
    assert s.audio.queue + [PlayEvent] == [PlayEvent] && s.audio.promises + [Request(s.request + 1, s.loaded)] ==
                                                         [Request(s.request + 1, s.loaded)];
  }

  /** A start whose play event and promise are all that is outstanding: both arrive, and it plays. */
  lemma StartedPlays(props: Props, s: State)
    requires Inv(props, s) && s.mounted && Starting(props, s)
    requires s.audio.queue == [PlayEvent] && s.audio.promises == [s.pending.value]
    ensures var t := Step(props, Step(props, Step(props, s, MediaReady), Deliver), Deliver);
            && t.player == Player(s.player.selected, Some(s.player.selected)) && !t.audio.paused
            && t.continuous && t.unlocked && !t.loading && t.pending.None? && t.audio.queue == []
  {
    var r := s.pending.value;
    var ready := Step(props, s, MediaReady);
    assert Settlements([r], Fulfilled) == [Settle(r, Fulfilled)];
    StepKeeps(props, s, MediaReady);
    StepKeeps(props, ready, Deliver);
    ReadyIsStep(props, s);
    hide Step, Inv;
    assert ready.audio.queue == [PlayEvent, Settle(r, Fulfilled)];
    UnexpectedStartIsStopped(props, ready);
    var heard := Step(props, ready, Deliver);
    ExpectedStartIsHeard(props, ready);
    assert heard.audio.queue == [Settle(r, Fulfilled)];
    FulfilmentPlays(props, heard);
  }

  lemma ReadyIsStep(props: Props, s: State)
    requires s.mounted && props.projects != []
    ensures Step(props, s, MediaReady) == s.(audio := Ready(s.audio))
  {
  }

  lemma ExpectedStartIsHeard(props: Props, s: State)
    requires Inv(props, s) && s.mounted && s.pending.Some? && !s.audio.paused
    requires s.audio.queue != [] && s.audio.queue[0] == PlayEvent
    ensures Step(props, s, Deliver) == s.(audio := Pop(s.audio))
  {
    hide Explained, PromisesTracked, FindIndex, PreviewOf;
    LoadedHasSlug(props, s);
  }

  lemma RunOfFour(props: Props, s: State, a: Event, b: Event, c: Event, d: Event)
    requires props.projects != []
    ensures Run(props, s, [a, b, c, d]) == Step(props, Step(props, Step(props, Step(props, s, a), b), c), d)
  {
    hide Step;
    assert [a, b, c, d][1..] == [b, c, d] && [b, c, d][1..] == [c, d] && [c, d][1..] == [d] && [d][1..] == [];
    var two := Step(props, Step(props, s, a), b);
    assert Run(props, two, [c, d]) == Run(props, Step(props, two, c), [d]);
    assert Run(props, Step(props, s, a), [b, c, d]) == Run(props, two, [c, d]);
  }

  // ----- what the element answers

  /** The newest fulfilment marks the loaded project as playing while its element runs, and gives up otherwise. */
  lemma FulfilmentPlays(props: Props, s: State)
    requires Inv(props, s) && s.mounted && s.audio.queue != [] && s.audio.queue[0].Settle?
    requires s.audio.queue[0].outcome.Fulfilled? && s.audio.queue[0].token.id == s.request
    ensures var t := Step(props, s, Deliver);
            && s.pending == Some(s.audio.queue[0].token)
            && t.audio == Pop(s.audio) && t.pending.None? && !t.loading
            && (t.player.playing == if s.audio.paused then None else Some(s.loaded))
            && (t.continuous <==> !s.audio.paused) && (t.unlocked <==> !s.audio.paused)
            && t.player.selected == s.player.selected && t.failure == s.failure
  {
    hide Explained, FindIndex, PreviewOf;
    assert s.audio.queue[0].token in Outstanding(s.audio);
  }

  /** The newest rejection ends the start and is shown, by its reason. */
  lemma RejectionIsShown(props: Props, s: State)
    requires Inv(props, s) && s.mounted && s.audio.queue != [] && s.audio.queue[0].Settle?
    requires s.audio.queue[0].outcome.Rejected? && s.audio.queue[0].token.id == s.request
    ensures var t := Step(props, s, Deliver);
            && t.audio == Pop(s.audio) && t.pending.None? && t.player == Player(s.player.selected, None)
            && !t.loading && !t.continuous && !t.unlocked
            && (t.failure.Blocked? <==> s.audio.queue[0].outcome.reason == NotAllowed)
            && (t.failure.Unavailable? <==> s.audio.queue[0].outcome.reason != NotAllowed)
  {
    hide Explained, FindIndex, PreviewOf;
    assert s.audio.queue[0].token in Outstanding(s.audio);
  }

  /** A start from outside the page is stopped unless the page expects it, and changes nothing else. */
  lemma UnexpectedStartIsStopped(props: Props, s: State)
    requires Inv(props, s) && s.mounted && s.audio.queue != [] && s.audio.queue[0] == PlayEvent
    ensures var t := Step(props, s, Deliver);
            && t == s.(audio := t.audio)
            && (!t.audio.paused <==> !s.audio.paused && (s.pending.Some? || s.player.playing.Some?))
            && (Announces(props, s, Deliver) <==> !t.audio.paused)
  {
    hide Explained, PromisesTracked, FindIndex, PreviewOf;
    assert s.loaded != NO_SLUG by { LoadedHasSlug(props, s); }
  }

  lemma LoadedHasSlug(props: Props, s: State)
    requires Consistent(props, s)
    ensures s.loaded != NO_SLUG
  {
  }

  /** A media error ends everything and is shown. */
  lemma ErrorStops(props: Props, s: State)
    requires Inv(props, s) && s.mounted && s.audio.queue != [] && s.audio.queue[0] == ErrorEvent
    ensures Silent(Step(props, s, Deliver)) && Step(props, s, Deliver).failure.Unavailable?
    ensures Step(props, s, Deliver).request > s.request
  {
    hide PromisesTracked, FindIndex, PreviewOf;
  }

  // ----- other players, other projects, the end of the page

  /** Another player's claim silences the jukebox where it is; one that was silent already stays as it was. */
  lemma OtherMediaSilences(props: Props, s: State)
    requires Inv(props, s) && s.mounted
    ensures var t := Step(props, s, OtherMedia);
            && t.audio.paused && t.pending.None? && t.player == Player(s.player.selected, None) && !t.loading
            && t.audio.atEnd == s.audio.atEnd
            && (if s.pending.None? && s.player.playing.None? && s.audio.paused then t == s
                else Silent(t) && t.request > s.request)
  {
    hide Explained, PromisesTracked, FindIndex, PreviewOf;
  }

  /** The project shown last or first in the row, when a step would lead past it. */
  predicate Nearest(index: int, count: nat, chosen: nat) {
    chosen < count && if index < 0 then chosen == 0 else if index >= count then chosen == count - 1 else chosen == index
  }

  /**
   Without continuous listening a selection moves the silent jukebox there; with it see `SelectionContinuesListening`.
   Choosing the selected project, directly or past an end of the row, changes nothing.
   */
  lemma SelectionMoves(props: Props, s: State, index: int, answer: Answer, chosen: nat)
    requires Inv(props, s) && s.mounted && Nearest(index, |props.projects|, chosen)
    ensures Step(props, s, Select(index, answer)) == Step(props, s, Select(chosen, answer))
    ensures var t, target := Step(props, s, Select(index, answer)), props.projects[chosen];
            && (target.slug == s.player.selected ==> t == s)
            && (target.slug != s.player.selected ==> t.player.selected == target.slug && t.loaded == target.slug)
            && (target.slug != s.player.selected && !s.continuous ==>
                  && Silent(t) && t.failure.NoFailure? && t.audio.src == target.preview && t.request > s.request)
  {
    hide Explained, PromisesTracked, Outstanding;
    assert Clamp(index, |props.projects|) == chosen == Clamp(chosen, |props.projects|);
    FindIndexIsInverse(props, chosen);
    HandleIsConsistent(props, s, Select(index, answer));
    if props.projects[chosen].slug != s.player.selected {
      SelectIsMove(props, s, index, answer, chosen);
      var after := Handle(props, s, Select(index, answer));
      hide Handle, FindIndex;
      assert MetadataSlug(after.player) == after.player.selected;
    }
  }

  lemma SelectIsMove(props: Props, s: State, index: int, answer: Answer, chosen: nat)
    requires Consistent(props, s) && s.mounted && chosen < |props.projects| && Clamp(index, |props.projects|) == chosen
    requires props.projects[chosen].slug != s.player.selected
    ensures var after := Handle(props, s, Select(index, answer));
            && after.player == Player(props.projects[chosen].slug, None) && after.loaded == props.projects[chosen].slug
            && after.audio.src == props.projects[chosen].preview && after.mounted && after.externallyPaused.None?
            && (!s.continuous ==> Silent(after) && after.failure.NoFailure? && after.request > s.request)
  {
    hide FindIndex, PreviewOf;
  }

  /** In any state at all, loading another project retires the request of the one before, and brings its preview along. */
  lemma LoadingRetires(props: Props, s: State, index: nat)
    requires index < |props.projects|
    ensures var t, target := SyncTrackMedia(props, s, index), props.projects[index];
            && t.loaded == target.slug && t.player == s.player
            && (target.preview.Some? ==> t.audio.src == target.preview)
            && (target.preview.None? ==> t.audio.src.None? && t.audio.paused)
            && (s.loaded != target.slug ==> t.request > s.request && t.pending.None?)
            && (s.loaded == target.slug ==> t.request == s.request && t.pending == s.pending)
            && (s.loaded == target.slug && target.preview.Some? && s.audio.src == target.preview ==> t == s)
  {
  }

  /** The step asks the element for a start that was not asked before. */
  predicate Asks(s: State, t: State) {
    t.pending.Some? && t.pending != s.pending
  }

  /** The jukebox tells the other players exactly of the starts that it asks for, whatever the browser answers. */
  lemma StartsAreAnnounced(props: Props, s: State, index: int, answer: Answer)
    requires Inv(props, s) && s.mounted
    ensures Announces(props, s, Toggle(answer)) <==> Asks(s, Step(props, s, Toggle(Accepted)))
    ensures Announces(props, s, PlayerButton(answer)) <==> Asks(s, Step(props, s, PlayerButton(Accepted)))
    ensures Announces(props, s, Select(index, answer)) <==> Asks(s, Step(props, s, Select(index, Accepted)))
  {
    PressStops(props, s, answer);
    PressStops(props, s, Accepted);
    PlayerButtonIsThePress(props, s, Accepted);
    ActiveIsSelected(props, s);
    if ActivePreview(props, s).Some? && !Busy(s) {
      PressStarts(props, s);
    }
    SelectionIsAnnounced(props, s, index, answer);
    hide Step, Inv, ActiveIndex, FindIndex;
  }

  lemma SelectionIsAnnounced(props: Props, s: State, index: int, answer: Answer)
    requires Inv(props, s) && s.mounted
    ensures Announces(props, s, Select(index, answer)) <==> Asks(s, Step(props, s, Select(index, Accepted)))
  {
    var chosen := Clamp(index, |props.projects|);
    SelectionMoves(props, s, index, Accepted, chosen);
    if s.continuous && props.projects[chosen].slug != s.player.selected {
      SelectionContinuesListening(props, s, chosen);
    }
    hide Step, Inv;
  }

  /** Leaving the page silences the element and retires every request. */
  lemma UnmountSilences(props: Props, s: State)
    requires Inv(props, s) && s.mounted
    ensures var t := Step(props, s, Unmount);
            !t.mounted && t.audio.paused && t.pending.None? && t.request > s.request
  {
    hide Explained, PromisesTracked;
  }
}
