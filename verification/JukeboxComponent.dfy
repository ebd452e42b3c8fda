/**
 The jukebox handlers in the form of the source: refs and flags of one object, changed in place.
 `View` is the abstract state; every method is proved to perform the step function of the same handler.
 */
module JukeboxComponent {
  import opened Prelude
  import opened MediaElement
  import opened Jukebox
  import Safety = JukeboxSafety

  class ProjectJukebox {
    const props: Props
    var player: Player
    var loaded: Slug
    var request: nat
    var pending: Option<Request>
    var continuous: bool
    var unlocked: bool
    var loading: bool
    var failure: Failure
    var externallyPaused: Option<Slug>
    var mounted: bool
    var audio: Element<Request>

    function View(): State
      reads this
    {
      State(player, loaded, request, pending, continuous, unlocked, loading, failure, externallyPaused, mounted, audio)
    }

    constructor (props: Props)
      requires Catalogue(props)
      ensures this.props == props && View() == Initial(props)
    {
      this.props := props;
      var slug := props.projects[Clamp(props.initialIndex, |props.projects|)].slug;
      player, loaded, request, pending := Player(slug, None), slug, 0, None;
      continuous, unlocked, loading, failure := false, false, false, NoFailure;
      externallyPaused, mounted, audio := None, true, Blank();
      new;
      RunMetadataEffect();
    }

    method StopElement(resetPosition: bool)
      modifies `audio
      ensures audio == if resetPosition then Rewind(Pause(old(audio))) else Pause(old(audio))
    {
      if !audio.paused { audio := Pause(audio); }
      if resetPosition { audio := Rewind(audio); }
    }

    method PauseCurrentPlayback(resetPosition: bool, disableContinuity: bool)
      modifies this
      ensures View() == PauseCurrent(old(View()), resetPosition, disableContinuity)
    {
      hide Reduce, Rewind, Pause;
      request := request + 1;
      pending := None;
      loading := false;
      if disableContinuity {
        continuous := false;
        unlocked := false;
      }
      StopElement(resetPosition);
      match player.playing {
        case Some(slug) => player := Reduce(player, PauseSlug(slug));
        case None =>
      }
    }

    method Sync(index: int)
      modifies this
      ensures View() == SyncTrackMedia(props, old(View()), index)
    {
      if !(0 <= index < |props.projects|) { return; }
      var target := props.projects[index];
      if loaded != target.slug {
        request := request + 1;
        pending := None;
        loaded := target.slug;
      }
      if target.preview.None? {
        audio := Load(audio, None);
        return;
      }
      if audio.src != target.preview {
        audio := Load(audio, target.preview);
      }
    }

    method OnFulfilled(r: Request)
      modifies this
      ensures View() == PlaybackFulfilled(old(View()), r)
    {
      if r.id != request || loaded != r.slug { return; }
      if audio.paused {
        pending := None;
        continuous := false;
        unlocked := false;
        loading := false;
        return;
      }
      pending := None;
      player := Reduce(player, PlaySlug(r.slug));
      continuous := true;
      unlocked := true;
      loading := false;
    }

    method OnRejected(r: Request, reason: Refusal)
      modifies this
      ensures View() == PlaybackRejected(old(View()), r, reason)
    {
      if r.id != request || loaded != r.slug { return; }
      pending := None;
      continuous := false;
      unlocked := false;
      loading := false;
      failure := if reason == NotAllowed then Blocked else Unavailable;
      player := Reduce(player, PauseSlug(r.slug));
    }

    method Attempt(index: int, answer: Answer) returns (announced: bool)
      modifies this
      ensures View() == AttemptPlayback(props, old(View()), index, answer)
      ensures announced == (0 <= index < |props.projects| && props.projects[index].preview.Some?)
    {
      hide SyncTrackMedia, PlaybackRejected, Play;
      if !(0 <= index < |props.projects|) || props.projects[index].preview.None? { return false; }
      Sync(index);
      request := request + 1;
      var r := Request(request, props.projects[index].slug);
      pending := Some(r);
      failure := NoFailure;
      loading := true;
      announced := true;
      match answer {
        case Accepted => audio := Play(audio, r);
        case Denied(reason) => OnRejected(r, reason);
      }
    }

    method OnSelect(index: int, answer: Answer) returns (announced: bool)
      modifies this
      ensures View() == SelectProject(props, old(View()), index, answer)
      ensures old(mounted) && props.projects != [] ==> announced == Announces(props, old(View()), Select(index, answer))
    {
      announced := false;
      var next := Clamp(index, |props.projects|);
      if !(0 <= next < |props.projects|) { return; }
      var target := props.projects[next];
      if target.slug == player.selected { return; }
      var continueListening := continuous;
      PauseCurrentPlayback(true, false);
      player := Reduce(player, SelectSlug(target.slug));
      failure := NoFailure;
      Sync(next);
      if continueListening && target.preview.Some? {
        announced := Attempt(next, answer);
      }
    }

    method OnToggle(answer: Answer) returns (announced: bool)
      requires props.projects != []
      modifies this
      ensures View() == TogglePlay(props, old(View()), answer)
      ensures announced == StartsOnToggle(props, old(View()))
    {
      announced := false;
      var index := ActiveIndex(props, player);
      var target := props.projects[index];
      if target.preview.None? { return; }
      if pending.Some? {
        PauseCurrentPlayback(true, true);
        return;
      }
      if player.playing == Some(target.slug) && !audio.paused {
        PauseCurrentPlayback(true, true);
        return;
      }
      if player.playing.Some? { PauseCurrentPlayback(true, true); }
      announced := Attempt(index, answer);
    }

    method OnPlayerButton(answer: Answer) returns (announced: bool)
      requires props.projects != []
      modifies this
      ensures View() == PressPlayerButton(props, old(View()), answer)
      ensures old(mounted) ==> announced == Announces(props, old(View()), PlayerButton(answer))
    {
      announced := false;
      var shown := FindIndex(props.projects, MetadataSlug(player));
      var index := if shown >= 0 then shown else ActiveIndex(props, player);
      if props.projects[index].preview.None? { return; }
      if player.playing.Some? { PauseCurrentPlayback(true, true); } else { announced := OnToggle(answer); }
    }

    method OnOtherMedia()
      modifies this
      ensures View() == HearOtherMedia(old(View()))
    {
      var playbackPending := pending.Some?;
      var playbackActive := player.playing.Some? || !audio.paused;
      if !playbackPending && !playbackActive { return; }
      if loaded != player.selected {
        externallyPaused := Some(loaded);
      }
      PauseCurrentPlayback(false, true);
    }

    method OnPlayEvent() returns (announced: bool)
      modifies this
      ensures View() == OnPlay(old(View()))
      ensures announced == AcceptsPlayEvent(old(View()))
    {
      var expectedPlay := pending.Some? && pending.value.id == request && pending.value.slug == loaded;
      var settledPlay := player.playing == Some(loaded);
      if loaded == NO_SLUG || audio.paused || (!expectedPlay && !settledPlay) {
        if !audio.paused { audio := Pause(audio); }
        return false;
      }
      return true;
    }

    method OnPauseEvent()
      modifies this
      ensures View() == OnPause(old(View()))
    {
      if loaded == NO_SLUG || !audio.paused { return; }
      if !audio.atEnd && pending.None? && player.playing == Some(loaded) {
        continuous := false;
        unlocked := false;
        loading := false;
      }
      player := Reduce(player, PauseSlug(loaded));
    }

    method OnEndedEvent()
      modifies this
      ensures View() == OnEnded(old(View()))
    {
      if loaded == NO_SLUG || !audio.atEnd { return; }
      player := Reduce(player, PauseSlug(loaded));
    }

    method OnErrorEvent()
      modifies this
      ensures View() == OnError(old(View()))
    {
      if !audio.error || audio.src.None? { return; }
      PauseCurrentPlayback(false, true);
      failure := Unavailable;
    }

    /** One task of the element: its listeners, or the continuation of an awaited `play()`. */
    method RunTask() returns (announced: bool)
      requires audio.queue != []
      modifies this
      ensures View() == DeliverTask(old(View()))
      ensures old(mounted) && props.projects != [] ==> announced == Announces(props, old(View()), Deliver)
    {
      announced := false;
      var task := audio.queue[0];
      audio := Pop(audio);
      match task {
        case Settle(r, Fulfilled) => OnFulfilled(r);
        case Settle(r, Rejected(reason)) => OnRejected(r, reason);
        case PlayEvent => if mounted { announced := OnPlayEvent(); }
        case PauseEvent => if mounted { OnPauseEvent(); }
        case ErrorEvent => if mounted { OnErrorEvent(); }
        case EndOfMedia =>
          if mounted {
            var stops := audio.atEnd && !audio.paused;
            audio := StopAtEnd(audio);
            if stops { OnPauseEvent(); }
            OnEndedEvent();
          }
      }
    }

    method OnUnmount()
      modifies this
      ensures View() == UnmountPlayer(old(View()))
    {
      request := request + 1;
      pending := None;
      audio := Pause(audio);
      mounted := false;
    }

    method RunMetadataEffect()
      modifies this
      ensures View() == MetadataEffect(props, old(View()))
    {
      var source := externallyPaused;
      externallyPaused := None;
      if source.Some? && loaded == source.value { return; }
      var index := FindIndex(props.projects, MetadataSlug(player));
      if index >= 0 { Sync(index); }
    }

    /** One event and the effect of its commit keep the invariant; `announced` is the claim sent to the other players. */
    method OnEvent(e: Event) returns (announced: bool)
      requires Safety.Inv(props, View())
      modifies this
      ensures View() == Step(props, old(View()), e) && Safety.Inv(props, View())
      ensures old(mounted) ==> announced == Announces(props, old(View()), e)
    {
      announced := false;
      Safety.StepKeeps(props, View(), e);
      if !mounted && !e.Deliver? { return; }
      ghost var before := View();
      var shown := MetadataSlug(player);
      match e {
        case Select(index, answer) => announced := OnSelect(index, answer);
        case Toggle(answer) => announced := OnToggle(answer);
        case PlayerButton(answer) => announced := OnPlayerButton(answer);
        case OtherMedia => OnOtherMedia();
        case MediaReady => audio := Ready(audio);
        case MediaEnds => audio := ReachEnd(audio);
        case MediaFails => audio := Fail(audio);
        case SystemPause => audio := Pause(audio);
        case SystemPlays => audio := SystemPlay(audio);
        case Deliver => if audio.queue != [] { announced := RunTask(); }
        case Unmount => OnUnmount();
      }
      assert View() == Handle(props, before, e);
      if mounted && MetadataSlug(player) != shown { RunMetadataEffect(); }
    }
  }
}
