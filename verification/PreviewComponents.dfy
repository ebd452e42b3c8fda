/** The handlers of the two small players in the form of the source, proved to perform the step functions. */
module PreviewComponents {
  import opened Prelude
  import opened MediaElement
  import opened PreviewPlayers

  class AudioPreviewPlayer {
    var playing: bool
    var loading: bool
    var failed: bool
    var calls: nat
    var audio: Element<nat>

    function View(): Preview
      reads this
    {
      Preview(AudioPreview, playing, loading, failed, false, false, calls, audio)
    }

    method OnToggle(answer: PreviewPlayers.Answer)
      requires !loading
      modifies this
      ensures View() == PressToggle(old(View()), answer)
    {
      failed := false;
      if !audio.paused {
        audio := Pause(audio);
        return;
      }
      loading := true;
      match answer {
        case Accepted => audio, calls := Play(audio, calls), calls + 1;
        case Denied(reason) => OnRejected(reason);
      }
    }

    method OnRejected(ghost reason: Refusal)
      modifies this
      ensures View() == StartRejected(old(View()), reason)
    {
      failed, playing := true, false;
      loading := false;
    }

    method OnOtherMedia()
      modifies this
      ensures View() == HearOther(old(View()))
    {
      audio := Pause(audio);
    }

    method OnLoadedMetadata()
      modifies this
      ensures View() == HearMetadata(old(View()))
    {
      failed := false;
    }

    method RunTask() returns (announced: bool)
      requires audio.queue != []
      modifies this
      ensures View() == DeliverTask(old(View())) && announced == Announces(old(View()), Deliver)
    {
      var task := audio.queue[0];
      audio := Pop(audio);
      announced := false;
      match task {
        case Settle(_, Fulfilled) => loading := false;
        case Settle(_, Rejected(reason)) => OnRejected(reason);
        case PlayEvent => playing, announced := true, true;
        case PauseEvent => playing := false;
        case EndOfMedia =>
          audio := Rewind(StopAtEnd(audio));
          playing := false;
        case ErrorEvent => failed, loading, playing := true, false, false;
      }
    }
  }

  class DigitalTrackRow {
    var playing: bool
    var loading: bool
    var failed: bool
    var startPending: bool
    var intentionallyPaused: bool
    var calls: nat
    var audio: Element<nat>

    function View(): Preview
      reads this
    {
      Preview(TrackRow, playing, loading, failed, startPending, intentionallyPaused, calls, audio)
    }

    method OnToggle(answer: PreviewPlayers.Answer)
      requires !loading && audio.src.Some?
      modifies this
      ensures View() == PressToggle(old(View()), answer)
    {
      failed := false;
      if !audio.paused {
        intentionallyPaused := true;
        audio := Pause(audio);
        return;
      }
      startPending := true;
      intentionallyPaused := false;
      loading := true;
      match answer {
        case Accepted => audio, calls := Play(audio, calls), calls + 1;
        case Denied(reason) => OnRejected(reason);
      }
    }

    method OnRejected(reason: Refusal)
      modifies this
      ensures View() == StartRejected(old(View()), reason)
    {
      var intentional := reason == Aborted && intentionallyPaused && audio.paused && !audio.error;
      if !intentional { failed := true; }
      startPending := false;
      loading := false;
    }

    method OnOtherMedia()
      modifies this
      ensures View() == HearOther(old(View()))
    {
      intentionallyPaused := startPending || !audio.paused;
      audio := Pause(audio);
    }

    method RunTask() returns (announced: bool)
      requires audio.queue != []
      modifies this
      ensures View() == DeliverTask(old(View())) && announced == Announces(old(View()), Deliver)
    {
      var task := audio.queue[0];
      audio := Pop(audio);
      announced := false;
      match task {
        case Settle(_, Fulfilled) => startPending, loading := false, false;
        case Settle(_, Rejected(reason)) => OnRejected(reason);
        case PlayEvent => playing, announced := true, true;
        case PauseEvent => playing := false;
        case EndOfMedia =>
          audio := Rewind(StopAtEnd(audio));
          playing := false;
        case ErrorEvent => failed, playing, loading := true, false, false;
      }
    }
  }
}
