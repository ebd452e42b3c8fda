/**
 The two small players: AudioPreviewPlayer (components/audio-preview-player.tsx) and DigitalTrackRow
 (components/digital-catalog.tsx). They share one element model and differ in how a rejected start is reported.
 */
module PreviewPlayers {
  import opened Prelude
  import opened MediaElement

  datatype Kind = AudioPreview | TrackRow

  datatype Preview = Preview(
    kind: Kind,
    playing: bool,
    loading: bool,
    failed: bool,
    startPending: bool,
    intentionallyPaused: bool,
    calls: nat,
    audio: Element<nat>)

  datatype Answer = Accepted | Denied(reason: Refusal)

  datatype Event =
    | Press(answer: Answer) | OtherMedia | Seek
    | MediaReady | MediaEnds | MediaFails | MetadataLoads | SystemPause | SystemPlays
    | Deliver

  function Idle(kind: Kind, src: Option<Url>): Preview {
    Preview(kind, false, false, false, false, false, 0, Blank().(src := src))
  }

  predicate PressEnabled(p: Preview) {
    !p.loading && (p.kind == TrackRow ==> p.audio.src.Some?)
  }

  /** A rejection the track row does not report: its own or the coordinator's pause, still in force, without media error. */
  predicate IntentionalAbort(p: Preview, reason: Refusal) {
    reason == Aborted && p.intentionallyPaused && p.audio.paused && !p.audio.error
  }

  function StartFulfilled(p: Preview): Preview {
    p.(loading := false, startPending := false)
  }

  function StartRejected(p: Preview, reason: Refusal): Preview {
    match p.kind
    case AudioPreview => p.(failed := true, playing := false, loading := false)
    case TrackRow => p.(failed := p.failed || !IntentionalAbort(p, reason), startPending := false, loading := false)
  }

  function PressToggle(p: Preview, answer: Answer): Preview {
    if !PressEnabled(p) then p
    else if !p.audio.paused then
      p.(failed := false, intentionallyPaused := p.kind == TrackRow || p.intentionallyPaused, audio := Pause(p.audio))
    else
      var asked := p.(failed := false, loading := true, startPending := p.kind == TrackRow || p.startPending,
                      intentionallyPaused := p.kind != TrackRow && p.intentionallyPaused);
      match answer
      case Accepted => asked.(calls := p.calls + 1, audio := Play(p.audio, p.calls))
      case Denied(reason) => StartRejected(asked, reason)
  }

  function HearOther(p: Preview): Preview {
    p.(intentionallyPaused := if p.kind == TrackRow then p.startPending || !p.audio.paused else p.intentionallyPaused,
       audio := Pause(p.audio))
  }

  /** The metadata of the source arrived: one of the two players takes its failure back, the other only notes the duration. */
  function HearMetadata(p: Preview): Preview {
    p.(failed := p.failed && p.kind == TrackRow)
  }

  function DeliverTask(p: Preview): Preview
    requires p.audio.queue != []
  {
    var popped := p.(audio := Pop(p.audio));
    match p.audio.queue[0]
    case Settle(_, Fulfilled) => StartFulfilled(popped)
    case Settle(_, Rejected(reason)) => StartRejected(popped, reason)
    case PlayEvent => popped.(playing := true)
    case PauseEvent => popped.(playing := false)
    case EndOfMedia => popped.(playing := false, audio := Rewind(StopAtEnd(popped.audio)))
    case ErrorEvent => popped.(failed := true, loading := false, playing := false)
  }

  function Step(p: Preview, e: Event): Preview {
    match e
    case Press(answer) => PressToggle(p, answer)
    case OtherMedia => HearOther(p)
    case Seek => p.(audio := Rewind(p.audio))
    case MediaReady => p.(audio := Ready(p.audio))
    case MediaEnds => p.(audio := ReachEnd(p.audio))
    case MediaFails => p.(audio := Fail(p.audio))
    case MetadataLoads => HearMetadata(p)
    case SystemPause => p.(audio := Pause(p.audio))
    case SystemPlays => p.(audio := SystemPlay(p.audio))
    case Deliver => if p.audio.queue == [] then p else DeliverTask(p)
  }

  /** `onPlay` announces whatever the element's state has become meanwhile. */
  predicate Announces(p: Preview, e: Event) {
    e.Deliver? && p.audio.queue != [] && p.audio.queue[0].PlayEvent?
  }

  function Run(p: Preview, events: seq<Event>): Preview
    decreases |events|
  {
    if events == [] then p else Run(Step(p, events[0]), events[1..])
  }

  // ----- a start that the coordinator or the visitor interrupts

  /** What may happen to a row whose media works and whose playback only the page controls. */
  predicate PageControlled(p: Preview, e: Event) {
    match e
    case Press(answer) => answer.Accepted?
    case MediaFails => false
    case SystemPause => false
    case SystemPlays => false
    case MediaEnds => p.audio.promises == []
    case _ => true
  }

  predicate PageControlledRun(p: Preview, events: seq<Event>)
    decreases |events|
  {
    events == [] || (PageControlled(p, events[0]) && PageControlledRun(Step(p, events[0]), events[1..]))
  }

  ghost predicate Unfailed(p: Preview) {
    && p.kind == TrackRow && !p.failed && !p.audio.error
    && ErrorEvent !in p.audio.queue
    && (p.audio.atEnd ==> p.audio.promises == [])
    && (p.audio.promises != [] ==> !p.audio.paused)
    && (forall i :: 0 <= i < |p.audio.queue| && p.audio.queue[i].Settle? && p.audio.queue[i].outcome.Rejected?
          ==> p.audio.queue[i].outcome == Rejected(Aborted) && p.intentionallyPaused && p.audio.paused)
    && |Outstanding(p.audio)| == (if p.loading then 1 else 0)
    && p.startPending == p.loading
  }

  lemma NothingOutstanding(e: Element<nat>)
    requires |Outstanding(e)| == 0
    ensures e.promises == []
    ensures forall i :: 0 <= i < |e.queue| ==> !e.queue[i].Settle?
  {
    assert Outstanding(e) == multiset{};
    forall i | 0 <= i < |e.queue| && e.queue[i].Settle? ensures e.queue[i].token in Outstanding(e) {
      SettleIsCounted(e.queue, i);
    }
    assert forall x :: x in e.promises ==> x in Outstanding(e);
  }

  lemma PauseKeepsUnfailed(p: Preview)
    requires Unfailed(p)
    ensures Unfailed(HearOther(p))
    ensures PressEnabled(p) && !p.audio.paused ==> Unfailed(PressToggle(p, Accepted))
  {
    hide Outstanding;
    if !p.loading { NothingOutstanding(p.audio); }
    PauseKeepsPromises(p.audio);
    var q := Pause(p.audio);
    assert ErrorEvent !in q.queue;
  }

  lemma StartKeepsUnfailed(p: Preview)
    requires Unfailed(p) && PressEnabled(p) && p.audio.paused
    ensures Unfailed(PressToggle(p, Accepted))
  {
    NothingOutstanding(p.audio);
    PlayAddsItsPromise(p.audio, p.calls);
    var q := Play(p.audio, p.calls);
    assert |Outstanding(q)| == 1;
    assert q.queue == p.audio.queue + [PlayEvent];
  }

  lemma EnvironmentKeepsUnfailed(p: Preview, e: Event)
    requires Unfailed(p) && PageControlled(p, e) && (e.MediaReady? || e.MediaEnds? || e.MetadataLoads? || e.Seek?)
    ensures Unfailed(Step(p, e))
  {
    hide Outstanding;
    ReadyKeepsPromises(p.audio);
    UserAgentKeepsPromises(p.audio);
    RewindKeepsPromises(p.audio);
    assert ErrorEvent !in Step(p, e).audio.queue;
  }

  lemma DeliverKeepsUnfailed(p: Preview)
    requires Unfailed(p) && p.audio.queue != []
    ensures Unfailed(DeliverTask(p))
  {
    hide Outstanding;
    var popped := Pop(p.audio);
    assert p.audio.queue == [p.audio.queue[0]] + popped.queue;
    OutstandingOfPop(p.audio);
    PauseKeepsPromises(popped);
    RewindKeepsPromises(StopAtEnd(popped));
    assert forall i :: 0 <= i < |popped.queue| ==> popped.queue[i] == p.audio.queue[i + 1];
    if p.audio.queue[0].Settle? {
      assert p.loading;
    }
  }

  lemma OutstandingOfPop(e: Element<nat>)
    requires e.queue != []
    ensures |Outstanding(e)| == |Outstanding(Pop(e))| + (if e.queue[0].Settle? then 1 else 0)
  {
    if e.queue[0].Settle? {
      assert Outstanding(e) == Outstanding(Pop(e)) + multiset{e.queue[0].token};
    } else {
      assert Outstanding(e) == Outstanding(Pop(e));
    }
  }

  /** A track row never shows a failure because a start was interrupted by its own button or by another player. */
  lemma {:induction false} InterruptedStartIsNoFailure(p: Preview, events: seq<Event>)
    requires Unfailed(p) && PageControlledRun(p, events)
    ensures Unfailed(Run(p, events)) && !Run(p, events).failed
    decreases |events|
  {
    if events != [] {
      var e := events[0];
      match e {
        case Press(_) =>
          if p.audio.paused && PressEnabled(p) { StartKeepsUnfailed(p); } else { PauseKeepsUnfailed(p); }
        case OtherMedia => PauseKeepsUnfailed(p);
        case Deliver => if p.audio.queue != [] { DeliverKeepsUnfailed(p); }
        case _ => EnvironmentKeepsUnfailed(p, e);
      }
      InterruptedStartIsNoFailure(Step(p, e), events[1..]);
    }
  }

  /** From the page's first render on: no run that only the page controls shows a failure. */
  lemma MountedRowShowsNoFailure(src: Option<Url>, events: seq<Event>)
    requires PageControlledRun(Idle(TrackRow, src), events)
    ensures !Run(Idle(TrackRow, src), events).failed
  {
    IdleIsQuiet(TrackRow, src);
    InterruptedStartIsNoFailure(Idle(TrackRow, src), events);
  }

  lemma IdleIsQuiet(kind: Kind, src: Option<Url>)
    ensures Outstanding(Idle(kind, src).audio) == multiset{}
    ensures Accounted(Idle(kind, src))
  {
  }

  // ----- every interruption, of either player

  /**
   What holds in every run of either player, whatever its media and the system do. After a fatal media error a control
   becomes usable before the refused promises arrive, so the count speaks of elements without one.
   */
  ghost predicate Accounted(p: Preview) {
    && (p.audio.promises != [] ==> !p.audio.paused && (p.kind == TrackRow ==> !p.intentionallyPaused))
    && (!p.audio.error ==>
          && ErrorEvent !in p.audio.queue
          && (p.loading ==> !p.failed)
          && |Outstanding(p.audio)| == (if p.loading then 1 else 0))
  }

  lemma PressKeepsAccounted(p: Preview, answer: Answer)
    requires Accounted(p)
    ensures Accounted(PressToggle(p, answer))
  {
    hide Outstanding;
    PauseKeepsPromises(p.audio);
    PlayAddsItsPromise(p.audio, p.calls);
    assert ErrorEvent !in p.audio.queue ==> ErrorEvent !in Pause(p.audio).queue && ErrorEvent !in Play(p.audio, p.calls).queue;
  }

  lemma EnvironmentKeepsAccounted(p: Preview, e: Event)
    requires Accounted(p) && !e.Press? && !e.Deliver?
    ensures Accounted(Step(p, e))
  {
    hide Outstanding;
    if !e.MediaFails? && !e.MetadataLoads? {
      PauseKeepsPromises(p.audio);
      ReadyKeepsPromises(p.audio);
      UserAgentKeepsPromises(p.audio);
      RewindKeepsPromises(p.audio);
      assert ErrorEvent !in p.audio.queue ==> ErrorEvent !in Step(p, e).audio.queue;
    }
  }

  lemma StopAtEndAddsNoError(e: Element<nat>)
    requires ErrorEvent !in e.queue
    ensures ErrorEvent !in Rewind(StopAtEnd(e)).queue
  {
  }

  /** What a delivered task does to the parts of the player that the count relates. */
  lemma DeliverEffect(p: Preview)
    requires p.audio.queue != []
    ensures var t, head := DeliverTask(p), p.audio.queue[0];
            && t.kind == p.kind && t.intentionallyPaused == p.intentionallyPaused
            && t.audio == (if head.EndOfMedia? then Rewind(StopAtEnd(Pop(p.audio))) else Pop(p.audio))
            && t.loading == (p.loading && !head.Settle? && !head.ErrorEvent?)
            && (!head.Settle? && !head.ErrorEvent? ==> t.failed == p.failed)
  {
    hide StopAtEnd, Rewind, Pop;
  }

  lemma DeliverKeepsAccounted(p: Preview)
    requires Accounted(p) && p.audio.queue != []
    ensures Accounted(DeliverTask(p))
  {
    hide Outstanding, DeliverTask;
    var popped, head := Pop(p.audio), p.audio.queue[0];
    DeliverEffect(p);
    OutstandingOfPop(p.audio);
    PauseKeepsPromises(popped);
    RewindKeepsPromises(StopAtEnd(popped));
    if !p.audio.error {
      assert p.audio.queue == [head] + popped.queue;
      assert ErrorEvent !in popped.queue && !head.ErrorEvent?;
      StopAtEndAddsNoError(popped);
    }
  }

  lemma {:induction false} RunKeepsAccounted(p: Preview, events: seq<Event>)
    requires Accounted(p)
    ensures Accounted(Run(p, events))
    decreases |events|
  {
    if events != [] {
      var e := events[0];
      match e {
        case Press(answer) => PressKeepsAccounted(p, answer);
        case Deliver => if p.audio.queue != [] { DeliverKeepsAccounted(p); }
        case _ => EnvironmentKeepsAccounted(p, e);
      }
      RunKeepsAccounted(Step(p, e), events[1..]);
    }
  }

  /** The tasks that make a stopped player show a failure when they are delivered. */
  predicate ShowsFailure(p: Preview, task: Task<nat>) {
    || task.ErrorEvent?
    || (task.Settle? && task.outcome.Rejected? && (p.kind == AudioPreview || !IntentionalAbort(p, task.outcome.reason)))
  }

  function Deliveries(n: nat): seq<Event> {
    seq(n, _ => Deliver)
  }

  lemma StoppedDelivery(p: Preview)
    requires p.audio.paused && p.audio.queue != []
    ensures var next := Step(p, Deliver);
            && next.audio.paused && next.audio.queue == p.audio.queue[1..] && next.audio.error == p.audio.error
            && next.kind == p.kind && next.intentionallyPaused == p.intentionallyPaused
            && (next.failed <==> p.failed || ShowsFailure(p, p.audio.queue[0]))
  {
    DeliverEffect(p);
    assert Step(p, Deliver) == DeliverTask(p);
    assert IntentionalAbort(p.(audio := Pop(p.audio)), Aborted) == IntentionalAbort(p, Aborted);
  }

  /** A stopped player whose whole queue is delivered shows a failure exactly if it did or one of the tasks says so. */
  lemma {:induction false} DeliveryShowsExactly(p: Preview)
    requires p.audio.paused
    ensures var end := Run(p, Deliveries(|p.audio.queue|));
            && end.audio.queue == []
            && (end.failed <==> p.failed || exists i :: 0 <= i < |p.audio.queue| && ShowsFailure(p, p.audio.queue[i]))
    decreases |p.audio.queue|
  {
    var queue := p.audio.queue;
    if queue != [] {
      hide Step;
      var next := Step(p, Deliver);
      StoppedDelivery(p);
      assert Deliveries(|queue|)[1..] == Deliveries(|queue| - 1);
      DeliveryShowsExactly(next);
      hide Run;
      assert forall i :: 0 <= i < |queue| - 1 ==> ShowsFailure(next, queue[1..][i]) == ShowsFailure(p, queue[i + 1]);
      assert forall i :: 0 < i < |queue| ==> ShowsFailure(p, queue[i]) == ShowsFailure(next, queue[1..][i - 1]);
    }
  }

  /** Another player of the page starts, or the system pauses the element. */
  predicate Interrupts(e: Event) {
    e.OtherMedia? || e.SystemPause?
  }

  /** The player after an interruption, once everything that it caused and everything before it has been delivered. */
  function Interrupted(p: Preview, e: Event): Preview {
    var stopped := Step(p, e);
    Run(stopped, Deliveries(|stopped.audio.queue|))
  }

  /**
   Over every run of either player: an interrupted start is shown as a failure exactly if the player is the one that
   keeps no intention, the interruption came from outside the page, or the element already had a fatal error.
   An interruption without a start outstanding shows nothing that was not there before.
   */
  lemma InterruptionIsReportedExactly(kind: Kind, src: Option<Url>, events: seq<Event>, e: Event)
    requires Interrupts(e)
    ensures var p := Run(Idle(kind, src), events);
            && (p.audio.promises != [] ==>
                  (Interrupted(p, e).failed <==> kind == AudioPreview || e.SystemPause? || p.audio.error))
            && (Outstanding(p.audio) == multiset{} ==>
                  (Interrupted(p, e).failed <==> p.failed || ErrorEvent in p.audio.queue))
            && (Outstanding(p.audio) == multiset{} && !p.audio.error ==> Interrupted(p, e).failed == p.failed)
  {
    IdleIsQuiet(kind, src);
    RunKeepsAccounted(Idle(kind, src), events);
    RunKeepsKind(Idle(kind, src), events);
    var p := Run(Idle(kind, src), events);
    DeliveryShowsExactly(Step(p, e));
    if p.audio.promises != [] {
      PendingStartInterrupted(p, e);
    }
    if Outstanding(p.audio) == multiset{} {
      NoStartInterrupted(p, e);
    }
  }

  lemma StepKeepsKind(p: Preview, e: Event)
    ensures Step(p, e).kind == p.kind
  {
    hide DeliverTask, Play, Pause, Ready, ReachEnd, Fail, SystemPlay, StopAtEnd, Rewind, Pop;
    if e.Deliver? && p.audio.queue != [] { DeliverEffect(p); }
  }

  lemma {:induction false} RunKeepsKind(p: Preview, events: seq<Event>)
    ensures Run(p, events).kind == p.kind
    decreases |events|
  {
    if events != [] {
      hide Step;
      StepKeepsKind(p, events[0]);
      RunKeepsKind(Step(p, events[0]), events[1..]);
    }
  }

  /** Without a fatal error the interrupted promise is the only one outstanding, so no other settlement is queued. */
  lemma PendingStartInterrupted(p: Preview, e: Event)
    requires Accounted(p) && p.audio.promises != [] && Interrupts(e)
    ensures var q := Step(p, e);
            && q.audio.paused
            && ((q.failed || exists i :: 0 <= i < |q.audio.queue| && ShowsFailure(q, q.audio.queue[i]))
                <==> p.kind == AudioPreview || e.SystemPause? || p.audio.error)
  {
    var q, token := Step(p, e), p.audio.promises[0];
    var position := |p.audio.queue| + 1;
    assert q.audio.queue[position] == Settle(token, Rejected(Aborted));
    if !p.audio.error {
      OnlyPending(p.audio);
      assert p.loading;
      assert forall i :: 0 <= i < position ==> !ShowsFailure(q, q.audio.queue[i]);
      assert forall i :: position <= i < |q.audio.queue| ==>
          q.audio.queue[i].Settle? && q.audio.queue[i].outcome == Rejected(Aborted);
    } else {
      assert ShowsFailure(q, q.audio.queue[position]);
    }
  }

  lemma OnlyPending(e: Element<nat>)
    requires e.promises != [] && |Outstanding(e)| <= 1
    ensures |Outstanding(e)| == 1
    ensures forall i :: 0 <= i < |e.queue| ==> !e.queue[i].Settle?
  {
    assert |multiset(e.promises)| == |e.promises|;
    assert Tokens(e.queue) == multiset{};
    forall i | 0 <= i < |e.queue| ensures !e.queue[i].Settle? {
      if e.queue[i].Settle? { SettleIsCounted(e.queue, i); }
    }
  }

  lemma NoStartInterrupted(p: Preview, e: Event)
    requires Accounted(p) && Outstanding(p.audio) == multiset{} && Interrupts(e)
    ensures var q := Step(p, e);
            && q.audio.paused
            && ((q.failed || exists i :: 0 <= i < |q.audio.queue| && ShowsFailure(q, q.audio.queue[i]))
                <==> p.failed || ErrorEvent in p.audio.queue)
  {
    NothingOutstanding(p.audio);
    var q := Step(p, e);
    assert forall task :: task in q.audio.queue <==> task in p.audio.queue || (!p.audio.paused && task == PauseEvent);
    assert forall i :: 0 <= i < |p.audio.queue| ==> q.audio.queue[i] == p.audio.queue[i];
  }

  /** The shortest such runs: a start, its interruption, and the delivery of what the element queued. */
  lemma SystemInterruptionIsReported(kind: Kind, src: Url)
    ensures Run(Idle(kind, Some(src)), [Press(Accepted), SystemPause, Deliver, Deliver, Deliver]).failed
    ensures Run(Idle(kind, Some(src)), [Press(Accepted), OtherMedia, Deliver, Deliver, Deliver]).failed
            <==> kind == AudioPreview
  {
    var p := Idle(kind, Some(src));
    var started := Step(p, Press(Accepted));
    assert Run(p, [Press(Accepted)]) == Run(started, []) == started;
    assert Deliveries(3) == [Deliver, Deliver, Deliver];
    InterruptionIsReportedExactly(kind, Some(src), [Press(Accepted)], SystemPause);
    InterruptionIsReportedExactly(kind, Some(src), [Press(Accepted)], OtherMedia);
    RunOfFive(p, SystemPause);
    RunOfFive(p, OtherMedia);
  }

  lemma RunOfFive(p: Preview, second: Event)
    ensures Run(p, [Press(Accepted), second, Deliver, Deliver, Deliver]) ==
            Run(Step(Step(p, Press(Accepted)), second), [Deliver, Deliver, Deliver])
  {
    assert [Press(Accepted), second, Deliver, Deliver, Deliver][1..] == [second, Deliver, Deliver, Deliver];
    assert [second, Deliver, Deliver, Deliver][1..] == [Deliver, Deliver, Deliver];
  }
}
