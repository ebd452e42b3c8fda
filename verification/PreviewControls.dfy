/** What a press on one of the two small players brings about, and when its button shows what its element does. */
module PreviewControls {
  import opened Prelude
  import opened MediaElement
  import opened PreviewPlayers

  /** The enabled button of a running player: the element pauses at once, and its own pause is known as intended. */
  lemma PressPauses(p: Preview, answer: Answer)
    requires PressEnabled(p) && !p.audio.paused
    ensures var t := Step(p, Press(answer));
            && t.audio.paused && t.audio.promises == [] && !t.failed && !t.loading
            && |t.audio.queue| == |p.audio.queue| + 1 + |p.audio.promises|
            && t.audio.queue[..|p.audio.queue|] == p.audio.queue && t.audio.queue[|p.audio.queue|] == PauseEvent
            && (forall i :: 0 <= i < |p.audio.promises| ==>
                  t.audio.queue[|p.audio.queue| + 1 + i] == Settle(p.audio.promises[i], Rejected(Aborted)))
            && Outstanding(t.audio) == Outstanding(p.audio)
            && (p.kind == TrackRow ==> t.intentionallyPaused)
            && t.audio.src == p.audio.src && t.kind == p.kind && t.calls == p.calls
  {
    PauseKeepsPromises(p.audio);
    hide Outstanding;
  }

  /** That of a paused one asks the element to start, once, and waits for the answer without an intention to pause. */
  lemma PressStarts(p: Preview)
    requires PressEnabled(p) && p.audio.paused
    ensures var t := Step(p, Press(Accepted));
            && !t.audio.paused && !t.audio.atEnd && t.loading && !t.failed
            && t.audio.queue == p.audio.queue + [PlayEvent]
            && Outstanding(t.audio) == Outstanding(p.audio) + multiset{p.calls} && t.calls == p.calls + 1
            && (p.kind == TrackRow ==> t.startPending && !t.intentionallyPaused)
            && t.audio.src == p.audio.src && t.kind == p.kind
  {
    PlayAddsItsPromise(p.audio, p.calls);
    hide Outstanding;
  }

  /** A start that the browser refuses at once is shown as a failure; a disabled button does nothing. */
  lemma PressIsRefused(p: Preview, reason: Refusal)
    ensures var t := Step(p, Press(Denied(reason)));
            && (!PressEnabled(p) ==> t == p)
            && (PressEnabled(p) && p.audio.paused ==>
                  t.failed && !t.loading && t.audio == p.audio && t.calls == p.calls
                  && (p.kind == TrackRow ==> !t.startPending && !t.intentionallyPaused))
    ensures !PressEnabled(p) ==> Step(p, Press(Accepted)) == p
  {
  }

  /**
   What each task of the element does to the player: a settlement ends the loading, the row's own abort is the only
   rejection that is not shown, a play event is the only one that is announced, and the end moves back to the start.
   */
  lemma TasksAct(p: Preview)
    requires p.audio.queue != []
    ensures var t, head := Step(p, Deliver), p.audio.queue[0];
            && t.loading == (p.loading && !head.Settle? && !head.ErrorEvent?)
            && (Announces(p, Deliver) <==> head.PlayEvent?)
            && (head.PlayEvent? ==> t.playing) && (head.PauseEvent? || head.EndOfMedia? || head.ErrorEvent? ==> !t.playing)
            && (head.Settle? && head.outcome.Fulfilled? ==> t.failed == p.failed && t.playing == p.playing)
            && (head.Settle? && head.outcome.Rejected? ==>
                  (t.failed <==> p.failed || p.kind == AudioPreview || head.outcome.reason != Aborted
                                 || !p.intentionallyPaused || !p.audio.paused || p.audio.error))
            && (head.ErrorEvent? ==> t.failed)
            && (head.EndOfMedia? ==> !t.audio.atEnd && (p.audio.atEnd ==> t.audio.paused))
            && (p.kind == TrackRow ==> t.startPending == (p.startPending && !head.Settle?))
  {
  }

  /** Only the coordinator's claims, the tasks above and these touch a player: the slider and the metadata of its source. */
  lemma SliderAndMetadata(p: Preview)
    ensures var t := Step(p, Seek); !t.audio.atEnd && t == p.(audio := t.audio) && t.audio.queue == p.audio.queue
    ensures var t := Step(p, MetadataLoads); t == p.(failed := t.failed) && (t.failed <==> p.failed && p.kind == TrackRow)
    ensures forall e :: Announces(p, e) ==> e.Deliver?
  {
  }

  // ----- the button and the element

  /** What the button will show once the queue is delivered. */
  function Shows(kind: Kind, playing: bool, queue: seq<Task<nat>>): bool
    decreases |queue|
  {
    if queue == [] then playing else Shows(kind, ShownAfter(kind, playing, queue[0]), queue[1..])
  }

  function ShownAfter(kind: Kind, playing: bool, task: Task<nat>): bool {
    match task
    case PlayEvent => true
    case PauseEvent => false
    case EndOfMedia => false
    case ErrorEvent => false
    case Settle(_, outcome) => playing && (outcome.Fulfilled? || kind == TrackRow)
  }

  lemma {:induction false} ShowsAppended(kind: Kind, playing: bool, queue: seq<Task<nat>>, more: seq<Task<nat>>)
    ensures Shows(kind, playing, queue + more) == Shows(kind, Shows(kind, playing, queue), more)
    decreases |queue|
  {
    if queue == [] {
      assert queue + more == more;
    } else {
      assert (queue + more)[1..] == queue[1..] + more;
      ShowsAppended(kind, ShownAfter(kind, playing, queue[0]), queue[1..], more);
    }
  }

  lemma {:induction false} ShowsSettlements(kind: Kind, playing: bool, tokens: seq<nat>, outcome: Outcome)
    ensures Shows(kind, playing, Settlements(tokens, outcome)) ==
            (playing && (tokens == [] || outcome.Fulfilled? || kind == TrackRow))
    decreases |tokens|
  {
    if tokens != [] {
      var all := Settlements(tokens, outcome);
      assert all[1..] == Settlements(tokens[1..], outcome);
      ShowsSettlements(kind, ShownAfter(kind, playing, all[0]), tokens[1..], outcome);
    }
  }

  /** A button that showed a pause at first shows it at the end unless something on the way starts. */
  lemma {:induction false} ShowsGrows(kind: Kind, queue: seq<Task<nat>>)
    ensures Shows(kind, false, queue) ==> Shows(kind, true, queue)
    decreases |queue|
  {
    if queue != [] {
      if ShownAfter(kind, false, queue[0]) == ShownAfter(kind, true, queue[0]) {
      } else {
        ShowsGrows(kind, queue[1..]);
      }
    }
  }

  function Shown(p: Preview): bool {
    Shows(p.kind, p.playing, p.audio.queue)
  }

  /**
   A paused element will be shown as paused. A running one will be shown as running unless it has reached the end, where
   it will still pause; `steady` says that it never failed and was never moved back from the end before it paused.
   */
  ghost predicate Followed(p: Preview, steady: bool) {
    && (p.audio.paused ==> !Shown(p) && p.audio.promises == [])
    && (!p.audio.paused && p.audio.atEnd ==> !Shown(p))
    && (steady ==> !p.audio.error && (!p.audio.paused && !p.audio.atEnd ==> Shown(p)))
  }

  /** The slider, used in the moment between the end of the media and the pause of the element there. */
  predicate OvertakesEnd(p: Preview, e: Event) {
    e.Seek? && !p.audio.paused && p.audio.atEnd
  }

  /** A media error, which ends playback without the element saying that it paused, or such a use of the slider. */
  predicate Unsettles(p: Preview, e: Event) {
    (e.MediaFails? && p.audio.src.Some?) || OvertakesEnd(p, e)
  }

  lemma PauseIsFollowed(kind: Kind, playing: bool, e: Element<nat>)
    ensures !e.paused ==> !Shows(kind, playing, Pause(e).queue)
    ensures !Shows(kind, playing, e.queue) ==> !Shows(kind, playing, Fail(e).queue)
    ensures e.src.Some? ==> !Shows(kind, playing, Fail(e).queue)
  {
    ShowsAppended(kind, playing, e.queue, [PauseEvent]);
    ShowsAppended(kind, playing, e.queue + [PauseEvent], Settlements(e.promises, Rejected(Aborted)));
    ShowsSettlements(kind, false, e.promises, Rejected(Aborted));
    ShowsAppended(kind, playing, e.queue, [ErrorEvent]);
    ShowsAppended(kind, playing, e.queue + [ErrorEvent], Settlements(e.promises, Rejected(NotSupported)));
    ShowsSettlements(kind, false, e.promises, Rejected(NotSupported));
    hide Settlements;
    assert Shows(kind, true, [PauseEvent]) == Shows(kind, false, [PauseEvent]) == false;
    assert Shows(kind, true, [ErrorEvent]) == Shows(kind, false, [ErrorEvent]) == false;
  }

  lemma StartIsFollowed(kind: Kind, playing: bool, e: Element<nat>, token: nat)
    ensures e.paused ==> Shows(kind, playing, Play(e, token).queue)
    ensures e.paused && e.src.Some? ==> Shows(kind, playing, SystemPlay(e).queue)
    ensures Shows(kind, playing, Ready(e).queue) == Shows(kind, playing, e.queue)
    ensures !e.paused ==> !Shows(kind, playing, ReachEnd(e).queue)
  {
    ShowsAppended(kind, playing, e.queue, [PlayEvent]);
    ShowsAppended(kind, playing, e.queue, [EndOfMedia]);
    ShowsAppended(kind, playing, e.queue, Settlements(e.promises, Fulfilled));
    ShowsSettlements(kind, Shows(kind, playing, e.queue), e.promises, Fulfilled);
    hide Settlements;
    assert Shows(kind, true, [PlayEvent]) == Shows(kind, false, [PlayEvent]) == true;
    assert Shows(kind, true, [EndOfMedia]) == Shows(kind, false, [EndOfMedia]) == false;
  }

  lemma PressIsFollowed(p: Preview, answer: Answer, steady: bool)
    requires Followed(p, steady)
    ensures Followed(Step(p, Press(answer)), steady)
  {
    PauseIsFollowed(p.kind, p.playing, p.audio);
    StartIsFollowed(p.kind, p.playing, p.audio, p.calls);
    ShowsGrows(p.kind, p.audio.queue);
    hide Shows, Settlements;
  }

  lemma EnvironmentIsFollowed(p: Preview, e: Event, steady: bool)
    requires Followed(p, steady) && !e.Press? && !e.Deliver?
    ensures Followed(Step(p, e), steady && !Unsettles(p, e))
  {
    PauseIsFollowed(p.kind, p.playing, p.audio);
    StartIsFollowed(p.kind, p.playing, p.audio, p.calls);
    hide Shows, Settlements;
  }

  lemma DeliveryIsFollowed(p: Preview, steady: bool)
    requires Followed(p, steady) && p.audio.queue != []
    ensures Followed(DeliverTask(p), steady)
  {
    DeliverEffect(p);
    DeliveryShows(p);
    var popped := Pop(p.audio);
    StoppedAtEndShows(p.kind, DeliverTask(p).playing, popped);
    hide DeliverTask, Shows, Settlements;
  }

  lemma DeliveryShows(p: Preview)
    requires p.audio.queue != []
    ensures DeliverTask(p).playing == ShownAfter(p.kind, p.playing, p.audio.queue[0])
  {
    hide StopAtEnd, Rewind, Pop, IntentionalAbort;
  }

  lemma StoppedAtEndShows(kind: Kind, playing: bool, e: Element<nat>)
    ensures !Shows(kind, playing, e.queue) ==> !Shows(kind, playing, StopAtEnd(e).queue)
  {
    ShowsAppended(kind, playing, e.queue, Settlements(e.promises, Rejected(Aborted)));
    ShowsSettlements(kind, Shows(kind, playing, e.queue), e.promises, Rejected(Aborted));
    hide Settlements, Shows;
  }

  lemma StepIsFollowed(p: Preview, e: Event, steady: bool)
    requires Followed(p, steady)
    ensures Followed(Step(p, e), steady && !Unsettles(p, e))
  {
    if e.Press? {
      PressIsFollowed(p, e.answer, steady);
    } else if e.Deliver? {
      if p.audio.queue != [] { DeliveryIsFollowed(p, steady); }
    } else {
      EnvironmentIsFollowed(p, e, steady);
    }
    hide Followed;
  }

  predicate Steady(p: Preview, events: seq<Event>)
    decreases |events|
  {
    events == [] || (!Unsettles(p, events[0]) && Steady(Step(p, events[0]), events[1..]))
  }

  lemma {:induction false} RunIsFollowed(p: Preview, events: seq<Event>, steady: bool)
    requires Followed(p, steady)
    ensures Followed(Run(p, events), steady && Steady(p, events))
    decreases |events|
  {
    if events != [] {
      StepIsFollowed(p, events[0], steady);
      hide Followed, Step, Unsettles;
      RunIsFollowed(Step(p, events[0]), events[1..], steady && !Unsettles(p, events[0]));
    }
  }

  /**
   Over every run of either player: once nothing is left to deliver, a button that offers a pause belongs to a running
   element, and the other way round unless the media failed or the slider overtook the end of the media.
   */
  lemma ButtonAgrees(kind: Kind, src: Option<Url>, events: seq<Event>)
    ensures var p := Run(Idle(kind, src), events);
            p.audio.queue == [] ==>
              && (p.playing ==> !p.audio.paused)
              && (Steady(Idle(kind, src), events) && !p.audio.paused ==> p.playing && !p.audio.atEnd)
  {
    RunIsFollowed(Idle(kind, src), events, true);
    hide Run, Steady, Step;
    var p := Run(Idle(kind, src), events);
    if p.audio.queue == [] {
      assert Shown(p) == p.playing;
    }
    AtEndIsQueued(kind, src, events);
  }

  /** An element that has run to its end has this end queued. */
  lemma {:induction false} AtEndIsQueued(kind: Kind, src: Option<Url>, events: seq<Event>)
    ensures var p := Run(Idle(kind, src), events); !p.audio.paused && p.audio.atEnd ==> EndOfMedia in p.audio.queue
  {
    EndStaysQueued(Idle(kind, src), events);
  }

  lemma EndIsStep(p: Preview, e: Event)
    requires !p.audio.paused && p.audio.atEnd ==> EndOfMedia in p.audio.queue
    ensures var t := Step(p, e); !t.audio.paused && t.audio.atEnd ==> EndOfMedia in t.audio.queue
  {
    if e.Deliver? {
      if p.audio.queue != [] {
        DeliverEffect(p);
        assert p.audio.queue == [p.audio.queue[0]] + Pop(p.audio).queue;
      }
    } else if e.MediaEnds? {
      assert !p.audio.paused ==> ReachEnd(p.audio).queue[|p.audio.queue|] == EndOfMedia;
    } else if e.MediaReady? || e.MediaFails? {
      assert p.audio.queue <= Ready(p.audio).queue && p.audio.queue <= Fail(p.audio).queue;
      assert EndOfMedia in p.audio.queue ==> EndOfMedia in Step(p, e).audio.queue;
    } else {
      OthersLeaveTheEnd(p, e);
      hide Step;
    }
    hide DeliverTask, Settlements;
  }

  /** Any other event starts or pauses the element, moves it back, or leaves it as it is. */
  lemma OthersLeaveTheEnd(p: Preview, e: Event)
    requires !e.Deliver? && !e.MediaEnds? && !e.MediaReady? && !e.MediaFails?
    ensures var t := Step(p, e); !t.audio.paused && t.audio.atEnd ==> t.audio == p.audio
  {
    hide Settlements, DeliverTask, IntentionalAbort, PressEnabled;
  }

  lemma {:induction false} EndStaysQueued(p: Preview, events: seq<Event>)
    requires !p.audio.paused && p.audio.atEnd ==> EndOfMedia in p.audio.queue
    ensures var r := Run(p, events); !r.audio.paused && r.audio.atEnd ==> EndOfMedia in r.audio.queue
    decreases |events|
  {
    if events != [] {
      EndIsStep(p, events[0]);
      hide Step;
      EndStaysQueued(Step(p, events[0]), events[1..]);
    }
  }

  /**
   The two exceptions are real: when one comes while a player runs, not at its end any more, the button offers a start
   once everything queued is delivered, and the element still runs.
   */
  lemma ExceptionsDisagree(kind: Kind, src: Option<Url>, events: seq<Event>, e: Event)
    requires Unsettles(Run(Idle(kind, src), events), e) && !Run(Idle(kind, src), events).audio.paused
    ensures var p := Step(Run(Idle(kind, src), events), e);
            var end := Run(p, Deliveries(|p.audio.queue|));
            !p.audio.atEnd ==> end.audio.queue == [] && !end.playing && !end.audio.paused
  {
    RunIsFollowed(Idle(kind, src), events, true);
    var before := Run(Idle(kind, src), events);
    PauseIsFollowed(before.kind, before.playing, before.audio);
    hide Run, Steady;
    var p := Step(before, e);
    assert !p.audio.paused && !Shown(p) by { hide Shows, Settlements; }
    if !p.audio.atEnd {
      RunningDelivery(p);
    }
  }

  /** An element that is not at its end runs on while its queue is delivered, and the button shows what the queue says. */
  lemma {:induction false} RunningDelivery(p: Preview)
    requires !p.audio.paused && !p.audio.atEnd
    ensures var end := Run(p, Deliveries(|p.audio.queue|));
            end.audio.queue == [] && !end.audio.paused && end.playing == Shown(p)
    decreases |p.audio.queue|
  {
    var queue := p.audio.queue;
    if queue != [] {
      var next := Step(p, Deliver);
      DeliverEffect(p);
      DeliveryShows(p);
      assert next == DeliverTask(p);
      hide Step, DeliverTask;
      assert next.audio.queue == queue[1..] && !next.audio.paused && !next.audio.atEnd && next.kind == p.kind;
      assert Deliveries(|queue|)[1..] == Deliveries(|queue| - 1);
      RunningDelivery(next);
    }
  }
}
