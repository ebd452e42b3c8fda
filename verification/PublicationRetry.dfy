/**
 When an uncertain publication can be retried: the confirmation panel (components/music-express.tsx with
 components/express-publication-confirmation.tsx) beside the other controls of the page.
 */
module PublicationRetry {
  import opened IdempotentSubmission

  datatype Panel = Panel(inFlight: bool, reviewing: bool, confirmed: bool, attempt: bool, unsavedDraft: bool, blockers: nat)

  datatype Control =
    | Edits
    | Reviews
    | Confirms(yes: bool)
    | Publishes
    | Published(outcome: Outcome, blockersAfter: nat)
    | RefreshesFiles(blockersAfter: nat)
    | CreditsArtist(blockersAfter: nat)
    | ProjectReplaced(blockersAfter: nat)

  predicate PublishEnabled(p: Panel) {
    !p.inFlight && p.reviewing && p.confirmed && p.blockers == 0
  }

  /** One use of a control that the page has enabled; a disabled one does nothing. Recovery is over. */
  function Use(p: Panel, c: Control): Panel {
    match c
    case Edits => if p.inFlight || p.attempt || p.unsavedDraft then p else p.(reviewing := false, confirmed := false)
    case Reviews => if p.inFlight || p.attempt || p.unsavedDraft then p else p.(reviewing := true, confirmed := false)
    case Confirms(yes) =>
      if p.inFlight || p.attempt || !p.reviewing || p.blockers != 0 then p else p.(confirmed := yes)
    case Publishes => if PublishEnabled(p) then p.(inFlight := true) else p
    case Published(outcome, blockersAfter) =>
      if !p.inFlight then p
      else if outcome.Success? then
        p.(inFlight := false, confirmed := false, attempt := false, reviewing := false, blockers := blockersAfter)
      else if outcome.Refusal? then p.(inFlight := false, attempt := false, confirmed := false)
      else p.(inFlight := false, attempt := true)
    case RefreshesFiles(blockersAfter) => p.(reviewing := false, confirmed := false, blockers := blockersAfter)
    case CreditsArtist(blockersAfter) => if p.inFlight then p else p.(reviewing := false, blockers := blockersAfter)
    case ProjectReplaced(blockersAfter) => p.(blockers := blockersAfter)
  }

  function UseAll(p: Panel, controls: seq<Control>): Panel
    decreases |controls|
  {
    if controls == [] then p else UseAll(Use(p, controls[0]), controls[1..])
  }

  /** The attempt is kept, but the panel that retries it is closed or unchecked. */
  predicate Stranded(p: Panel) {
    p.attempt && !p.inFlight && !(p.reviewing && p.confirmed)
  }

  /** Nothing on the page brings the retry of a stranded attempt back, nor gives the attempt up: only a reload does. */
  lemma {:induction false} StrandedForever(p: Panel, controls: seq<Control>)
    requires Stranded(p)
    ensures Stranded(UseAll(p, controls)) && !PublishEnabled(UseAll(p, controls))
    decreases |controls|
  {
    if controls != [] {
      StrandedForever(Use(p, controls[0]), controls[1..]);
    }
  }

  /** Controls with which the panel can be opened and confirmed, if it can. */
  function WayToPublish(p: Panel): seq<Control> {
    if p.attempt then [ProjectReplaced(0)]
    else if p.reviewing then [ProjectReplaced(0), Confirms(true)]
    else [ProjectReplaced(0), Reviews, Confirms(true)]
  }

  /**
   With no request in flight a publication can be brought about, once its blockers are dealt with, exactly when the
   attempt that is kept has its panel open and checked, or none is kept and the panel is open or no draft is uncertain.
   */
  lemma PublishableExactly(p: Panel)
    requires !p.inFlight
    ensures (exists controls :: PublishEnabled(UseAll(p, controls)) && Unpublished(controls)) <==>
              if p.attempt then p.reviewing && p.confirmed else p.reviewing || !p.unsavedDraft
  {
    if if p.attempt then p.reviewing && p.confirmed else p.reviewing || !p.unsavedDraft {
      var way := WayToPublish(p);
      assert way[1..] == if p.attempt then [] else if p.reviewing then [Confirms(true)] else [Reviews, Confirms(true)];
      assert [Reviews, Confirms(true)][1..] == [Confirms(true)] && [Confirms(true)][1..] == [];
      assert PublishEnabled(UseAll(p, way)) && Unpublished(way) by {
        var first := Use(p, way[0]);
        if !p.attempt {
          var second := Use(first, way[1]);
          assert UseAll(first, way[1..]) == UseAll(second, way[1..][1..]);
          assert !p.reviewing ==> UseAll(second, [Confirms(true)]) == UseAll(Use(second, Confirms(true)), []);
        }
      }
    } else {
      forall controls | Unpublished(controls) ensures !PublishEnabled(UseAll(p, controls)) {
        ClosedForGood(p, controls);
      }
    }
  }

  predicate Unpublished(controls: seq<Control>) {
    forall i :: 0 <= i < |controls| ==> !controls[i].Publishes? && !controls[i].Published?
  }

  lemma {:induction false} ClosedForGood(p: Panel, controls: seq<Control>)
    requires !p.inFlight && Unpublished(controls)
    requires if p.attempt then !(p.reviewing && p.confirmed) else !p.reviewing && p.unsavedDraft
    ensures !PublishEnabled(UseAll(p, controls))
    decreases |controls|
  {
    if controls != [] {
      assert !controls[0].Publishes? && !controls[0].Published? && Unpublished(controls[1..]);
      ClosedForGood(Use(p, controls[0]), controls[1..]);
    }
  }

  /**
   What the other controls do: an edit and a review are locked by anything unresolved and otherwise close or open the
   panel, unchecked; the checkbox is locked by an attempt, which also stands for its confirmation; a refresh of the files
   is never locked, and closes the panel.
   */
  lemma ControlsAct(p: Panel, yes: bool, blockersAfter: nat)
    ensures var free := !p.inFlight && !p.attempt && !p.unsavedDraft;
            && Use(p, Control.Edits) == Panel(p.inFlight, p.reviewing && !free, p.confirmed && !free, p.attempt, p.unsavedDraft,
                                      p.blockers)
            && Use(p, Reviews) == Panel(p.inFlight, p.reviewing || free, p.confirmed && !free, p.attempt, p.unsavedDraft,
                                        p.blockers)
    ensures var usable := !p.inFlight && !p.attempt && p.reviewing && p.blockers == 0;
            Use(p, Confirms(yes)) == Panel(p.inFlight, p.reviewing, if usable then yes else p.confirmed, p.attempt,
                                           p.unsavedDraft, p.blockers)
    ensures Use(p, RefreshesFiles(blockersAfter)) ==
            Panel(p.inFlight, false, false, p.attempt, p.unsavedDraft, blockersAfter)
    ensures Use(p, CreditsArtist(blockersAfter)) ==
            if p.inFlight then p else Panel(false, false, p.confirmed, p.attempt, p.unsavedDraft, blockersAfter)
    ensures Use(p, Publishes) == Panel(p.inFlight || PublishEnabled(p), p.reviewing, p.confirmed, p.attempt,
                                       p.unsavedDraft, p.blockers)
  {
  }

  /** What each outcome leaves: a success or a refusal gives the attempt up, a failure keeps it with its panel. */
  lemma OutcomesSettle(p: Panel, outcome: Outcome, blockersAfter: nat)
    requires p.inFlight
    ensures var after := Use(p, Published(outcome, blockersAfter));
            && !after.inFlight && after.unsavedDraft == p.unsavedDraft
            && (after.attempt <==> outcome.Failure?)
            && (after.confirmed <==> outcome.Failure? && p.confirmed)
            && (after.reviewing <==> !outcome.Success? && p.reviewing)
            && after.blockers == (if outcome.Success? then blockersAfter else p.blockers)
  {
  }

  predicate ClosesPanel(c: Control) {
    c.RefreshesFiles? || c.CreditsArtist?
  }

  predicate ClosedAmong(controls: seq<Control>) {
    controls != [] && (ClosesPanel(controls[0]) || ClosedAmong(controls[1..]))
  }

  predicate Quiet(controls: seq<Control>) {
    forall i :: 0 <= i < |controls| ==> !controls[i].Publishes?
  }

  /**
   After a publication of unknown outcome, and until it is retried, the promised retry is possible exactly when the panel
   was still open and confirmed when the answer came, no refresh of the files and no artist credit has closed it since,
   and no blocker has appeared. Without the first two the attempt is stranded.
   */
  lemma RetryPossibleExactly(p: Panel, outcome: Outcome, controls: seq<Control>)
    requires p.inFlight && outcome.Failure? && Quiet(controls)
    ensures var after := UseAll(Use(p, Published(outcome, p.blockers)), controls);
            && after.attempt
            && (PublishEnabled(after) <==>
                  p.reviewing && p.confirmed && !ClosedAmong(controls) && after.blockers == 0)
            && (Stranded(after) <==> !(p.reviewing && p.confirmed) || ClosedAmong(controls))
  {
    var uncertain := Use(p, Published(outcome, p.blockers));
    if p.reviewing && p.confirmed {
      KeptOpen(uncertain, controls);
    } else {
      StrandedForever(uncertain, controls);
    }
  }

  /** The answer to the publication is not among these. */
  predicate Awaits(controls: seq<Control>) {
    forall i :: 0 <= i < |controls| ==> !controls[i].Published?
  }

  predicate RefreshedAmong(controls: seq<Control>) {
    controls != [] && (controls[0].RefreshesFiles? || RefreshedAmong(controls[1..]))
  }

  /** The whole flight: from the press that publishes to any moment before the retry, only these two closings matter. */
  lemma FlightRetryExactly(p: Panel, during: seq<Control>, outcome: Outcome, controls: seq<Control>)
    requires PublishEnabled(p) && Awaits(during) && outcome.Failure? && Quiet(controls)
    ensures var flying := UseAll(Use(p, Publishes), during);
            var after := UseAll(Use(flying, Published(outcome, flying.blockers)), controls);
            && (PublishEnabled(after) <==>
                  !RefreshedAmong(during) && !ClosedAmong(controls) && after.blockers == 0)
            && (Stranded(after) <==> RefreshedAmong(during) || ClosedAmong(controls))
  {
    FlightKeepsOpen(Use(p, Publishes), during);
    RetryPossibleExactly(UseAll(Use(p, Publishes), during), outcome, controls);
  }

  /** While the publication is in flight every other control is disabled; the refresh of the files is not. */
  lemma {:induction false} FlightKeepsOpen(p: Panel, during: seq<Control>)
    requires p.inFlight && Awaits(during)
    ensures var after := UseAll(p, during);
            && after.inFlight
            && (after.reviewing && after.confirmed <==> p.reviewing && p.confirmed && !RefreshedAmong(during))
    decreases |during|
  {
    if during != [] {
      assert !during[0].Published? && Awaits(during[1..]);
      FlightKeepsOpen(Use(p, during[0]), during[1..]);
    }
  }

  lemma {:induction false} KeptOpen(p: Panel, controls: seq<Control>)
    requires p.attempt && !p.inFlight && p.reviewing && p.confirmed && Quiet(controls)
    ensures var after := UseAll(p, controls);
            && after.attempt && !after.inFlight
            && (after.reviewing && after.confirmed <==> !ClosedAmong(controls))
    decreases |controls|
  {
    if controls != [] {
      var next := Use(p, controls[0]);
      assert !controls[0].Publishes? && Quiet(controls[1..]);
      if ClosesPanel(controls[0]) {
        StrandedForever(next, controls[1..]);
      } else {
        KeptOpen(next, controls[1..]);
      }
    }
  }
}
