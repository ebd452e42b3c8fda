/** Choosing what an administrator cleans up (components/admin-cleanup-form.tsx). */
module AdminCleanup {
  import opened Prelude

  datatype Classification = DeleteSafe | ArchiveRequired | KeepActionRequired | HumanReview

  /** `key` joins the type and the id of a candidate. */
  datatype Candidate = Candidate(key: nat, kind: nat, classification: Classification, archived: bool)

  datatype Form = Form(selected: set<nat>, confirmed: bool)

  datatype Summary = Summary(deleted: nat, archived: nat, ignored: nat)

  predicate Selectable(c: Candidate) {
    !c.archived && (c.classification.DeleteSafe? || c.classification.ArchiveRequired?)
  }

  /** `candidates.find`. */
  function FindSelected(candidates: seq<Candidate>, selected: set<nat>): (found: Option<Candidate>)
    ensures found.Some? ==> found.value in candidates && found.value.key in selected
    ensures found.None? ==> forall c :: c in candidates ==> c.key !in selected
  {
    if candidates == [] then None
    else if candidates[0].key in selected then Some(candidates[0])
    else FindSelected(candidates[1..], selected)
  }

  /** The change of a checkbox; a disabled one, or one that is not shown, does not change. */
  function Toggle(candidates: seq<Candidate>, f: Form, index: nat, checked: bool): Form {
    if index >= |candidates| || !Selectable(candidates[index]) then f
    else
      var item := candidates[index];
      var found := if checked && f.selected != {} then FindSelected(candidates, f.selected) else None;
      var kept := if found.Some? && (found.value.kind != item.kind || found.value.classification != item.classification)
                  then {} else f.selected;
      Form(if checked then kept + {item.key} else kept - {item.key}, false)
  }

  function Confirm(f: Form, checked: bool): Form {
    if f.selected == {} then f else f.(confirmed := checked)
  }

  datatype Event = Toggles(index: nat, checked: bool) | Confirms(checked: bool)

  function Step(candidates: seq<Candidate>, f: Form, e: Event): Form {
    match e
    case Toggles(index, checked) => Toggle(candidates, f, index, checked)
    case Confirms(checked) => Confirm(f, checked)
  }

  function Run(candidates: seq<Candidate>, f: Form, events: seq<Event>): Form
    decreases |events|
  {
    if events == [] then f else Run(candidates, Step(candidates, f, events[0]), events[1..])
  }

  ghost predicate UniqueKeys(candidates: seq<Candidate>) {
    forall i, j :: 0 <= i < j < |candidates| ==> candidates[i].key != candidates[j].key
  }

  /** Only selectable candidates are selected, all of one type and one classification. */
  ghost predicate Homogeneous(candidates: seq<Candidate>, selected: set<nat>) {
    && (forall key :: key in selected ==> exists c :: c in candidates && c.key == key)
    && (forall c :: c in candidates && c.key in selected ==> Selectable(c))
    && (forall c, d :: c in candidates && d in candidates && c.key in selected && d.key in selected ==>
          c.kind == d.kind && c.classification == d.classification)
  }

  lemma SameKeySameCandidate(candidates: seq<Candidate>, c: Candidate, d: Candidate)
    requires UniqueKeys(candidates) && c in candidates && d in candidates && c.key == d.key
    ensures c == d
  {
  }

  lemma ToggleKeeps(candidates: seq<Candidate>, f: Form, index: nat, checked: bool)
    requires UniqueKeys(candidates) && Homogeneous(candidates, f.selected)
    ensures Homogeneous(candidates, Toggle(candidates, f, index, checked).selected)
  {
    var after := Toggle(candidates, f, index, checked).selected;
    if index < |candidates| && Selectable(candidates[index]) {
      var item := candidates[index];
      forall c | c in candidates && c.key in after
        ensures Selectable(c) && (checked ==> c.kind == item.kind && c.classification == item.classification)
      {
        if c.key == item.key {
          SameKeySameCandidate(candidates, c, item);
        }
      }
    }
  }

  /** Everything selected is of the type and the classification of the item. */
  predicate Fits(candidates: seq<Candidate>, selected: set<nat>, item: Candidate) {
    forall c :: c in candidates && c.key in selected ==> c.kind == item.kind && c.classification == item.classification
  }

  /**
   A ticked box adds its item to what is selected, or starts a new selection where it does not fit; an unticked one takes
   just its item out. Either withdraws the confirmation; a box that cannot be used changes nothing.
   */
  lemma BoxesSelect(candidates: seq<Candidate>, f: Form, index: nat, checked: bool)
    requires UniqueKeys(candidates) && Homogeneous(candidates, f.selected)
    ensures var after := Step(candidates, f, Toggles(index, checked));
            if index >= |candidates| || candidates[index].archived
               || !(candidates[index].classification.DeleteSafe? || candidates[index].classification.ArchiveRequired?)
            then after == f
            else
              var item := candidates[index];
              && !after.confirmed
              && (forall key :: key in after.selected <==>
                    if key == item.key then checked
                    else key in f.selected && (checked ==> Fits(candidates, f.selected, item)))
  {
    if index < |candidates| && checked {
      var item, found := candidates[index], FindSelected(candidates, f.selected);
      assert f.selected != {} ==> found.Some? by {
        if f.selected != {} {
          var key :| key in f.selected;
          assert exists c :: c in candidates && c.key == key;
        }
      }
      assert found.Some? ==> (Fits(candidates, f.selected, item) <==>
                                found.value.kind == item.kind && found.value.classification == item.classification);
    }
    hide UniqueKeys;
  }

  /** The confirmation follows its box for as long as anything is selected. */
  lemma BoxConfirms(candidates: seq<Candidate>, f: Form, checked: bool)
    ensures var after := Step(candidates, f, Confirms(checked));
            after.selected == f.selected && after.confirmed == (if f.selected == {} then f.confirmed else checked)
  {
  }

  /** Every reachable selection is homogeneous, and a confirmation stands only for a selection that is not empty. */
  lemma {:induction false} EverySelectionIsHomogeneous(candidates: seq<Candidate>, f: Form, events: seq<Event>)
    requires UniqueKeys(candidates) && Homogeneous(candidates, f.selected) && (f.confirmed ==> f.selected != {})
    ensures var r := Run(candidates, f, events);
            Homogeneous(candidates, r.selected) && (r.confirmed ==> r.selected != {})
    decreases |events|
  {
    if events != [] {
      if events[0].Toggles? {
        ToggleKeeps(candidates, f, events[0].index, events[0].checked);
      }
      hide Homogeneous, Toggle, UniqueKeys;
      EverySelectionIsHomogeneous(candidates, Step(candidates, f, events[0]), events[1..]);
    }
  }

  /** The selection at the last time the confirmation was ticked. */
  function LastConfirmed(candidates: seq<Candidate>, f: Form, before: set<nat>, events: seq<Event>): set<nat>
    decreases |events|
  {
    if events == [] then before
    else
      var next := Step(candidates, f, events[0]);
      LastConfirmed(candidates, next, if events[0].Confirms? && next.confirmed then f.selected else before, events[1..])
  }

  /** A standing confirmation is one of exactly the current selection. */
  lemma {:induction false} ConfirmationIsCurrent(candidates: seq<Candidate>, f: Form, before: set<nat>, events: seq<Event>)
    requires f.confirmed ==> f.selected == before
    ensures Run(candidates, f, events).confirmed ==>
              Run(candidates, f, events).selected == LastConfirmed(candidates, f, before, events)
    decreases |events|
  {
    if events != [] {
      var next := Step(candidates, f, events[0]);
      ConfirmationIsCurrent(candidates, next,
                            if events[0].Confirms? && next.confirmed then f.selected else before, events[1..]);
    }
  }

  // ----- the summary

  function Tally(candidates: seq<Candidate>, selected: set<nat>): Summary {
    if candidates == [] then Summary(0, 0, 0)
    else
      var c, s := candidates[|candidates| - 1], Tally(candidates[..|candidates| - 1], selected);
      if c.key !in selected then s
      else if c.classification.DeleteSafe? then s.(deleted := s.deleted + 1)
      else if c.classification.ArchiveRequired? then s.(archived := s.archived + 1)
      else s.(ignored := s.ignored + 1)
  }

  /** The loop that counts what the plan would do. */
  method Summarize(candidates: seq<Candidate>, selected: set<nat>) returns (summary: Summary)
    ensures summary == Tally(candidates, selected)
  {
    var deleted, archived, ignored := 0, 0, 0;
    for i := 0 to |candidates|
      invariant Summary(deleted, archived, ignored) == Tally(candidates[..i], selected)
    {
      assert candidates[..i + 1][..i] == candidates[..i];
      var item := candidates[i];
      if item.key !in selected { continue; }
      if item.classification.DeleteSafe? { deleted := deleted + 1; }
      else if item.classification.ArchiveRequired? { archived := archived + 1; }
      else { ignored := ignored + 1; }
    }
    assert candidates[..|candidates|] == candidates;
    return Summary(deleted, archived, ignored);
  }

  /** The selected keys that candidates have. */
  function Chosen(candidates: seq<Candidate>, selected: set<nat>): set<nat> {
    if candidates == [] then {}
    else
      var last := candidates[|candidates| - 1];
      Chosen(candidates[..|candidates| - 1], selected) + (if last.key in selected then {last.key} else {})
  }

  predicate HasKey(candidates: seq<Candidate>, key: nat) {
    exists i :: 0 <= i < |candidates| && candidates[i].key == key
  }

  lemma {:induction false} ChosenAreSelected(candidates: seq<Candidate>, selected: set<nat>, key: nat)
    ensures key in Chosen(candidates, selected) <==> key in selected && HasKey(candidates, key)
  {
    if candidates != [] {
      var front, last := candidates[..|candidates| - 1], candidates[|candidates| - 1];
      ChosenAreSelected(front, selected, key);
      assert HasKey(candidates, key) <==> HasKey(front, key) || last.key == key by {
        if HasKey(front, key) {
          var i :| 0 <= i < |front| && front[i].key == key;
          assert candidates[i].key == key;
        }
      }
    }
  }

  lemma {:induction false} TallyCountsTheSelection(candidates: seq<Candidate>, selected: set<nat>)
    requires UniqueKeys(candidates)
    ensures var s := Tally(candidates, selected);
            s.deleted + s.archived + s.ignored == |Chosen(candidates, selected)|
  {
    if candidates != [] {
      var front, last := candidates[..|candidates| - 1], candidates[|candidates| - 1];
      TallyCountsTheSelection(front, selected);
      ChosenAreSelected(front, selected, last.key);
      assert !HasKey(front, last.key);
    }
  }

  lemma {:induction false} TallyOfOneKind(candidates: seq<Candidate>, selected: set<nat>, classification: Classification)
    requires forall c :: c in candidates && c.key in selected ==> c.classification == classification
    ensures var s := Tally(candidates, selected);
            && (!classification.DeleteSafe? ==> s.deleted == 0)
            && (!classification.ArchiveRequired? ==> s.archived == 0)
            && (classification.DeleteSafe? || classification.ArchiveRequired? ==> s.ignored == 0)
  {
    if candidates != [] {
      assert forall c :: c in candidates[..|candidates| - 1] ==> c in candidates;
      TallyOfOneKind(candidates[..|candidates| - 1], selected, classification);
    }
  }

  /** The plan is one thing only: it deletes all of the selection, or archives all of it, and ignores nothing. */
  lemma PlanIsPure(candidates: seq<Candidate>, events: seq<Event>)
    requires UniqueKeys(candidates)
    ensures var selected := Run(candidates, Form({}, false), events).selected;
            || Tally(candidates, selected) == Summary(|selected|, 0, 0)
            || Tally(candidates, selected) == Summary(0, |selected|, 0)
  {
    EverySelectionIsHomogeneous(candidates, Form({}, false), events);
    var selected := Run(candidates, Form({}, false), events).selected;
    hide Run, Tally, UniqueKeys;
    TallyCountsTheSelection(candidates, selected);
    forall key ensures key in Chosen(candidates, selected) <==> key in selected {
      ChosenAreSelected(candidates, selected, key);
      assert key in selected ==> HasKey(candidates, key);
    }
    assert Chosen(candidates, selected) == selected;
    var found := FindSelected(candidates, selected);
    TallyOfOneKind(candidates, selected, if found.Some? then found.value.classification else DeleteSafe);
  }

  lemma {:induction false} TallyCountsEveryKind(candidates: seq<Candidate>, selected: set<nat>, c: Candidate)
    requires c in candidates && c.key in selected
    ensures var s := Tally(candidates, selected);
            && (c.classification.DeleteSafe? ==> s.deleted > 0)
            && (c.classification.ArchiveRequired? ==> s.archived > 0)
            && (!c.classification.DeleteSafe? && !c.classification.ArchiveRequired? ==> s.ignored > 0)
  {
    var front, last := candidates[..|candidates| - 1], candidates[|candidates| - 1];
    if c in front {
      TallyCountsEveryKind(front, selected, c);
    } else {
      assert candidates == front + [last];
      assert c == last;
    }
  }

  /** The plan deals with the whole selection in one way. */
  predicate PlansAll(candidates: seq<Candidate>, selected: set<nat>) {
    || Tally(candidates, selected) == Summary(|selected|, 0, 0)
    || Tally(candidates, selected) == Summary(0, |selected|, 0)
  }

  predicate AllAre(candidates: seq<Candidate>, selected: set<nat>, classification: Classification) {
    forall c :: c in candidates && c.key in selected ==> c.classification == classification
  }

  /**
   The page keeps a selection, and its confirmation, when the candidates change under it. Its plan is still one thing
   only if and only if every selected key is still there and all of them are deletable, or all of them archivable.
   */
  lemma RefreshedPlanExactly(refreshed: seq<Candidate>, selected: set<nat>)
    requires UniqueKeys(refreshed)
    ensures PlansAll(refreshed, selected) <==>
              && (forall key :: key in selected ==> HasKey(refreshed, key))
              && (AllAre(refreshed, selected, DeleteSafe) || AllAre(refreshed, selected, ArchiveRequired))
  {
    var chosen := Chosen(refreshed, selected);
    TallyCountsTheSelection(refreshed, selected);
    forall key ensures key in chosen <==> key in selected && HasKey(refreshed, key) {
      ChosenAreSelected(refreshed, selected, key);
    }
    assert chosen <= selected;
    hide Tally, Chosen, HasKey, UniqueKeys;
    if PlansAll(refreshed, selected) {
      assert |selected - chosen| == |selected| - |chosen|;
      assert chosen == selected;
      forall c | c in refreshed && c.key in selected
        ensures c.classification == if Tally(refreshed, selected).deleted > 0 then DeleteSafe else ArchiveRequired
      {
        TallyCountsEveryKind(refreshed, selected, c);
      }
    } else if forall key :: key in selected ==> HasKey(refreshed, key) {
      assert chosen == selected;
      if AllAre(refreshed, selected, DeleteSafe) { TallyOfOneKind(refreshed, selected, DeleteSafe); }
      if AllAre(refreshed, selected, ArchiveRequired) { TallyOfOneKind(refreshed, selected, ArchiveRequired); }
    }
  }

  /** The same over every run of the page: for any refreshed list, and what was selected on the one before. */
  lemma RefreshKeepsThePlanExactly(candidates: seq<Candidate>, events: seq<Event>, refreshed: seq<Candidate>)
    requires UniqueKeys(candidates) && UniqueKeys(refreshed)
    ensures var selected := Run(candidates, Form({}, false), events).selected;
            && PlansAll(candidates, selected)
            && (PlansAll(refreshed, selected) <==>
                  && (forall key :: key in selected ==> HasKey(refreshed, key))
                  && (AllAre(refreshed, selected, DeleteSafe) || AllAre(refreshed, selected, ArchiveRequired)))
  {
    PlanIsPure(candidates, events);
    RefreshedPlanExactly(refreshed, Run(candidates, Form({}, false), events).selected);
  }

  /** A pair of lists for which it fails: one of two deletable items has become one to archive. */
  lemma RefreshedCandidatesMix()
    ensures var before := [Candidate(1, 0, DeleteSafe, false), Candidate(2, 0, DeleteSafe, false)];
            var after := [Candidate(1, 0, DeleteSafe, false), Candidate(2, 0, ArchiveRequired, false)];
            var f := Run(before, Form({}, false), [Toggles(0, true), Toggles(1, true), Confirms(true)]);
            f.confirmed && !PlansAll(after, f.selected)
  {
    var before := [Candidate(1, 0, DeleteSafe, false), Candidate(2, 0, DeleteSafe, false)];
    var after := [Candidate(1, 0, DeleteSafe, false), Candidate(2, 0, ArchiveRequired, false)];
    var f1 := Step(before, Form({}, false), Toggles(0, true));
    var f2 := Step(before, f1, Toggles(1, true));
    assert f2.selected == {1, 2};
    assert Run(before, f2, [Confirms(true)]) == Form({1, 2}, true) by {
      assert Run(before, Form({1, 2}, true), []) == Form({1, 2}, true);
    }
    assert after[0].key in f2.selected && after[1].key in f2.selected;
    assert !AllAre(after, f2.selected, DeleteSafe) && !AllAre(after, f2.selected, ArchiveRequired);
    RefreshedPlanExactly(after, f2.selected);
    hide Tally, PlansAll;
  }
}
