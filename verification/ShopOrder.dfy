/**
 Preparing a shop order (components/shop-cart.tsx) against the server that creates it (lib/shop/order-service.ts): the
 key lives in session storage, apart from the order it was first used for.
 */
module ShopOrder {
  import opened Prelude

  /** What the server fingerprints: the items with their observed versions, the address and the version of the quote. */
  datatype Intent = Intent(items: nat, address: nat, quote: nat)

  datatype Message = Message(key: nat, intent: Intent)
  datatype Answer = Created | Conflict | Refused

  datatype World = World(
    stored: Option<nat>,
    shown: Intent,
    hasLines: bool,
    busy: bool,
    awaited: nat,
    minted: nat,
    copies: seq<Message>,
    transit: set<nat>,
    answers: map<nat, Answer>,
    orders: map<nat, Intent>,
    created: seq<nat>,
    acknowledged: set<nat>)

  /** `Retires` is the button that takes a line away, and `Requotes` a new quote or product version: no form change. */
  datatype Event =
    | ChangesForm(changed: Intent)
    | Retires(kept: Intent, left: bool)
    | Requotes(quote: nat)
    | FillsCart(filled: Intent)
    | Submits
    | Reaches(copy: nat, accepted: bool, fails: bool)
    | Vanishes(copy: nat)
    | Receives
    | Loses

  /** The server looks the key up first, then compares fingerprints; only an unknown key goes through the other checks. */
  function Handle(w: World, copy: nat, accepted: bool, fails: bool): World
    requires copy < |w.copies|
  {
    var m, arrived := w.copies[copy], w.(transit := w.transit - {copy});
    if m.key in w.orders then
      arrived.(answers := if fails then w.answers
                          else w.answers[copy := if w.orders[m.key] == m.intent then Created else Conflict])
    else if !accepted then arrived.(answers := if fails then w.answers else w.answers[copy := Refused])
    else arrived.(orders := w.orders[m.key := m.intent], created := w.created + [m.key],
                  answers := if fails then w.answers else w.answers[copy := Created])
  }

  function Submit(w: World): World {
    if w.busy || !w.hasLines then w
    else
      var key := if w.stored.Some? then w.stored.value else w.minted;
      w.(stored := Some(key), minted := if w.stored.Some? then w.minted else w.minted + 1, busy := true,
         awaited := |w.copies|, copies := w.copies + [Message(key, w.shown)], transit := w.transit + {|w.copies|})
  }

  function Receive(w: World): World {
    if !w.busy || w.awaited !in w.answers || w.awaited >= |w.copies| then w
    else
      match w.answers[w.awaited]
      case Created =>
        w.(busy := false, stored := None, hasLines := false, acknowledged := w.acknowledged + {w.copies[w.awaited].key})
      case Conflict => w.(busy := false, stored := None)
      case Refused => w.(busy := false)
  }

  function Step(w: World, e: Event): World {
    match e
    case ChangesForm(changed) => if w.hasLines then w.(stored := None, shown := changed) else w
    case Retires(kept, left) => if w.hasLines then w.(shown := kept, hasLines := left) else w
    case Requotes(quote) => w.(shown := w.shown.(quote := quote))
    case FillsCart(filled) => if w.hasLines then w else w.(shown := filled, hasLines := true)
    case Submits => Submit(w)
    case Reaches(copy, accepted, fails) =>
      if copy in w.transit && copy < |w.copies| then Handle(w, copy, accepted, fails) else w
    case Vanishes(copy) => w.(transit := w.transit - {copy})
    case Receives => Receive(w)
    case Loses => w.(busy := false)
  }

  function Run(w: World, events: seq<Event>): World
    decreases |events|
  {
    if events == [] then w else Run(Step(w, events[0]), events[1..])
  }

  function Opened(shown: Intent): World {
    World(None, shown, true, false, 0, 0, [], {}, map[], map[], [], {})
  }

  // ----- the server side, for every run

  ghost predicate NetworkSound(w: World) {
    && (forall i :: 0 <= i < |w.copies| ==> w.copies[i].key < w.minted)
    && (w.stored.Some? ==> w.stored.value < w.minted)
    && (forall key :: key in w.orders ==> key < w.minted)
    && (forall key :: key in w.created <==> key in w.orders) && Distinct(w.created)
    && (forall i :: i in w.answers && w.answers[i].Created? ==> i < |w.copies| && w.copies[i].key in w.orders)
    && (forall key :: key in w.acknowledged ==> key in w.orders)
  }

  lemma HandleKeeps(w: World, copy: nat, accepted: bool, fails: bool)
    requires NetworkSound(w) && copy < |w.copies|
    ensures NetworkSound(Handle(w, copy, accepted, fails))
  {
    var after, key := Handle(w, copy, accepted, fails), w.copies[copy].key;
    if after.created != w.created {
      CreatedStaysDistinct(w.created, key);
      hide Distinct;
      assert forall k :: k in after.created <==> k in w.created || k == key;
    }
  }

  lemma CreatedStaysDistinct(created: seq<nat>, key: nat)
    requires Distinct(created) && key !in created
    ensures Distinct(created + [key])
  {
  }

  lemma SubmitKeeps(w: World)
    requires NetworkSound(w)
    ensures NetworkSound(Submit(w))
  {
    hide Distinct;
    var after := Submit(w);
    assert forall i :: 0 <= i < |w.copies| ==> after.copies[i] == w.copies[i];
  }

  lemma NetworkStaysSound(w: World, e: Event)
    requires NetworkSound(w)
    ensures NetworkSound(Step(w, e))
  {
    if e.Submits? {
      SubmitKeeps(w);
    } else if e.Reaches? {
      if e.copy in w.transit && e.copy < |w.copies| {
        HandleKeeps(w, e.copy, e.accepted, e.fails);
        hide Handle, NetworkSound;
      }
    } else {
      hide Distinct;
    }
  }

  lemma {:induction false} RunStaysSound(w: World, events: seq<Event>)
    requires NetworkSound(w)
    ensures NetworkSound(Run(w, events))
    decreases |events|
  {
    if events != [] {
      NetworkStaysSound(w, events[0]);
      hide NetworkSound, Step;
      RunStaysSound(Step(w, events[0]), events[1..]);
    }
  }

  // ----- at most one order per acknowledged purchase

  /** The stored key has made an order the page does not know of, or a request under it is on its way. */
  ghost predicate Unresolved(w: World) {
    w.stored.Some? && (w.stored.value in w.orders || Travels(w))
  }

  ghost predicate Travels(w: World) {
    w.stored.Some? && exists i :: i in w.transit && i < |w.copies| && w.copies[i].key == w.stored.value
  }

  predicate ChangesOrder(e: Event) {
    e.ChangesForm? || e.Retires? || e.Requotes?
  }

  /** The order really changes, or its key is dropped, while an earlier request may have made it. */
  ghost predicate Disturbs(w: World, e: Event) {
    ChangesOrder(e) && Unresolved(w) && Step(w, e) != w
  }

  ghost predicate Steady(w: World, events: seq<Event>)
    decreases |events|
  {
    events == [] || (!Disturbs(w, events[0]) && Steady(Step(w, events[0]), events[1..]))
  }

  /** What is on its way repeats the order that its key has made, or will make the one shown under the stored key. */
  ghost predicate CopiesRepeat(w: World) {
    && (forall i :: i in w.transit && i < |w.copies| ==>
          if w.copies[i].key in w.orders then w.copies[i].intent == w.orders[w.copies[i].key]
          else w.stored == Some(w.copies[i].key) && w.copies[i].intent == w.shown)
    && (forall i :: i in w.answers ==> !w.answers[i].Conflict?)
  }

  ghost predicate OrdersKnown(w: World) {
    && (forall key :: key in w.orders ==> key in w.acknowledged || w.stored == Some(key))
    && (w.stored.Some? && w.stored.value in w.orders ==> w.orders[w.stored.value] == w.shown)
    && (w.stored.Some? ==> w.stored.value !in w.acknowledged)
    && (!w.hasLines ==> !Unresolved(w))
    && (w.busy ==> w.awaited < |w.copies|
                   && (w.copies[w.awaited].key in w.orders ==> w.stored == Some(w.copies[w.awaited].key)))
  }

  ghost predicate Inv(w: World) {
    NetworkSound(w) && CopiesRepeat(w) && OrdersKnown(w)
  }

  lemma ChangeIsHarmless(w: World, e: Event)
    requires Inv(w) && (ChangesOrder(e) || e.FillsCart?) && !Disturbs(w, e)
    ensures CopiesRepeat(Step(w, e)) && OrdersKnown(Step(w, e))
  {
    hide NetworkSound;
    var after := Step(w, e);
    if after != w {
      assert !Unresolved(w);
      forall i | i in w.transit && i < |w.copies| ensures w.copies[i].key in w.orders {
        assert w.copies[i].key !in w.orders ==> Travels(w);
      }
    }
  }

  lemma SubmitIsRepeat(w: World)
    requires Inv(w)
    ensures CopiesRepeat(Submit(w)) && OrdersKnown(Submit(w))
  {
    var after := Submit(w);
    assert forall i :: 0 <= i < |w.copies| ==> after.copies[i] == w.copies[i];
    hide Distinct, Unresolved;
  }

  lemma HandleIsRepeat(w: World, copy: nat, accepted: bool, fails: bool)
    requires Inv(w) && copy in w.transit && copy < |w.copies|
    ensures CopiesRepeat(Handle(w, copy, accepted, fails)) && OrdersKnown(Handle(w, copy, accepted, fails))
  {
    hide NetworkSound;
    assert w.copies[copy].key !in w.orders ==> Travels(w);
  }

  lemma AnswerIsRepeat(w: World, e: Event)
    requires Inv(w) && (e.Receives? || e.Loses? || e.Vanishes?)
    ensures CopiesRepeat(Step(w, e)) && OrdersKnown(Step(w, e))
  {
    hide Distinct;
    if e.Receives? && Receive(w) != w && w.answers[w.awaited].Created? {
      assert w.copies[w.awaited].key in w.orders;
      CreatedResolves(w);
    }
  }

  /** An order that is answered was made for the stored key, or the form has dropped that key meanwhile. */
  lemma CreatedResolves(w: World)
    requires Inv(w) && w.busy && w.awaited in w.answers && w.awaited < |w.copies| && w.answers[w.awaited].Created?
    ensures CopiesRepeat(Receive(w)) && OrdersKnown(Receive(w))
  {
  }

  lemma StepKeeps(w: World, e: Event)
    requires Inv(w) && !Disturbs(w, e)
    ensures Inv(Step(w, e))
  {
    NetworkStaysSound(w, e);
    if ChangesOrder(e) || e.FillsCart? {
      ChangeIsHarmless(w, e);
    } else if e.Submits? {
      SubmitIsRepeat(w);
      hide Submit;
    } else if e.Reaches? {
      if e.copy in w.transit && e.copy < |w.copies| {
        HandleIsRepeat(w, e.copy, e.accepted, e.fails);
      }
      hide Handle;
    } else {
      AnswerIsRepeat(w, e);
    }
    hide NetworkSound, CopiesRepeat, OrdersKnown, Unresolved, Receive;
  }

  lemma {:induction false} RunKeeps(w: World, events: seq<Event>)
    requires Inv(w) && Steady(w, events)
    ensures Inv(Run(w, events))
    decreases |events|
  {
    if events != [] {
      StepKeeps(w, events[0]);
      hide Inv, Step, Disturbs;
      RunKeeps(Step(w, events[0]), events[1..]);
    }
  }

  /**
   In every run where the order is left as it is while an earlier request may have made one, each purchase the buyer was
   told of made one order, at most one more exists, and the key for it is still stored: retrying finds it again.
   */
  lemma OneOrderPerPurchase(shown: Intent, events: seq<Event>)
    requires Steady(Opened(shown), events)
    ensures var w := Run(Opened(shown), events);
            && Distinct(w.created) && |w.created| <= |w.acknowledged| + 1
            && (forall key :: key in w.created ==> key in w.acknowledged || w.stored == Some(key))
            && (w.stored.None? ==> |w.created| <= |w.acknowledged|)
            && (forall i :: i in w.answers ==> !w.answers[i].Conflict?)
  {
    RunKeeps(Opened(shown), events);
    var w := Run(Opened(shown), events);
    hide Run, Steady;
    if w.stored.Some? {
      DistinctFits(w.created, w.acknowledged + {w.stored.value});
      assert |w.acknowledged + {w.stored.value}| <= |w.acknowledged| + 1;
    } else {
      DistinctFits(w.created, w.acknowledged);
    }
  }

  /** A retry of the order that a known key has made creates nothing and is answered with that order. */
  lemma RetryFindsTheOrder(w: World, accepted: bool)
    requires NetworkSound(w) && !w.busy && w.hasLines && w.stored.Some? && w.stored.value in w.orders
    requires w.orders[w.stored.value] == w.shown
    ensures var after := Step(Step(Step(w, Submits), Reaches(|w.copies|, accepted, false)), Receives);
            after.created == w.created && after.stored.None? && w.stored.value in after.acknowledged && !after.hasLines
  {
  }

  /** After a lost answer, any change of the form lets the very next submission order again. */
  lemma FormChangeOrdersAgain(w: World, changed: Intent)
    requires NetworkSound(w) && !w.busy && w.hasLines && w.stored.Some? && w.stored.value in w.orders
    ensures var after := Step(Step(Step(w, ChangesForm(changed)), Submits), Reaches(|w.copies|, true, false));
            after.created == w.created + [w.minted] && after.acknowledged == w.acknowledged
  {
  }

  /**
   And for what changes without the form: the next submission meets a conflict, creates nothing and drops the key, and
   only the one after it orders again.
   */
  lemma RetiringConflictsThenOrdersAgain(w: World, kept: Intent)
    requires NetworkSound(w) && !w.busy && w.hasLines && w.stored.Some? && w.stored.value in w.orders
    requires w.orders[w.stored.value] != kept
    ensures var sent := Step(Step(w, Retires(kept, true)), Submits);
            var conflicted := Step(Step(sent, Reaches(|w.copies|, true, false)), Receives);
            var after := Step(Step(conflicted, Submits), Reaches(|conflicted.copies|, true, false));
            && conflicted.created == w.created && conflicted.stored.None? && conflicted.acknowledged == w.acknowledged
            && after.created == w.created + [w.minted] && after.acknowledged == w.acknowledged
  {
    var retired := Step(w, Retires(kept, true));
    assert NetworkSound(retired);
    OtherIntentConflicts(retired);
  }

  lemma OtherIntentConflicts(w: World)
    requires NetworkSound(w) && !w.busy && w.hasLines && w.stored.Some? && w.stored.value in w.orders
    requires w.orders[w.stored.value] != w.shown
    ensures var conflicted := Step(Step(Step(w, Submits), Reaches(|w.copies|, true, false)), Receives);
            var after := Step(Step(conflicted, Submits), Reaches(|conflicted.copies|, true, false));
            && |conflicted.copies| == |w.copies| + 1
            && conflicted.created == w.created && conflicted.stored.None? && conflicted.acknowledged == w.acknowledged
            && after.created == w.created + [w.minted] && after.acknowledged == w.acknowledged
  {
    var answered := Step(Step(w, Submits), Reaches(|w.copies|, true, false));
    assert answered.answers[|w.copies|] == Conflict && answered.created == w.created;
    var conflicted := Step(answered, Receives);
    assert conflicted.stored.None? && conflicted.minted == w.minted && conflicted.orders == w.orders;
    FreshKeyOrders(conflicted);
  }

  lemma FreshKeyOrders(w: World)
    requires !w.busy && w.hasLines && w.stored.None? && w.minted !in w.orders
    ensures var after := Step(Step(w, Submits), Reaches(|w.copies|, true, false));
            after.created == w.created + [w.minted] && after.acknowledged == w.acknowledged
  {
  }

  /** What a submission sends is the order as it is shown, with every change made to it before, under the stored key. */
  lemma SubmissionSendsTheShown(w: World)
    ensures var after := Step(w, Submits);
            if w.busy || !w.hasLines then after == w
            else
              && |after.copies| == |w.copies| + 1 && after.copies[..|w.copies|] == w.copies
              && after.copies[|w.copies|].intent == w.shown && Some(after.copies[|w.copies|].key) == after.stored
              && after.stored == (if w.stored.Some? then w.stored else Some(w.minted))
              && after.busy && after.awaited == |w.copies| && |w.copies| in after.transit && after.shown == w.shown
    ensures forall changed :: if w.hasLines then Step(w, ChangesForm(changed)).shown == changed
                              else Step(w, ChangesForm(changed)) == w
    ensures forall kept, left :: if w.hasLines then Step(w, Retires(kept, left)).shown == kept
                                                    && Step(w, Retires(kept, left)).hasLines == left
                                 else Step(w, Retires(kept, left)) == w
    ensures forall quote :: Step(w, Requotes(quote)).shown == Intent(w.shown.items, w.shown.address, quote)
    ensures forall filled :: !w.hasLines ==> Step(w, FillsCart(filled)).shown == filled && Step(w, FillsCart(filled)).hasLines
  {
  }

  /** What the server answers to a request that it does not lose: the key decides first, then the other checks. */
  predicate Answers(w: World, m: Message, accepted: bool, answer: Answer) {
    match answer
    case Created => if m.key in w.orders then w.orders[m.key] == m.intent else accepted
    case Conflict => m.key in w.orders && w.orders[m.key] != m.intent
    case Refused => m.key !in w.orders && !accepted
  }

  /** A request that arrives makes an order exactly for a new key that is accepted, and is answered unless that fails. */
  lemma RequestIsHandled(w: World, copy: nat, accepted: bool, fails: bool)
    requires copy in w.transit && copy < |w.copies|
    ensures var after, m := Step(w, Reaches(copy, accepted, fails)), w.copies[copy];
            var makes := accepted && m.key !in w.orders;
            && after == w.(transit := w.transit - {copy}, answers := after.answers, orders := after.orders,
                           created := after.created)
            && after.orders == (if makes then w.orders[m.key := m.intent] else w.orders)
            && after.created == (if makes then w.created + [m.key] else w.created)
            && (fails ==> after.answers == w.answers)
            && (!fails ==> copy in after.answers && after.answers == w.answers[copy := after.answers[copy]]
                           && Answers(w, m, accepted, after.answers[copy]))
    ensures Step(w, Vanishes(copy)) == w.(transit := w.transit - {copy})
  {
  }

  /** An answer frees the page; only one that did not come through keeps the key, and only an order empties the cart. */
  lemma AnswerIsTaken(w: World)
    requires w.busy && w.awaited in w.answers && w.awaited < |w.copies|
    ensures var after, answer := Step(w, Receives), w.answers[w.awaited];
            && !after.busy && after.stored == (if answer.Refused? then w.stored else None)
            && (after.hasLines <==> w.hasLines && !answer.Created?)
            && after.acknowledged == (if answer.Created? then w.acknowledged + {w.copies[w.awaited].key} else w.acknowledged)
            && after.copies == w.copies && after.orders == w.orders && after.created == w.created && after.shown == w.shown
    ensures Step(w, Loses) == w.(busy := false)
  {
  }

  /** A first submission that is accepted and answered makes the order shown and acknowledges it; the cart is emptied. */
  lemma PurchaseCompletes(w: World)
    requires NetworkSound(w) && !w.busy && w.hasLines && w.stored.None?
    ensures var done := Step(Step(Step(w, Submits), Reaches(|w.copies|, true, false)), Receives);
            && done.created == w.created + [w.minted] && w.minted in done.orders && done.orders[w.minted] == w.shown
            && done.acknowledged == w.acknowledged + {w.minted} && done.stored.None? && !done.hasLines && !done.busy
  {
    hide Distinct;
  }

  // ----- the condition is exact

  /** Two orders that the buyer was never told of. */
  ghost predicate OrderedTwice(w: World) {
    exists a, b :: a in w.created && b in w.created && a != b && a !in w.acknowledged && b !in w.acknowledged
  }

  /** From here on the buyer changes nothing of what is ordered; an emptied cart may be filled for the next purchase. */
  predicate Quiet(events: seq<Event>) {
    forall i :: 0 <= i < |events| ==> !ChangesOrder(events[i])
  }

  ghost predicate CanOrderTwice(w: World) {
    exists events :: Quiet(events) && OrderedTwice(Run(w, events))
  }

  /**
   In any state that a steady run can reach: one more event makes two unacknowledged orders possible, without a further
   change by the buyer, if and only if it disturbs an unresolved order, by the form, by a button or by a new quote.
   */
  lemma OrderedTwiceExactly(w: World, e: Event)
    requires Inv(w)
    ensures CanOrderTwice(Step(w, e)) <==> Disturbs(w, e)
  {
    if Disturbs(w, e) {
      DisturbanceOrdersTwice(w, e);
    } else {
      StepKeeps(w, e);
      forall events | Quiet(events) ensures !OrderedTwice(Run(Step(w, e), events)) {
        QuietKeeps(Step(w, e), events);
      }
    }
  }

  /** The same over runs, from the opened page on. */
  lemma SteadyRunsAreTheSafeOnes(shown: Intent, events: seq<Event>, e: Event)
    requires Steady(Opened(shown), events)
    ensures !OrderedTwice(Run(Opened(shown), events))
    ensures CanOrderTwice(Step(Run(Opened(shown), events), e)) <==> Disturbs(Run(Opened(shown), events), e)
  {
    RunKeeps(Opened(shown), events);
    OrderedTwiceExactly(Run(Opened(shown), events), e);
  }

  lemma {:induction false} QuietKeeps(w: World, events: seq<Event>)
    requires Inv(w) && Quiet(events)
    ensures !OrderedTwice(Run(w, events))
    decreases |events|
  {
    if events != [] {
      assert !ChangesOrder(events[0]) && Quiet(events[1..]);
      StepKeeps(w, events[0]);
      hide Inv, Step, OrderedTwice;
      QuietKeeps(Step(w, events[0]), events[1..]);
    }
  }

  lemma {:induction false} RunAppend(w: World, first: seq<Event>, second: seq<Event>)
    ensures Run(w, first + second) == Run(Run(w, first), second)
    decreases |first|
  {
    hide Step;
    if first == [] {
      assert first + second == second;
    } else {
      assert (first + second)[1..] == first[1..] + second;
      RunAppend(Step(w, first[0]), first[1..], second);
    }
  }

  lemma RunOne(w: World, e: Event)
    ensures Run(w, [e]) == Step(w, e)
  {
    hide Step;
    assert [e][1..] == [];
  }

  lemma RunPair(w: World, first: Event, second: Event)
    ensures Run(w, [first, second]) == Step(Step(w, first), second)
  {
    hide Step;
    assert [first, second][1..] == [second];
    RunOne(Step(w, first), second);
  }

  /** The request that was under way arrives at last; whatever the page awaited is given up. */
  function Settling(w: World, copy: nat): seq<Event> {
    [Loses, Reaches(copy, true, true)]
  }

  /** After the disturbance the earlier order comes, or has come, to exist under the key stored before. */
  lemma EarlierOrderExists(w: World, e: Event) returns (events: seq<Event>)
    requires Inv(w) && Disturbs(w, e)
    ensures Quiet(events)
    ensures var u, v := Step(w, e), Run(Step(w, e), events);
            && v == u.(busy := false, transit := v.transit, orders := v.orders, created := v.created)
            && w.stored.value in v.orders && v.orders[w.stored.value] == w.shown
            && w.stored.value in v.created && w.minted !in v.orders && NetworkSound(v)
  {
    var u, key := Step(w, e), w.stored.value;
    NetworkStaysSound(w, e);
    hide Distinct;
    if key in w.orders {
      events := [Loses];
      RunOne(u, Loses);
    } else {
      var copy :| copy in w.transit && copy < |w.copies| && w.copies[copy].key == key;
      events := Settling(w, copy);
      RunPair(u, Loses, Reaches(copy, true, true));
      assert w.copies[copy].intent == w.shown;
    }
    RunStaysSound(u, events);
  }

  lemma DisturbanceOrdersTwice(w: World, e: Event)
    requires Inv(w) && Disturbs(w, e)
    ensures CanOrderTwice(Step(w, e))
  {
    var first := EarlierOrderExists(w, e);
    var v := Run(Step(w, e), first);
    var second := OrdersOnceMore(w, e, v);
    RunAppend(Step(w, e), first, second);
    assert Quiet(first + second);
    var end := Run(v, second);
    assert w.stored.value in end.created && w.minted in end.created && w.stored.value != w.minted;
    assert OrderedTwice(Run(Step(w, e), first + second));
  }

  /** A dropped key orders at the next submission, a kept one after a conflict; an emptied cart is filled first. */
  lemma OrdersOnceMore(w: World, e: Event, v: World) returns (events: seq<Event>)
    requires Inv(w) && Disturbs(w, e) && NetworkSound(v)
    requires v == Step(w, e).(busy := false, transit := v.transit, orders := v.orders, created := v.created)
    requires w.stored.value in v.orders && v.orders[w.stored.value] == w.shown && w.minted !in v.orders
    ensures Quiet(events)
    ensures Run(v, events).created == v.created + [w.minted] && Run(v, events).acknowledged == w.acknowledged
  {
    var ordering := [Submits, Reaches(|v.copies|, true, false)];
    if e.ChangesForm? {
      events := ordering;
      RunPair(v, Submits, Reaches(|v.copies|, true, false));
      FreshKeyOrders(v);
    } else {
      var filling := if v.hasLines then [] else [FillsCart(w.shown.(quote := w.shown.quote + 1))];
      var filled := Run(v, filling);
      RunOne(v, FillsCart(w.shown.(quote := w.shown.quote + 1)));
      assert filled.hasLines && filled.shown != w.shown;
      var again := ConflictThenOrder(filled);
      events := filling + again;
      RunAppend(v, filling, again);
    }
  }

  lemma ConflictThenOrder(w: World) returns (events: seq<Event>)
    requires NetworkSound(w) && !w.busy && w.hasLines && w.stored.Some? && w.stored.value in w.orders
    requires w.orders[w.stored.value] != w.shown
    ensures Quiet(events)
    ensures Run(w, events).created == w.created + [w.minted] && Run(w, events).acknowledged == w.acknowledged
  {
    OtherIntentConflicts(w);
    hide Step;
    var n := |w.copies|;
    var sent := Step(Step(w, Submits), Reaches(n, true, false));
    RunPair(w, Submits, Reaches(n, true, false));
    RunPair(sent, Receives, Submits);
    var resent := Step(Step(sent, Receives), Submits);
    var last := [Reaches(n + 1, true, false)];
    RunOne(resent, last[0]);
    RunAppend(w, [Submits, Reaches(n, true, false)], [Receives, Submits]);
    RunAppend(w, [Submits, Reaches(n, true, false)] + [Receives, Submits], last);
    events := [Submits, Reaches(n, true, false)] + [Receives, Submits] + last;
  }

  // ----- the page in the form of the source

  /** The key in session storage and the flag of the form; the order shown is a parameter of each submission. */
  class ShopCartForm {
    var storedKey: Option<nat>
    var busy: bool
    var minted: nat

    constructor (stored: Option<nat>, minted: nat)
      ensures storedKey == stored && !busy && this.minted == minted
    {
      storedKey, busy, this.minted := stored, false, minted;
    }

    ghost predicate Mirrors(w: World)
      reads this
    {
      storedKey == w.stored && busy == w.busy && minted == w.minted
    }

    method ResetOrderPreparation(ghost w: World, changed: Intent)
      requires Mirrors(w) && w.hasLines
      modifies this
      ensures Mirrors(Step(w, ChangesForm(changed)))
    {
      storedKey := None;
    }

    method OnSubmit(ghost w: World, shown: Intent, hasLines: bool) returns (sent: Option<Message>)
      requires Mirrors(w) && shown == w.shown && hasLines == w.hasLines
      modifies this
      ensures Mirrors(Step(w, Submits))
      ensures sent.Some? <==> !w.busy && w.hasLines
      ensures sent.Some? ==> Step(w, Submits).copies == w.copies + [sent.value]
    {
      if !hasLines || busy { return None; }
      if storedKey.None? {
        storedKey := Some(minted);
        minted := minted + 1;
      }
      busy := true;
      return Some(Message(storedKey.value, shown));
    }

    method OnResponse(ghost w: World, answer: Answer)
      requires Mirrors(w) && w.busy && w.awaited in w.answers && w.awaited < |w.copies| && w.answers[w.awaited] == answer
      modifies this
      ensures Mirrors(Step(w, Receives))
    {
      if answer.Conflict? || answer.Created? { storedKey := None; }
      busy := false;
    }

    method OnNoResponse(ghost w: World)
      requires Mirrors(w)
      modifies this
      ensures Mirrors(Step(w, Loses))
    {
      busy := false;
    }
  }
}
