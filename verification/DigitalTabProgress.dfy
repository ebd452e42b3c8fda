/** What the two components of the cart do next: every change of the cart is checked, and every newest answer is shown. */
module DigitalTabProgress {
  import opened Prelude
  import opened DigitalCartStorage
  import opened DigitalQuote
  import opened CartNavigation
  import opened DigitalCartPage
  import opened DigitalTab

  // ----- the indicator

  /** A request that is newer than all before it, for exactly these ids, is scheduled and shown as a check. */
  predicate Schedules(before: Nav, after: Nav, ids: seq<OfferId>) {
    && after.timer == Some(Fetch(after.current, ids)) && after.current > before.current
    && after.checking && after.totalCents.None? && !after.needsReview && after.count == |ids|
  }

  /** Nothing is asked, and what is shown is as it was for these ids. */
  predicate Keeps(before: Nav, after: Nav, ids: seq<OfferId>) {
    && after.timer.None? && !after.checking && !after.needsReview && after.count == |ids|
    && after.confirmed == before.confirmed && after.totalCents == before.totalCents
  }

  /** A cart without lines has nothing to ask for and nothing to show. */
  predicate Empties(after: Nav) {
    after.timer.None? && !after.checking && !after.needsReview && after.count == 0 && after.totalCents.None?
  }

  /** The own writes of the page and the storage events of others, which the indicator hears. */
  predicate Heard(t: Tab, e: Event) {
    e.LocalWrite? || (e.StorageEvent? && t.undelivered > 0)
  }

  /** Every cart that the indicator hears of is asked for, unless it is empty or the one that is confirmed. */
  lemma ChangedCartIsChecked(server: Server, t: Tab, e: Event)
    requires Inv(server, t) && Heard(t, e)
    ensures var after := Step(server, t, e);
            && (forall f :: f in after.nav.fetches ==> f in t.nav.fetches && f.request < after.nav.current)
            && (if Cart(after) == [] then Empties(after.nav)
                else if t.nav.confirmed == Some(Cart(after)) then Keeps(t.nav, after.nav, Cart(after))
                else Schedules(t.nav, after.nav, Cart(after)))
  {
    hide Answer;
  }

  /** The notice of an addition appears exactly when the page's own write leaves more ids than it knew of before. */
  lemma AdditionsAreNoticed(server: Server, t: Tab, ids: seq<OfferId>)
    ensures var after := Step(server, t, LocalWrite(ids));
            && (after.nav.added <==> t.nav.added || |Cart(after)| > t.nav.previousCount)
            && after.nav.previousCount == |Cart(after)| && Cart(after) == Read(Write(ids))
  {
  }

  /** The timer sends the request that was scheduled. */
  lemma TimerSends(server: Server, t: Tab)
    requires t.nav.timer.Some?
    ensures var after := Step(server, t, NavTimer);
            && after == t.(nav := t.nav.(timer := None, fetches := after.nav.fetches))
            && after.nav.fetches == t.nav.fetches + {t.nav.timer.value}
  {
  }

  /** What the newest answer for the stored ids makes the indicator show: the quote, or a notice. */
  lemma NewestAnswerIsShown(server: Server, t: Tab, f: Fetch, order: seq<OfferId>, writes: bool)
    requires Inv(server, t) && f in t.nav.fetches && f.request == t.nav.current && f.ids == Cart(t)
    requires Quotation(server, f, order).Quoted?
    ensures var q, after := Quotation(server, f, order), Step(server, t, NavResponds(f, true, order, writes));
            && after.nav.count == |q.lines| && !after.nav.checking
            && (if Ids(q.lines) == Cart(t) || writes then
                  && Cart(after) == Ids(q.lines) && !after.nav.needsReview
                  && after.nav.totalCents == (if q.lines == [] then None else Some(q.totalCents))
                else Cart(after) == Cart(t) && after.nav.needsReview && after.nav.totalCents == Some(q.totalCents))
  {
    ReadIsNormal(t.storage);
    QuotedIdsAreReadBack(server, f, order);
    hide Quotation, PageSound;
    assert |Ids(Quotation(server, f, order).lines)| == |Quotation(server, f, order).lines|;
  }

  /** A newest request that fails or is refused ends the check with the notice; an older one changes nothing shown. */
  lemma FailuresAreShown(server: Server, t: Tab, f: Fetch, reached: bool, order: seq<OfferId>, writes: bool)
    requires Inv(server, t) && f in t.nav.fetches
    ensures var after := Step(server, t, NavResponds(f, reached, order, writes));
            && (f.request == t.nav.current && (!reached || Quotation(server, f, order).Refused?) ==>
                  after == t.(nav := t.nav.(fetches := t.nav.fetches - {f}, checking := false, needsReview := true)))
            && (f.request != t.nav.current || (f.ids != Cart(t) && reached && Quotation(server, f, order).Quoted?) ==>
                  after == t.(nav := t.nav.(fetches := t.nav.fetches - {f})))
  {
    hide Quotation;
  }

  /** A scheduled check of a cart that is for sale as it is needs the timer and its answer, and then shows the total. */
  lemma ScheduledQuoteArrives(server: Server, t: Tab)
    requires Inv(server, t) && t.undelivered == 0 && t.nav.timer.Some? && Settled(server, Cart(t))
    ensures var f := t.nav.timer.value;
            var after := Run(server, t, [NavTimer, NavResponds(f, true, Cart(t), true)]);
            && after.nav.totalCents == Some(Answer(server, Cart(t)).totalCents) && after.nav.count == |Cart(t)|
            && !after.nav.checking && !after.nav.needsReview && Cart(after) == Cart(t)
  {
    var f := t.nav.timer.value;
    assert f == Fetch(t.nav.current, t.nav.key) && f.ids == Cart(t) && Cart(t) != [];
    TimerSends(server, t);
    StepKeeps(server, t, NavTimer);
    var sent := Step(server, t, NavTimer);
    assert Quotation(server, f, Cart(t)) == Answer(server, Cart(t));
    NewestAnswerIsShown(server, sent, f, Cart(t), true);
    assert |Ids(Answer(server, Cart(t)).lines)| == |Answer(server, Cart(t)).lines|;
    hide Step, Answer;
    var last := NavResponds(f, true, Cart(t), true);
    assert [NavTimer, last][1..] == [last] && [last][1..] == [];
    assert Run(server, sent, [last]) == Run(server, Step(server, sent, last), []);
  }

  /**
   Over every run: whenever no other tab's write is unannounced, a cart with lines has its total shown, or a notice, or
   its check is under way and shown as such; an empty one shows none of these.
   */
  lemma CartIsAlwaysChecked(server: Server, stored: Stored, events: seq<Event>)
    requires ValidServer(server)
    ensures var t := Run(server, Opened(stored), events);
            t.undelivered == 0 ==>
              if Cart(t) == [] then Empties(t.nav)
              else t.nav.totalCents.Some? || t.nav.needsReview || (t.nav.checking && NavAwaits(t.nav))
  {
    OpenedHolds(server, stored);
    RunKeeps(server, Opened(stored), events);
    hide Run, Answer;
  }

  // ----- the cart page

  /** A new refresh for the stored ids is on its way and shown; what was on the page stays meanwhile. */
  predicate Refreshes(before: Page, after: Page, ids: seq<OfferId>) {
    && after.updating && after.serial > before.serial && Fetch(after.serial, ids) in after.fetches
    && after.value == before.value && after.failed == before.failed
    && (forall f :: f in after.fetches ==> f in before.fetches || f == Fetch(after.serial, ids))
  }

  lemma CartIsRefreshed(server: Server, t: Tab, e: Event)
    requires Heard(t, e) || e.OtherKeyEvent? || (e.PageTimer? && t.page.initialTimer)
    ensures var after := Step(server, t, e); Refreshes(t.page, after.page, Cart(after))
    ensures !Step(server, t, PageTimer).page.initialTimer && (!t.page.initialTimer ==> Step(server, t, PageTimer) == t)
  {
    hide Answer;
  }

  /** The newest answer for the stored ids, when nothing is removed, is what the page shows from then on. */
  lemma NewestQuoteIsShown(server: Server, t: Tab, f: Fetch, order: seq<OfferId>, writes: bool)
    requires f in t.page.fetches && f.request == t.page.serial && f.ids == Cart(t)
    requires Quotation(server, f, order).Quoted? && Quotation(server, f, order).removed == []
    ensures Step(server, t, PageResponds(f, true, order, writes)) ==
            t.(page := t.page.(fetches := t.page.fetches - {f}, value := Some(Quotation(server, f, order)),
                               failed := false, updating := false))
  {
    hide Quotation;
  }

  /** Otherwise the page shows it while the rest of the cart is refreshed, or a failure if that cannot be stored. */
  lemma NewestQuoteIsPruned(server: Server, t: Tab, f: Fetch, order: seq<OfferId>, writes: bool)
    requires Inv(server, t) && f in t.page.fetches && f.request == t.page.serial && f.ids == Cart(t)
    requires Quotation(server, f, order).Quoted? && Quotation(server, f, order).removed != []
    ensures var q, after := Quotation(server, f, order), Step(server, t, PageResponds(f, true, order, writes));
            if writes then
              && Cart(after) == Ids(q.lines) && after.page.noticed && after.page.value == Some(q) && !after.page.failed
              && Refreshes(t.page.(value := Some(q), failed := false), after.page, Cart(after))
            else Cart(after) == Cart(t) && after.page.failed && after.page.value.None? && !after.page.updating
  {
    ReadIsNormal(t.storage);
    QuotedIdsAreReadBack(server, f, order);
    hide Quotation, NavSound, PageSound, Inv, Read, Write, Ids;
  }

  /** A newest request that fails or is refused clears the page; one for other ids or an older one shows nothing new. */
  lemma PageFailuresAreShown(server: Server, t: Tab, f: Fetch, reached: bool, order: seq<OfferId>, writes: bool)
    requires f in t.page.fetches
    ensures var after, rest := Step(server, t, PageResponds(f, reached, order, writes)), t.page.fetches - {f};
            && (f.request != t.page.serial ==> after == t.(page := t.page.(fetches := rest)))
            && (f.request == t.page.serial && PageAnswer(server, f, reached, order).Refused? ==>
                  after == t.(page := t.page.(fetches := rest, failed := true, value := None, updating := false)))
            && (f.request == t.page.serial && PageAnswer(server, f, reached, order).Quoted? && f.ids != Cart(t) ==>
                  after == t.(page := t.page.(fetches := rest, updating := false)))
  {
    hide Quotation;
  }

  /**
   Over every run: whenever no other tab's write is unannounced and no refresh is under way, the page shows a failure or
   the quote of the stored cart, and the checkout is enabled exactly for a quoted cart with lines.
   */
  lemma PageIsAlwaysRefreshed(server: Server, stored: Stored, events: seq<Event>)
    requires ValidServer(server)
    ensures var t := Run(server, Opened(stored), events);
            t.undelivered == 0 && !t.page.updating ==>
              && (t.page.failed <==> t.page.value.None?)
              && (CheckoutEnabled(t.page) <==> !t.page.failed && Cart(t) != [])
              && (!t.page.failed ==> Settled(server, Cart(t)))
  {
    OpenedHolds(server, stored);
    RunKeeps(server, Opened(stored), events);
    var t := Run(server, Opened(stored), events);
    hide Run, Answer;
    if t.undelivered == 0 && !t.page.updating && !t.page.failed {
      ReadIsNormal(t.storage);
      var v, q := t.page.value.value, Answer(server, Cart(t));
      assert |multiset(v.removed)| == |multiset(q.removed)| && |multiset(v.lines)| == |multiset(q.lines)|;
      QuoteSettles(server, Cart(t));
      assert |Ids(q.lines)| == |q.lines|;
    }
  }
}
