/**
 One browser tab: the stored cart, the site-wide indicator and the cart page, which all hear each other's writes,
 while other tabs write the same storage and the server answers, late or never.
 */
module DigitalTab {
  import opened Prelude
  import opened DigitalCartStorage
  import opened DigitalQuote
  import opened CartNavigation
  import opened DigitalCartPage

  datatype Tab = Tab(storage: Stored, undelivered: nat, nav: Nav, page: Page)

  datatype Event =
    | OtherTabWrites(stored: Stored)
    | StorageEvent
    | OtherKeyEvent
    | LocalWrite(ids: seq<OfferId>)
    | NavTimer
    | NavResponds(navFetch: Fetch, navReached: bool, navOrder: seq<OfferId>, navWrites: bool)
    | PageTimer
    | PageResponds(pageFetch: Fetch, pageReached: bool, pageOrder: seq<OfferId>, pageWrites: bool)

  function Cart(t: Tab): seq<OfferId> {
    Read(t.storage)
  }

  /** `writeDigitalCart` and the event it dispatches to both components before it returns. */
  function WriteCart(t: Tab, ids: seq<OfferId>): Tab {
    var cart := Read(Write(ids));
    t.(storage := Write(ids), nav := CartChanged(t.nav, cart), page := Refresh(t.page, cart))
  }

  /** What the server answers for a request, with the rows in the order that its database happens to give. */
  ghost function Quotation(server: Server, f: Fetch, order: seq<OfferId>): Quote {
    Answer(server, Rows(f.ids, order))
  }

  ghost function NavQuote(server: Server, f: Fetch, reached: bool, order: seq<OfferId>): Option<(seq<OfferId>, int)> {
    var answer := Quotation(server, f, order);
    if reached && answer.Quoted? then Some((Ids(answer.lines), answer.totalCents)) else None
  }

  ghost function PageAnswer(server: Server, f: Fetch, reached: bool, order: seq<OfferId>): Quote {
    if reached then Quotation(server, f, order) else Refused
  }

  ghost function NavResponse(server: Server, t: Tab, f: Fetch, reached: bool, order: seq<OfferId>, writes: bool): Tab {
    var quoted := NavQuote(server, f, reached, order);
    var received := t.(nav := Receive(t.nav, f, Cart(t), quoted));
    if !Prunes(t.nav, f, Cart(t), quoted) then received
    else if writes then WriteCart(received, quoted.value.0)
    else received.(nav := WriteFailed(received.nav))
  }

  ghost function PageResponse(server: Server, t: Tab, f: Fetch, reached: bool, order: seq<OfferId>, writes: bool): Tab {
    var answer := PageAnswer(server, f, reached, order);
    var received := t.(page := ReceiveQuote(t.page, f, Cart(t), answer));
    if !PrunesPage(t.page, f, Cart(t), answer) then received
    else if writes then WriteCart(received, Ids(answer.lines))
    else received.(page := PageWriteFailed(received.page))
  }

  ghost function Step(server: Server, t: Tab, e: Event): Tab {
    match e
    case OtherTabWrites(stored) => t.(storage := stored, undelivered := t.undelivered + 1)
    case StorageEvent =>
      if t.undelivered == 0 then t
      else t.(undelivered := t.undelivered - 1, nav := Update(t.nav, Cart(t)), page := Refresh(t.page, Cart(t)))
    case OtherKeyEvent => t.(page := Refresh(t.page, Cart(t)))
    case LocalWrite(ids) => WriteCart(t, ids)
    case NavTimer => t.(nav := FireTimer(t.nav))
    case NavResponds(f, reached, order, writes) =>
      if f in t.nav.fetches then NavResponse(server, t, f, reached, order, writes) else t
    case PageTimer => t.(page := FireInitial(t.page, Cart(t)))
    case PageResponds(f, reached, order, writes) =>
      if f in t.page.fetches then PageResponse(server, t, f, reached, order, writes) else t
  }

  function Opened(stored: Stored): Tab {
    Tab(stored, 0, Mounted(Read(stored)), MountedPage())
  }

  ghost function Run(server: Server, t: Tab, events: seq<Event>): Tab
    decreases |events|
  {
    if events == [] then t else Run(server, Step(server, t, events[0]), events[1..])
  }

  // ----- what every step keeps

  /** The indicator against the stored cart; `current` says that no other tab's write is still unannounced. */
  ghost predicate NavSound(server: Server, n: Nav, cart: seq<OfferId>, current: bool) {
    && (n.confirmed.Some? <==> n.totalCents.Some?)
    && (current ==> n.key == cart)
    && (n.timer.Some? ==> n.timer.value == Fetch(n.current, n.key) && n.key != [] && n.confirmed.None? && !n.needsReview)
    && (forall f :: f in n.fetches ==>
          f.request <= n.current
          && (f.request == n.current ==> f.ids == n.key != [] && n.confirmed.None? && n.timer.None? && !n.needsReview))
    && (n.timer.Some? ==> n.checking)
    && (n.checking ==> n.totalCents.None?
                       && (n.timer.Some? || Fetch(n.current, n.key) in n.fetches || !current))
    && (n.confirmed.Some? ==> Confirms(server, n, n.confirmed.value, cart, current))
    && (current && n.confirmed.None? ==> n.count == |cart|)
    && (current && cart != [] ==> n.totalCents.Some? || n.needsReview || n.checking)
    && (current && cart == [] ==> n.totalCents.None? && !n.needsReview && !n.checking)
  }

  /** A displayed amount is the server's total for the ids confirmed with it, and for the cart as it is stored. */
  ghost predicate Confirms(server: Server, n: Nav, ids: seq<OfferId>, cart: seq<OfferId>, current: bool) {
    && n.totalCents.Some?
    && Settled(server, ids) && Answer(server, ids).totalCents == n.totalCents.value
    && (current ==>
          && Answer(server, cart).Quoted? && Answer(server, cart).totalCents == n.totalCents.value
          && Rearranges(ids, Ids(Answer(server, cart).lines))
          && n.count == |ids|
          && (ids != cart <==> n.needsReview))
  }

  ghost predicate PageSound(server: Server, p: Page, cart: seq<OfferId>, current: bool) {
    && (current && !p.initialTimer ==> p.key == cart)
    && (forall f :: f in p.fetches ==> f.request <= p.serial && (f.request == p.serial ==> f.ids == p.key))
    && (p.initialTimer && p.serial == 0 ==> p.updating && p.fetches == {})
    && (p.serial > 0 && current ==> p.key == cart)
    && (p.updating ==> p.initialTimer || Fetch(p.serial, p.key) in p.fetches)
    && (p.failed ==> p.value.None?) && (!p.updating && current ==> p.failed || p.value.Some?)
    && (p.value.Some? && !p.updating && current ==>
          p.value.value.Quoted? && p.value.value.removed == [] && Alike(p.value.value, Answer(server, cart)))
  }

  ghost predicate Inv(server: Server, t: Tab) {
    && ValidServer(server)
    && NavSound(server, t.nav, Cart(t), t.undelivered == 0)
    && PageSound(server, t.page, Cart(t), t.undelivered == 0)
  }

  lemma UpdateIsSound(server: Server, n: Nav, before: seq<OfferId>, cart: seq<OfferId>, current: bool)
    requires NavSound(server, n, before, current)
    ensures NavSound(server, Update(n, cart), cart, true)
    ensures NavSound(server, CartChanged(n, cart), cart, true)
  {
    hide Answer;
  }

  lemma NavStaysSoundBehind(server: Server, n: Nav, before: seq<OfferId>, cart: seq<OfferId>, current: bool)
    requires NavSound(server, n, before, current)
    ensures NavSound(server, n, cart, false)
    ensures NavSound(server, FireTimer(n), before, current)
  {
    hide Answer;
  }

  lemma RefreshIsSound(server: Server, p: Page, before: seq<OfferId>, cart: seq<OfferId>, current: bool)
    requires PageSound(server, p, before, current)
    ensures PageSound(server, Refresh(p, cart), cart, true)
    ensures PageSound(server, FireInitial(p, before), before, current)
    ensures PageSound(server, p, cart, false)
  {
    hide Answer;
  }

  lemma NavKeepsWaiting(server: Server, n: Nav, f: Fetch, cart: seq<OfferId>, current: bool)
    requires f in n.fetches && NavSound(server, n, cart, current)
    ensures f.request == n.current ==> NavSound(server, Receive(n, f, cart, None), cart, current)
    ensures f.request != n.current || (cart != f.ids && !current) ==>
              NavSound(server, n.(fetches := n.fetches - {f}), cart, current)
  {
    hide Answer;
  }

  lemma NavTakes(server: Server, n: Nav, f: Fetch, ids: seq<OfferId>, total: int, cart: seq<OfferId>, current: bool)
    requires f in n.fetches && NavSound(server, n, cart, current) && f.request == n.current && cart == f.ids
    requires Settled(server, ids) && Answer(server, ids).totalCents == total
    requires Answer(server, cart).Quoted? && Answer(server, cart).totalCents == total
    requires Rearranges(ids, Ids(Answer(server, cart).lines))
    ensures var received := Receive(n, f, cart, Some((ids, total)));
            && (ids == cart ==> NavSound(server, received, cart, current))
            && (ids != cart ==> NavSound(server, WriteFailed(received), cart, current)
                                && NavSound(server, received, ids, false))
  {
    hide Answer, Settled, Rearranges;
    var received := Receive(n, f, cart, Some((ids, total)));
    assert forall g :: g in received.fetches ==> g.request < received.current;
  }

  lemma NavAccepts(server: Server, n: Nav, f: Fetch, order: seq<OfferId>, cart: seq<OfferId>, current: bool)
    requires ValidServer(server) && Distinct(cart) && f in n.fetches && NavSound(server, n, cart, current)
    requires Quotation(server, f, order).Quoted? && f.request == n.current && cart == f.ids
    ensures var q := Quotation(server, f, order);
            var quoted := (Ids(q.lines), q.totalCents);
            var received := Receive(n, f, cart, Some(quoted));
            && (quoted.0 == cart ==> NavSound(server, received, cart, current))
            && (quoted.0 != cart ==> NavSound(server, WriteFailed(received), cart, current)
                                     && NavSound(server, received, quoted.0, false))
  {
    var rows, q := Rows(f.ids, order), Quotation(server, f, order);
    OrderDoesNotMatter(server, rows, cart);
    QuoteSettles(server, rows);
    IdsRearranged(q.lines, Answer(server, cart).lines);
    hide NavSound, Receive;
    NavTakes(server, n, f, Ids(q.lines), q.totalCents, cart, current);
  }

  lemma NavReceiveIsSound(
    server: Server, n: Nav, f: Fetch, order: seq<OfferId>, cart: seq<OfferId>, current: bool, reached: bool)
    requires ValidServer(server) && Distinct(cart) && f in n.fetches && NavSound(server, n, cart, current)
    ensures var quoted := NavQuote(server, f, reached, order);
            var received := Receive(n, f, cart, quoted);
            && (!Prunes(n, f, cart, quoted) ==> NavSound(server, received, cart, current))
            && (Prunes(n, f, cart, quoted) ==>
                  NavSound(server, WriteFailed(received), cart, current)
                  && NavSound(server, received, quoted.value.0, false))
  {
    hide Quotation;
    NavKeepsWaiting(server, n, f, cart, current);
    var quoted := NavQuote(server, f, reached, order);
    if quoted.Some? && f.request == n.current && cart == f.ids {
      NavAccepts(server, n, f, order, cart, current);
    }
    assert current ==> f.request == n.current ==> n.key == f.ids;
    hide NavSound;
  }

  /** After its write, the indicator shows what it was just told and asks nothing: no timer, no live request. */
  lemma PruneAsksNothing(
    server: Server, n: Nav, f: Fetch, order: seq<OfferId>, cart: seq<OfferId>, current: bool, reached: bool)
    requires ValidServer(server) && Distinct(cart) && f in n.fetches && NavSound(server, n, cart, current)
    requires Prunes(n, f, cart, NavQuote(server, f, reached, order))
    ensures var quoted := NavQuote(server, f, reached, order).value;
            var after := CartChanged(Receive(n, f, cart, Some(quoted)), quoted.0);
            && after.timer.None? && !after.checking && !after.needsReview
            && (forall g :: g in after.fetches ==> g.request < after.current)
            && after.totalCents == (if quoted.0 == [] then None else Some(quoted.1))
            && after.count == |quoted.0|
  {
    hide Quotation;
  }

  lemma PageTakes(server: Server, p: Page, f: Fetch, answer: Quote, cart: seq<OfferId>, current: bool)
    requires f in p.fetches && PageSound(server, p, cart, current)
    requires cart == f.ids && answer.Quoted? ==> Alike(answer, Answer(server, cart))
    ensures var received := ReceiveQuote(p, f, cart, answer);
            && (!PrunesPage(p, f, cart, answer) ==> PageSound(server, received, cart, current))
            && (PrunesPage(p, f, cart, answer) ==>
                  PageSound(server, PageWriteFailed(received), cart, current)
                  && PageSound(server, Refresh(received, Ids(answer.lines)), Ids(answer.lines), true))
  {
    hide Answer, Alike, Ids;
  }

  lemma PageReceiveIsSound(
    server: Server, p: Page, f: Fetch, order: seq<OfferId>, cart: seq<OfferId>, current: bool, reached: bool)
    requires ValidServer(server) && Distinct(cart) && f in p.fetches && PageSound(server, p, cart, current)
    ensures var answer := PageAnswer(server, f, reached, order);
            var received := ReceiveQuote(p, f, cart, answer);
            && (!PrunesPage(p, f, cart, answer) ==> PageSound(server, received, cart, current))
            && (PrunesPage(p, f, cart, answer) ==>
                  PageSound(server, PageWriteFailed(received), cart, current)
                  && PageSound(server, Refresh(received, Ids(answer.lines)), Ids(answer.lines), true))
  {
    if cart == f.ids {
      OrderDoesNotMatter(server, Rows(f.ids, order), cart);
    }
    hide PageSound, ReceiveQuote, PrunesPage;
    PageTakes(server, p, f, PageAnswer(server, f, reached, order), cart, current);
  }

  /** A write of quoted ids is read back unchanged. */
  lemma QuotedIdsAreReadBack(server: Server, f: Fetch, order: seq<OfferId>)
    requires ValidServer(server) && Distinct(f.ids) && |f.ids| <= READ_LIMIT && Quotation(server, f, order).Quoted?
    ensures Read(Write(Ids(Quotation(server, f, order).lines))) == Ids(Quotation(server, f, order).lines)
  {
    var rows, q := Rows(f.ids, order), Quotation(server, f, order);
    RearrangedIsDistinct(rows, f.ids);
    QuoteSettles(server, rows);
    ReadAfterWrite(Ids(q.lines));
    assert q.removed == [] ==> Ids(q.lines) == rows;
    assert |Ids(q.lines)| == |q.lines|;
  }

  lemma NavResponseKeeps(server: Server, t: Tab, f: Fetch, reached: bool, order: seq<OfferId>, writes: bool)
    requires Inv(server, t) && f in t.nav.fetches
    ensures Inv(server, NavResponse(server, t, f, reached, order, writes))
  {
    var cart, current := Cart(t), t.undelivered == 0;
    ReadIsNormal(t.storage);
    NavReceiveIsSound(server, t.nav, f, order, cart, current, reached);
    var quoted := NavQuote(server, f, reached, order);
    if Prunes(t.nav, f, cart, quoted) && writes {
      QuotedIdsAreReadBack(server, f, order);
      UpdateIsSound(server, Receive(t.nav, f, cart, quoted), quoted.value.0, quoted.value.0, false);
      RefreshIsSound(server, t.page, cart, quoted.value.0, current);
      var after := NavResponse(server, t, f, reached, order, writes);
      assert Cart(after) == quoted.value.0;
      NavBehindIfNeeded(server, after.nav, Cart(after), current);
      PageBehindIfNeeded(server, after.page, Cart(after), current);
    }
    hide NavSound, PageSound, Quotation;
  }

  lemma NavBehindIfNeeded(server: Server, n: Nav, cart: seq<OfferId>, current: bool)
    requires NavSound(server, n, cart, true)
    ensures NavSound(server, n, cart, current)
  {
    hide Answer;
  }

  lemma PageBehindIfNeeded(server: Server, p: Page, cart: seq<OfferId>, current: bool)
    requires PageSound(server, p, cart, true)
    ensures PageSound(server, p, cart, current)
  {
    hide Answer;
  }

  lemma PageResponseKeeps(server: Server, t: Tab, f: Fetch, reached: bool, order: seq<OfferId>, writes: bool)
    requires Inv(server, t) && f in t.page.fetches
    ensures Inv(server, PageResponse(server, t, f, reached, order, writes))
  {
    var cart, current := Cart(t), t.undelivered == 0;
    ReadIsNormal(t.storage);
    PageReceiveIsSound(server, t.page, f, order, cart, current, reached);
    var answer := PageAnswer(server, f, reached, order);
    if PrunesPage(t.page, f, cart, answer) && writes {
      QuotedIdsAreReadBack(server, f, order);
      UpdateIsSound(server, t.nav, cart, Ids(answer.lines), current);
      var after := PageResponse(server, t, f, reached, order, writes);
      assert Cart(after) == Ids(answer.lines);
      NavBehindIfNeeded(server, after.nav, Cart(after), current);
      PageBehindIfNeeded(server, after.page, Cart(after), current);
    }
    hide NavSound, PageSound, Quotation;
  }

  lemma WriteKeeps(server: Server, t: Tab, ids: seq<OfferId>)
    requires Inv(server, t)
    ensures Inv(server, WriteCart(t, ids))
  {
    var cart := Read(Write(ids));
    UpdateIsSound(server, t.nav, Cart(t), cart, t.undelivered == 0);
    RefreshIsSound(server, t.page, Cart(t), cart, t.undelivered == 0);
    NavBehindIfNeeded(server, WriteCart(t, ids).nav, cart, t.undelivered == 0);
    PageBehindIfNeeded(server, WriteCart(t, ids).page, cart, t.undelivered == 0);
  }

  lemma StepKeeps(server: Server, t: Tab, e: Event)
    requires Inv(server, t)
    ensures Inv(server, Step(server, t, e))
  {
    hide NavSound, PageSound;
    var cart, current := Cart(t), t.undelivered == 0;
    UpdateIsSound(server, t.nav, cart, cart, current);
    RefreshIsSound(server, t.page, cart, cart, current);
    match e
    case OtherTabWrites(stored) =>
      NavStaysSoundBehind(server, t.nav, cart, Read(stored), current);
      RefreshIsSound(server, t.page, cart, Read(stored), current);
    case StorageEvent =>
      NavBehindIfNeeded(server, Update(t.nav, cart), cart, t.undelivered <= 1);
      PageBehindIfNeeded(server, Refresh(t.page, cart), cart, t.undelivered <= 1);
    case OtherKeyEvent => PageBehindIfNeeded(server, Refresh(t.page, cart), cart, current);
    case LocalWrite(ids) => WriteKeeps(server, t, ids);
    case NavTimer => NavStaysSoundBehind(server, t.nav, cart, cart, current);
    case NavResponds(f, reached, order, writes) =>
      if f in t.nav.fetches { NavResponseKeeps(server, t, f, reached, order, writes); }
    case PageTimer =>
    case PageResponds(f, reached, order, writes) =>
      if f in t.page.fetches { PageResponseKeeps(server, t, f, reached, order, writes); }
  }

  lemma {:induction false} RunKeeps(server: Server, t: Tab, events: seq<Event>)
    requires Inv(server, t)
    ensures Inv(server, Run(server, t, events))
    decreases |events|
  {
    if events != [] {
      StepKeeps(server, t, events[0]);
      RunKeeps(server, Step(server, t, events[0]), events[1..]);
    }
  }

  lemma OpenedHolds(server: Server, stored: Stored)
    requires ValidServer(server)
    ensures Inv(server, Opened(stored))
  {
  }

  // ----- over whole runs

  /**
   Whenever no other tab's write is unannounced, a displayed amount is the server's total for exactly the stored ids,
   in whatever order its rows came, and the displayed count is that of the quoted lines. The review notice beside it
   stands exactly when the quoted ids are not what is stored because the browser refused to store them: then some are
   covered by an album, or they only came in another order.
   */
  lemma DisplayedTotalIsForTheStoredCart(server: Server, stored: Stored, events: seq<Event>)
    requires ValidServer(server)
    ensures var t := Run(server, Opened(stored), events);
            t.undelivered == 0 && t.nav.totalCents.Some? ==>
              var q := Answer(server, Cart(t));
              && q.Quoted? && t.nav.totalCents == Some(q.totalCents) && t.nav.count == |q.lines|
              && t.nav.confirmed.Some? && Rearranges(t.nav.confirmed.value, Ids(q.lines))
              && (t.nav.needsReview <==> t.nav.confirmed.value != Cart(t))
              && (q.removed != [] ==> t.nav.needsReview)
              && (t.nav.needsReview && q.removed == [] ==> Rearranges(t.nav.confirmed.value, Cart(t)))
  {
    OpenedHolds(server, stored);
    RunKeeps(server, Opened(stored), events);
    var t := Run(server, Opened(stored), events);
    hide Answer, Run;
    if t.undelivered == 0 && t.nav.totalCents.Some? {
      ReadIsNormal(t.storage);
      QuoteSettles(server, Cart(t));
      var q := Answer(server, Cart(t));
      assert |multiset(t.nav.confirmed.value)| == |multiset(Ids(q.lines))|;
      assert |Ids(q.lines)| == |q.lines|;
    }
  }

  /**
   The page lets a buyer go on only with the server's quote for the stored ids, all of them and in whatever order, and
   the indicator then shows the same total or none.
   */
  lemma CheckoutIsForTheStoredCart(server: Server, stored: Stored, events: seq<Event>)
    requires ValidServer(server)
    ensures var t := Run(server, Opened(stored), events);
            t.undelivered == 0 && CheckoutEnabled(t.page) ==>
              && Alike(t.page.value.value, Answer(server, Cart(t))) && Settled(server, Cart(t))
              && Rearranges(Ids(t.page.value.value.lines), Cart(t))
              && (t.nav.totalCents.Some? ==> t.nav.totalCents == Some(t.page.value.value.totalCents))
  {
    OpenedHolds(server, stored);
    RunKeeps(server, Opened(stored), events);
    var t := Run(server, Opened(stored), events);
    hide Answer, Run;
    if t.undelivered == 0 && CheckoutEnabled(t.page) {
      ReadIsNormal(t.storage);
      var v, q := t.page.value.value, Answer(server, Cart(t));
      assert |multiset(v.removed)| == |multiset(q.removed)|;
      QuoteSettles(server, Cart(t));
      IdsRearranged(v.lines, q.lines);
    }
  }

  /** The newest request is scheduled or on its way. */
  predicate NavAwaits(n: Nav) {
    n.timer == Some(Fetch(n.current, n.key)) || Fetch(n.current, n.key) in n.fetches
  }

  /** Neither waiting notice gets stuck: each implies its newest request, or a storage event that will start one. */
  lemma WaitingIsAnswered(server: Server, stored: Stored, events: seq<Event>)
    requires ValidServer(server)
    ensures var t := Run(server, Opened(stored), events);
            && (t.nav.checking ==> NavAwaits(t.nav) || t.undelivered > 0)
            && (t.page.updating ==> t.page.initialTimer || Fetch(t.page.serial, t.page.key) in t.page.fetches)
            && (t.undelivered == 0 && t.nav.timer.None? && t.nav.fetches == {} ==> !t.nav.checking)
            && (!t.page.initialTimer && t.page.fetches == {} ==> !t.page.updating)
  {
    OpenedHolds(server, stored);
    RunKeeps(server, Opened(stored), events);
    hide Answer, Run;
  }

  /** Only the answer to the newest refresh, for ids that are still the stored ones, replaces the quote on the page. */
  lemma OnlyTheNewestQuoteIsShown(server: Server, t: Tab, e: Event)
    requires Inv(server, t)
    ensures var before, after := t.page.value, Step(server, t, e).page.value;
            after != before ==>
              && e.PageResponds? && e.pageFetch.request == t.page.serial && e.pageFetch in t.page.fetches
              && (after.Some? ==> e.pageFetch.ids == Cart(t) && Alike(after.value, Answer(server, Cart(t))))
  {
    ReadIsNormal(t.storage);
    if e.PageResponds? && e.pageFetch.ids == Cart(t) {
      OrderDoesNotMatter(server, Rows(e.pageFetch.ids, e.pageOrder), Cart(t));
    }
    hide Answer, NavSound, PageSound, Alike;
  }

  // ----- the writes of the components end

  /** The components' own successful writes of quoted ids. */
  ghost predicate Writes(server: Server, t: Tab, e: Event) {
    match e
    case NavResponds(f, reached, order, writes) =>
      f in t.nav.fetches && writes && Prunes(t.nav, f, Cart(t), NavQuote(server, f, reached, order))
    case PageResponds(f, reached, order, writes) =>
      f in t.page.fetches && writes && PrunesPage(t.page, f, Cart(t), PageAnswer(server, f, reached, order))
    case _ => false
  }

  predicate ChangesSelection(e: Event) {
    e.OtherTabWrites? || e.LocalWrite?
  }

  ghost predicate Shrinks(server: Server, t: Tab, e: Event) {
    Writes(server, t, e) && |Cart(Step(server, t, e))| < |Cart(t)|
  }

  /** A write that only puts the ids in the order of the rows; the page never makes one. */
  ghost predicate Reorders(server: Server, t: Tab, e: Event) {
    Writes(server, t, e) && e.NavResponds? && Rearranges(Cart(Step(server, t, e)), Cart(t))
  }

  ghost function Responded(server: Server, e: Event): (Fetch, seq<OfferId>)
    requires e.NavResponds? || e.PageResponds?
  {
    if e.NavResponds? then (e.navFetch, e.navOrder) else (e.pageFetch, e.pageOrder)
  }

  lemma WrittenCart(server: Server, t: Tab, e: Event)
    requires Inv(server, t) && Writes(server, t, e)
    ensures var (f, order) := Responded(server, e);
            && f.ids == Cart(t) && Quotation(server, f, order).Quoted?
            && Cart(Step(server, t, e)) == Ids(Quotation(server, f, order).lines)
            && (e.PageResponds? ==> Quotation(server, f, order).removed != [])
            && (e.NavResponds? ==> Ids(Quotation(server, f, order).lines) != Cart(t)
                                   && Step(server, t, e).nav.confirmed ==
                                      (if Cart(Step(server, t, e)) == [] then None else Some(Cart(Step(server, t, e)))))
  {
    hide NavSound, PageSound, Quotation;
    ReadIsNormal(t.storage);
    var (f, order) := Responded(server, e);
    QuotedIdsAreReadBack(server, f, order);
  }

  /**
   A write leaves the ids that were not removed, in the order of the rows, and nothing more to remove. It either
   shrinks the cart, exactly when something was removed, or it only reorders it, and only the indicator does that.
   */
  lemma WriteSettles(server: Server, t: Tab, e: Event)
    requires Inv(server, t) && Writes(server, t, e)
    ensures var cart, after := Cart(t), Cart(Step(server, t, e));
            && Answer(server, cart).Quoted? && Settled(server, after)
            && Rearranges(after, Without(cart, Answer(server, cart).removed))
            && (Shrinks(server, t, e) <==> Answer(server, cart).removed != [])
            && (Shrinks(server, t, e) <==> !Settled(server, cart))
            && (!Shrinks(server, t, e) ==> Reorders(server, t, e) && after != cart)
  {
    var (f, order) := Responded(server, e);
    var cart, q, rows := Cart(t), Quotation(server, f, order), Rows(f.ids, order);
    ReadIsNormal(t.storage);
    WrittenCart(server, t, e);
    OrderDoesNotMatter(server, rows, cart);
    QuoteSettles(server, rows);
    QuoteSettles(server, cart);
    QuotedIdsAreTheRest(server, cart);
    IdsRearranged(q.lines, Answer(server, cart).lines);
    assert |multiset(q.removed)| == |multiset(Answer(server, cart).removed)|;
    assert |Ids(q.lines)| == |q.lines|;
    hide Step, Inv, Answer, Writes;
  }

  /** A settled cart is written again just for its order, if the newest answer brings the rows in another one. */
  lemma SettledCartIsReordered(server: Server, t: Tab, f: Fetch, order: seq<OfferId>)
    requires Inv(server, t) && f in t.nav.fetches && f.request == t.nav.current && f.ids == Cart(t)
    requires Settled(server, Cart(t)) && Rearranges(order, Cart(t))
    ensures var e := NavResponds(f, true, order, true);
            && (Writes(server, t, e) <==> order != Cart(t))
            && (order != Cart(t) ==> Reorders(server, t, e) && Cart(Step(server, t, e)) == order)
    ensures order != Cart(t) ==> Step(server, t, NavResponds(f, true, order, false)).nav.needsReview
  {
    ReadIsNormal(t.storage);
    OrderDoesNotMatter(server, order, Cart(t));
    if order != Cart(t) {
      assert Writes(server, t, NavResponds(f, true, order, true));
      WrittenCart(server, t, NavResponds(f, true, order, true));
    }
    hide NavSound, PageSound, Answer;
  }

  ghost function ShrinkCount(server: Server, t: Tab, events: seq<Event>): nat
    decreases |events|
  {
    if events == [] then 0
    else (if Shrinks(server, t, events[0]) then 1 else 0) + ShrinkCount(server, Step(server, t, events[0]), events[1..])
  }

  ghost function ReorderCount(server: Server, t: Tab, events: seq<Event>): nat
    decreases |events|
  {
    if events == [] then 0
    else (if Reorders(server, t, events[0]) then 1 else 0) + ReorderCount(server, Step(server, t, events[0]), events[1..])
  }

  function ChangeCount(events: seq<Event>): nat {
    if events == [] then 0 else (if ChangesSelection(events[0]) then 1 else 0) + ChangeCount(events[1..])
  }

  ghost function Unsettled(server: Server, t: Tab): nat {
    if Settled(server, Cart(t)) then 0 else 1
  }

  /** Whether the indicator may still write the cart that is stored. */
  function Unconfirmed(t: Tab): nat {
    if Cart(t) == [] || t.nav.confirmed == Some(Cart(t)) then 0 else 1
  }

  lemma OthersKeepStorage(server: Server, t: Tab, e: Event)
    requires !Writes(server, t, e) && !ChangesSelection(e)
    ensures Step(server, t, e).storage == t.storage
  {
    hide Quotation;
  }

  /** Nothing but a change of the selection or a write of the page makes the indicator unsure of a cart it confirmed. */
  lemma ConfirmedStays(server: Server, t: Tab, e: Event)
    requires Inv(server, t) && !Writes(server, t, e) && !ChangesSelection(e)
    ensures Unconfirmed(Step(server, t, e)) <= Unconfirmed(t)
  {
    OthersKeepStorage(server, t, e);
    hide Quotation, PageSound, Answer;
  }

  lemma WriteConfirms(server: Server, t: Tab, e: Event)
    requires Inv(server, t) && Writes(server, t, e)
    ensures Unconfirmed(t) == 1
    ensures e.NavResponds? ==> Unconfirmed(Step(server, t, e)) == 0
  {
    WrittenCart(server, t, e);
    WriteSettles(server, t, e);
    WriteComesUnconfirmed(server, t, e);
    hide Step;
  }

  lemma WriteComesUnconfirmed(server: Server, t: Tab, e: Event)
    requires Inv(server, t) && Writes(server, t, e)
    ensures Unconfirmed(t) == 1
  {
    WriteSettles(server, t, e);
    hide Step, Answer, PageSound;
    if e.NavResponds? {
      assert t.nav.confirmed.None?;
    }
  }

  /** Over every run, each change of the selection is followed by at most one shrinking write of the two components. */
  lemma {:induction false} ShrinkingEnds(server: Server, t: Tab, events: seq<Event>)
    requires Inv(server, t)
    ensures ShrinkCount(server, t, events) <= Unsettled(server, t) + ChangeCount(events)
    decreases |events|
  {
    if events != [] {
      var e := events[0];
      StepKeeps(server, t, e);
      if Writes(server, t, e) {
        WriteSettles(server, t, e);
      } else if !ChangesSelection(e) {
        OthersKeepStorage(server, t, e);
      }
      hide Inv, Settled, Step, Writes, Reorders;
      ShrinkingEnds(server, Step(server, t, e), events[1..]);
    }
  }

  /** And by at most one reordering write, however the database orders its rows each time. */
  lemma {:induction false} ReorderingEnds(server: Server, t: Tab, events: seq<Event>)
    requires Inv(server, t)
    ensures ReorderCount(server, t, events) <= Unconfirmed(t) + ChangeCount(events)
    decreases |events|
  {
    if events != [] {
      var e := events[0];
      StepKeeps(server, t, e);
      if Writes(server, t, e) {
        WriteConfirms(server, t, e);
      } else if !ChangesSelection(e) {
        ConfirmedStays(server, t, e);
      }
      hide Inv, Step, Writes, Cart;
      ReorderingEnds(server, Step(server, t, e), events[1..]);
    }
  }

  /** From the opening of the page on: one write of each sort for the stored cart, and one for each change of it. */
  lemma PruningEnds(server: Server, stored: Stored, events: seq<Event>)
    requires ValidServer(server)
    ensures ShrinkCount(server, Opened(stored), events) <= 1 + ChangeCount(events)
    ensures ReorderCount(server, Opened(stored), events) <= 1 + ChangeCount(events)
  {
    OpenedHolds(server, stored);
    ShrinkingEnds(server, Opened(stored), events);
    ReorderingEnds(server, Opened(stored), events);
  }
}
