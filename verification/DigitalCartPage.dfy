/** The cart page (components/digital-cart.tsx): `refresh` with its serial number and its re-entrant pruning write. */
module DigitalCartPage {
  import opened Prelude
  import opened DigitalCartStorage
  import opened CartNavigation
  import opened DigitalQuote

  datatype Page = Page(
    serial: nat,
    key: seq<OfferId>,
    initialTimer: bool,
    fetches: set<Fetch>,
    value: Option<Quote>,
    failed: bool,
    updating: bool,
    noticed: bool)

  function Refresh(p: Page, cart: seq<OfferId>): Page {
    p.(serial := p.serial + 1, key := cart, fetches := p.fetches + {Fetch(p.serial + 1, cart)}, updating := true)
  }

  function FireInitial(p: Page, cart: seq<OfferId>): Page {
    if p.initialTimer then Refresh(p.(initialTimer := false), cart) else p
  }

  /** A settled request up to the point where it may write the cart; `Refused` stands for any failure. */
  function ReceiveQuote(p: Page, f: Fetch, cart: seq<OfferId>, answer: Quote): Page {
    var settled := p.(fetches := p.fetches - {f});
    if f.request != p.serial then settled
    else if answer.Refused? then settled.(failed := true, value := None, updating := false)
    else if cart != f.ids then settled.(updating := false)
    else if answer.removed == [] then settled.(value := Some(answer), failed := false, updating := false)
    else settled.(value := Some(answer), failed := false, noticed := true)
  }

  predicate PrunesPage(p: Page, f: Fetch, cart: seq<OfferId>, answer: Quote) {
    f.request == p.serial && answer.Quoted? && cart == f.ids && answer.removed != []
  }

  function PageWriteFailed(p: Page): Page {
    p.(failed := true, value := None, updating := false)
  }

  function MountedPage(): Page {
    Page(0, [], true, {}, None, false, true, false)
  }

  /** The button to the checkout is enabled. */
  predicate CheckoutEnabled(p: Page) {
    !p.updating && p.value.Some? && p.value.value.Quoted? && p.value.value.lines != [] && !p.failed
  }

  class DigitalCart {
    const storage: BrowserStorage
    var serial: nat
    var key: seq<OfferId>
    var initialTimer: bool
    var fetches: set<Fetch>
    var value: Option<Quote>
    var failed: bool
    var updating: bool
    var noticed: bool

    function View(): Page
      reads this
    {
      Page(serial, key, initialTimer, fetches, value, failed, updating, noticed)
    }

    constructor (storage: BrowserStorage)
      ensures this.storage == storage && View() == MountedPage()
    {
      this.storage := storage;
      serial, key, initialTimer, fetches := 0, [], true, {};
      value, failed, updating, noticed := None, false, true, false;
    }

    method RunRefresh()
      modifies this
      ensures View() == Refresh(old(View()), Read(storage.cart))
    {
      serial := serial + 1;
      var ids := Read(storage.cart);
      key := ids;
      updating := true;
      fetches := fetches + {Fetch(serial, ids)};
    }

    method OnInitialTimer()
      modifies this
      ensures View() == FireInitial(old(View()), Read(storage.cart))
    {
      if initialTimer {
        initialTimer := false;
        RunRefresh();
      }
    }

    /** The rest of `refresh` once its request settled, with its `catch` and its `finally`. */
    method OnResponse(f: Fetch, answer: Quote, writes: bool) returns (dispatched: bool)
      modifies this, storage
      ensures var cart := old(Read(storage.cart));
              var received := ReceiveQuote(old(View()), f, cart, answer);
              var prunes := PrunesPage(old(View()), f, cart, answer);
              && dispatched == (prunes && writes)
              && storage.cart == (if dispatched then Write(Ids(answer.lines)) else old(storage.cart))
              && View() == (if dispatched then Refresh(received, Read(storage.cart))
                            else if prunes then PageWriteFailed(received) else received)
    {
      dispatched := false;
      fetches := fetches - {f};
      var n := f.request;
      var thrown := answer.Refused?;
      if !thrown && n == serial && Read(storage.cart) == f.ids {
        value := Some(answer);
        failed := false;
        if |answer.removed| > 0 {
          noticed := true;
          if writes {
            storage.WriteDigitalCart(Ids(answer.lines));
            dispatched := true;
            RunRefresh();
          } else {
            thrown := true;
          }
        }
      }
      if thrown && n == serial {
        failed := true;
        value := None;
      }
      if n == serial {
        updating := false;
      }
    }
  }
}
