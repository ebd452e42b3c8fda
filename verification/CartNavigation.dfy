/**
 The site-wide cart indicator (components/digital-navigation.tsx): a debounced, numbered request for a quote, and a
 cached identity with its amount. The closure variables and the displayed states of the effect are one record.
 */
module CartNavigation {
  import opened Prelude
  import opened DigitalCartStorage

  /** One run of `update`: its request number and the ids it read. */
  datatype Fetch = Fetch(request: nat, ids: seq<OfferId>)

  datatype Nav = Nav(
    current: nat,
    key: seq<OfferId>,
    confirmed: Option<seq<OfferId>>,
    previousCount: nat,
    timer: Option<Fetch>,
    fetches: set<Fetch>,
    count: nat,
    checking: bool,
    needsReview: bool,
    totalCents: Option<int>,
    added: bool)

  /** `update`; an aborted fetch may still settle, which its request number makes harmless. */
  function Update(n: Nav, cart: seq<OfferId>): Nav {
    var started := n.(current := n.current + 1, key := cart, timer := None, count := |cart|, needsReview := false);
    if cart == [] then started.(confirmed := None, totalCents := None, checking := false)
    else if n.confirmed == Some(cart) then started.(checking := false)
    else started.(confirmed := None, totalCents := None, checking := true, timer := Some(Fetch(n.current + 1, cart)))
  }

  /** The listener of the page's own cart event. */
  function CartChanged(n: Nav, cart: seq<OfferId>): Nav {
    Update(n.(added := n.added || |cart| > n.previousCount, previousCount := |cart|), cart)
  }

  function FireTimer(n: Nav): Nav {
    match n.timer
    case None => n
    case Some(f) => n.(timer := None, fetches := n.fetches + {f})
  }

  /** A settled fetch up to the point where it may write the cart; `cart` is what storage holds then. */
  function Receive(n: Nav, f: Fetch, cart: seq<OfferId>, quoted: Option<(seq<OfferId>, int)>): Nav {
    var settled := n.(fetches := n.fetches - {f});
    match quoted
    case None => if f.request == n.current then settled.(checking := false, needsReview := true) else settled
    case Some((ids, total)) =>
      if f.request != n.current || cart != f.ids then settled
      else settled.(confirmed := Some(ids), count := |ids|, totalCents := Some(total), checking := false)
  }

  /** Whether that fetch then writes the quoted ids back to the cart. */
  predicate Prunes(n: Nav, f: Fetch, cart: seq<OfferId>, quoted: Option<(seq<OfferId>, int)>) {
    quoted.Some? && f.request == n.current && cart == f.ids && quoted.value.0 != f.ids
  }

  function WriteFailed(n: Nav): Nav {
    n.(checking := false, needsReview := true)
  }

  function Mounted(cart: seq<OfferId>): Nav {
    Update(Nav(0, [], None, |cart|, None, {}, 0, false, false, None, false), cart)
  }

  // ----- in the form of the source

  /** Local storage, shared by every listener of the page. */
  class BrowserStorage {
    var cart: Stored

    method WriteDigitalCart(ids: seq<OfferId>)
      modifies this
      ensures cart == Write(ids)
    {
      cart := Write(ids);
    }
  }

  class DigitalCartNavigation {
    const storage: BrowserStorage
    var current: nat
    var key: seq<OfferId>
    var confirmed: Option<seq<OfferId>>
    var previousCount: nat
    var timer: Option<Fetch>
    var fetches: set<Fetch>
    var count: nat
    var checking: bool
    var needsReview: bool
    var totalCents: Option<int>
    var added: bool

    function View(): Nav
      reads this
    {
      Nav(current, key, confirmed, previousCount, timer, fetches, count, checking, needsReview, totalCents, added)
    }

    constructor (storage: BrowserStorage)
      ensures this.storage == storage && View() == Mounted(Read(storage.cart))
    {
      this.storage := storage;
      current, key, confirmed, previousCount, timer, fetches := 0, [], None, |Read(storage.cart)|, None, {};
      count, checking, needsReview, totalCents, added := 0, false, false, None, false;
      new;
      RunUpdate();
    }

    method RunUpdate()
      modifies this
      ensures View() == Update(old(View()), Read(storage.cart))
    {
      var ids := Read(storage.cart);
      current := current + 1;
      key := ids;
      timer := None;
      count := |ids|;
      needsReview := false;
      if ids == [] {
        confirmed := None;
        totalCents := None;
        checking := false;
        return;
      }
      if confirmed == Some(ids) {
        checking := false;
        return;
      }
      confirmed := None;
      totalCents := None;
      checking := true;
      timer := Some(Fetch(current, ids));
    }

    method OnCartChanged()
      modifies this
      ensures View() == CartChanged(old(View()), Read(storage.cart))
    {
      var nextCount := |Read(storage.cart)|;
      if nextCount > previousCount { added := true; }
      previousCount := nextCount;
      RunUpdate();
    }

    method OnTimer()
      modifies this
      ensures View() == FireTimer(old(View()))
    {
      if timer.Some? {
        fetches := fetches + {timer.value};
        timer := None;
      }
    }

    /** The rest of the timer callback once its fetch settled. `writes` is false when storage refuses the write. */
    method OnResponse(f: Fetch, quoted: Option<(seq<OfferId>, int)>, writes: bool) returns (dispatched: bool)
      modifies this, storage
      ensures var cart := old(Read(storage.cart));
              var received := Receive(old(View()), f, cart, quoted);
              var prunes := Prunes(old(View()), f, cart, quoted);
              && dispatched == (prunes && writes)
              && storage.cart == (if dispatched then Write(quoted.value.0) else old(storage.cart))
              && View() == (if dispatched then CartChanged(received, Read(storage.cart))
                            else if prunes then WriteFailed(received) else received)
    {
      dispatched := false;
      fetches := fetches - {f};
      if quoted.None? {
        if f.request == current {
          checking := false;
          needsReview := true;
        }
        return;
      }
      var (ids, total) := quoted.value;
      if f.request != current || Read(storage.cart) != f.ids { return; }
      confirmed := Some(ids);
      count := |ids|;
      totalCents := Some(total);
      checking := false;
      if confirmed != Some(f.ids) {
        if writes {
          storage.WriteDigitalCart(ids);
          OnCartChanged();
          dispatched := true;
        } else if f.request == current {
          checking := false;
          needsReview := true;
        }
      }
    }
  }
}
