/** The checkout page and its lock (lib/digital/checkout-operation.ts) in the form of their source. */
module CheckoutComponent {
  import opened Prelude
  import opened Checkout

  class OperationLock {
    var owner: Option<Provider>

    constructor ()
      ensures owner == None
    {
      owner := None;
    }

    method Claim(provider: Provider) returns (claimed: bool)
      modifies this
      ensures claimed == old(owner).None?
      ensures owner == if claimed then Some(provider) else old(owner)
    {
      if owner.Some? { return false; }
      owner := Some(provider);
      return true;
    }

    predicate IsOwnedBy(provider: Provider)
      reads this
    {
      owner == Some(provider)
    }

    method Release(provider: Provider) returns (released: bool)
      modifies this
      ensures released == (old(owner) == Some(provider))
      ensures owner == if released then None else old(owner)
    {
      if owner != Some(provider) { return false; }
      owner := None;
      return true;
    }
  }

  lemma OwnerCases(owner: Option<Provider>)
    ensures owner == None || owner == Some(Stripe) || owner == Some(Paypal)
  {
    if owner.Some? {
      assert owner.value.Stripe? || owner.value.Paypal?;
    }
  }

  /** The controlled inputs are one record; `sent` and `saves` record the requests made so far. */
  class DigitalCheckout {
    const props: Props
    const operation: OperationLock
    var form: Form
    var busy: bool
    var attemptNeedsReview: bool
    var address: Option<AddressRequest>
    var pendingOrderId: Option<nat>
    var key: Option<nat>
    var saveKey: Option<nat>
    var minted: nat
    var startedOrder: Option<nat>
    ghost var stripeRequests: nat
    ghost var paypalRequests: nat
    ghost var sent: seq<Sent>
    ghost var saves: seq<SentSave>

    ghost function View(): Page
      reads this, operation
    {
      Page(form, busy, attemptNeedsReview, address, pendingOrderId, key, saveKey, minted, operation.owner, startedOrder,
           stripeRequests, paypalRequests, sent, saves)
    }

    predicate Ready()
      reads this, operation
    {
      && props.contractReady && props.salesReady && props.payable
      && ResidenceReady(form) && form.residenceConfirmed && (!props.live || form.sameBilling)
      && form.termsAccepted && form.deliveryConsent && address.None? && !form.editingAddress && !attemptNeedsReview
    }

    constructor (props: Props, blank: nat)
      ensures this.props == props && fresh(operation) && View() == Opened(blank)
    {
      this.props := props;
      operation := new OperationLock();
      form := Form(false, false, blank, blank, blank, blank, blank, blank, false, true, false, false, None, false);
      busy, attemptNeedsReview, address, pendingOrderId := false, false, None, None;
      key, saveKey, minted, startedOrder := None, None, 0, None;
      stripeRequests, paypalRequests, sent, saves := 0, 0, [], [];
    }

    method Hydrate(value: Residence, preserveConfirmation: bool)
      modifies this
      ensures View() == Checkout.Hydrate(old(View()), value, preserveConfirmation)
    {
      var f := form;
      if !preserveConfirmation { f := f.(residenceConfirmed := false); }
      f := f.(editingAddress := false, residence := Some(value));
      if value.declaration.Some? {
        var d := value.declaration.value;
        f := f.(line1 := d.line1, city := d.city, residencePostalCode := d.postalCode,
                billingPostalCode := d.billingPostalCode);
        if !preserveConfirmation {
          var same := d.postalCode == d.billingPostalCode;
          f := f.(sameBilling := same, differentBilling := !same);
        }
      }
      f := f.(loaded := true);
      assert f == HydrateForm(form, value, preserveConfirmation);
      hide HydrateForm;
      form, key := f, None;
    }

    /** `changed` and the setter that follows it in the three residence fields. */
    method OnResidenceField(line1: Option<nat>, city: Option<nat>, postalCode: Option<nat>)
      modifies this
      ensures View() == if ResidenceEnabled(old(View()))
                        then Changed(old(View()), old(form).(line1 := GetOr(line1, old(form).line1),
                                       city := GetOr(city, old(form).city),
                                       residencePostalCode := GetOr(postalCode, old(form).residencePostalCode)))
                        else old(View())
    {
      if busy || address.Some? || !form.loaded || Compact(form) { return; }
      key, saveKey := None, None;
      form := form.(residenceConfirmed := false);
      form := form.(line1 := GetOr(line1, form.line1), city := GetOr(city, form.city),
                    residencePostalCode := GetOr(postalCode, form.residencePostalCode));
    }

    method OnChooseSameBilling(checked: bool)
      modifies this
      ensures View() == Step(props, old(View()), ChooseSameBilling(checked))
    {
      if busy || address.Some? || !form.loaded { return; }
      key, saveKey := None, None;
      form := form.(sameBilling := checked, differentBilling := !checked);
    }

    method OnBillingPostalCode(value: nat)
      modifies this
      ensures View() == Step(props, old(View()), EditBillingPostalCode(value))
    {
      if busy || address.Some? || !form.differentBilling || form.sameBilling { return; }
      key, saveKey := None, None;
      form := form.(billingPostalCode := value);
    }

    method OnTerms(accepted: bool)
      modifies this
      ensures View() == Step(props, old(View()), AcceptTerms(accepted))
    {
      if busy || !props.contractReady { return; }
      key := None;
      form := form.(termsAccepted := accepted);
    }

    method SaveResidence(wellFormed: bool)
      modifies this
      ensures View() == SaveStart(old(View()), wellFormed)
    {
      if !form.loaded || Compact(form) || !Dirty(form) || !form.residenceConfirmed || !wellFormed { return; }
      if address.Some? || busy { return; }
      address := Some(Saving);
      if saveKey.None? {
        saveKey := Some(minted);
        minted := minted + 1;
      }
      saves := saves + [SentSave(saveKey.value, SavePayloadOf(form))];
    }

    method OnResidenceSaved(saved: Option<Residence>)
      requires address == Some(Saving)
      modifies this
      ensures View() == SaveSettle(old(View()), saved)
    {
      if saved.Some? {
        Hydrate(saved.value, true);
        saveKey, key := None, None;
      }
      address := None;
    }

    method RequestCheckout(provider: Provider)
      requires Saved(form).Some?
      modifies this
      ensures View() == Request(props, old(View()), provider)
    {
      if key.None? {
        key := Some(minted);
        minted := minted + 1;
      }
      sent := sent + [Sent(key.value, provider, PayloadOf(props, form))];
      if provider.Stripe? { stripeRequests := stripeRequests + 1; } else { paypalRequests := paypalRequests + 1; }
    }

    method PayByCardOrLocal()
      modifies this, operation
      ensures View() == StripeStart(props, old(View()))
    {
      if !Ready() || busy { return; }
      var claimed := operation.Claim(Stripe);
      if !claimed { return; }
      busy := true;
      RequestCheckout(Stripe);
    }

    method OnCardAnswer(order: Option<nat>)
      requires stripeRequests > 0
      modifies this, operation
      ensures View() == StripeSettle(old(View()), order)
    {
      stripeRequests := stripeRequests - 1;
      if order.Some? { pendingOrderId := order; }
      var released := operation.Release(Stripe);
      if released { busy := false; }
    }

    method CreatePaypalOrder() returns (asked: bool)
      modifies this, operation
      ensures View() == PaypalCreate(props, old(View()))
      ensures asked == (old(operation.owner).None? && old(Ready()))
    {
      hide PayloadOf;
      var claimed := operation.Claim(Paypal);
      if !claimed { return false; }
      busy := true;
      if !Ready() {
        attemptNeedsReview := true;
        var released := operation.Release(Paypal);
        if released { busy := false; }
        return false;
      }
      RequestCheckout(Paypal);
      return true;
    }

    method OnPaypalOrder(order: Option<nat>, usable: bool, preflightRefused: bool)
      requires paypalRequests > 0
      modifies this, operation
      ensures View() == PaypalSettle(old(View()), order, usable, preflightRefused)
    {
      paypalRequests := paypalRequests - 1;
      if order.Some? {
        startedOrder, pendingOrderId := order, order;
        if usable { return; }
      }
      if startedOrder.Some? || order.Some? || !preflightRefused { attemptNeedsReview := true; }
      var released := operation.Release(Paypal);
      if released { busy := false; }
    }

    method EndPaypalOperation() returns (ended: bool)
      modifies this, operation
      ensures View() == PaypalEnd(old(View())) && ended == (old(operation.owner) != Some(Stripe))
    {
      OwnerCases(operation.owner);
      if operation.IsOwnedBy(Stripe) { return false; }
      var _ := operation.Release(Paypal);
      busy := false;
      return true;
    }

    method OnPaypalApproved(captured: bool)
      modifies this, operation
      ensures View() == Step(props, old(View()), PaypalApproved(captured))
    {
      if !captured { attemptNeedsReview := true; }
      var _ := EndPaypalOperation();
    }

    method OnPaypalCancel(order: Option<nat>)
      modifies this, operation
      ensures View() == Step(props, old(View()), PaypalCancels(order))
    {
      var ended := EndPaypalOperation();
      if !ended { return; }
      if order.Some? {
        pendingOrderId := order;
        attemptNeedsReview := true;
      }
    }

    method OnPaypalError()
      modifies this, operation
      ensures View() == Step(props, old(View()), PaypalErrors)
    {
      var ended := EndPaypalOperation();
      if !ended { return; }
      if startedOrder.Some? { attemptNeedsReview := true; }
    }
  }
}
