/**
 The digital checkout page (components/digital-checkout.tsx): one idempotency key for every payment request, another for
 saving the address, and one lock for two payment providers whose callbacks may come late.
 */
module Checkout {
  import opened Prelude

  datatype Provider = Stripe | Paypal

  datatype Declaration = Declaration(
    id: nat, line1: nat, city: nat, postalCode: nat, addressHash: nat, billingPostalCode: nat)

  /** `eligible` stands for the two conditions under which the page lets this residence pay. */
  datatype Residence = Residence(declaration: Option<Declaration>, eligible: bool)

  /** The properties the page was rendered with, as far as they decide something. */
  datatype Props = Props(live: bool, contractReady: bool, salesReady: bool, payable: bool)

  datatype BillingAddress = BillingAddress(line1: nat, city: nat, postalCode: nat)

  /** The fields of a payment request that the page can change, but for the provider. */
  datatype Payload = Payload(
    termsAccepted: bool, deliveryConsent: bool, sameBilling: Option<bool>, billingAddress: Option<BillingAddress>,
    residencePostalCode: nat, billingPostalCode: nat, residenceConfirmed: bool, declarationId: nat, addressHash: nat)

  datatype SavePayload = SavePayload(
    line1: nat, city: nat, postalCode: nat, billingPostalCode: nat, residenceConfirmed: bool,
    expectedDeclarationId: Option<nat>)

  datatype Sent = Sent(key: nat, provider: Provider, payload: Payload)
  datatype SentSave = SentSave(key: nat, payload: SavePayload)

  datatype AddressRequest = Saving | Refreshing

  datatype Form = Form(
    termsAccepted: bool, deliveryConsent: bool, line1: nat, city: nat, residencePostalCode: nat,
    billingLine1: nat, billingCity: nat, billingPostalCode: nat,
    residenceConfirmed: bool, sameBilling: bool, differentBilling: bool, editingAddress: bool,
    residence: Option<Residence>, loaded: bool)

  datatype Page = Page(
    form: Form, busy: bool, attemptNeedsReview: bool, address: Option<AddressRequest>, pendingOrder: Option<nat>,
    key: Option<nat>, saveKey: Option<nat>, minted: nat, owner: Option<Provider>, startedOrder: Option<nat>,
    stripeRequests: nat, paypalRequests: nat, sent: seq<Sent>, saves: seq<SentSave>)

  datatype Event =
    | Loads(initial: Option<Residence>)
    | EditLine1(line1: nat) | EditCity(city: nat) | EditPostalCode(postalCode: nat)
    | ChooseSameBilling(same: bool) | UseOtherBilling
    | EditBillingLine1(billingLine1: nat) | EditBillingCity(billingCity: nat) | EditBillingPostalCode(billingPostalCode: nat)
    | ConfirmResidence(confirmed: bool) | AcceptTerms(accepted: bool) | ConsentDelivery(consent: bool)
    | EditAddress(editing: bool)
    | SaveStarts(wellFormed: bool) | SaveSettles(saved: Option<Residence>)
    | RefreshStarts | RefreshSettles(refreshed: Option<Residence>)
    | StripeStarts | StripeSettles(stripeOrder: Option<nat>)
    | PaypalCreates | PaypalCreated(paypalOrder: Option<nat>, usable: bool, preflightRefused: bool)
    | PaypalApproved(captured: bool) | PaypalCancels(cancelledOrder: Option<nat>) | PaypalErrors

  // ----- what the page derives from its state

  function Saved(f: Form): Option<Declaration> {
    if f.residence.Some? then f.residence.value.declaration else None
  }

  function EffectiveBilling(f: Form): nat {
    if f.sameBilling then f.residencePostalCode else f.billingPostalCode
  }

  predicate Dirty(f: Form) {
    var d := Saved(f);
    d.None? || d.value.line1 != f.line1 || d.value.city != f.city || d.value.postalCode != f.residencePostalCode
    || d.value.billingPostalCode != EffectiveBilling(f)
  }

  predicate ResidenceReady(f: Form) {
    Saved(f).Some? && !Dirty(f) && f.residence.value.eligible
  }

  predicate Compact(f: Form) {
    f.loaded && ResidenceReady(f) && !f.editingAddress
  }

  predicate PaymentReady(props: Props, p: Page) {
    && props.contractReady && props.salesReady && props.payable
    && ResidenceReady(p.form) && p.form.residenceConfirmed && (!props.live || p.form.sameBilling)
    && p.form.termsAccepted && p.form.deliveryConsent && p.address.None? && !p.form.editingAddress
    && !p.attemptNeedsReview
  }

  function PayloadOf(props: Props, f: Form): Payload
    requires Saved(f).Some?
  {
    Payload(f.termsAccepted, f.deliveryConsent,
            if props.live then Some(f.sameBilling) else None,
            if props.live && !f.sameBilling
            then Some(BillingAddress(f.billingLine1, f.billingCity, f.billingPostalCode)) else None,
            f.residencePostalCode, EffectiveBilling(f), f.residenceConfirmed, Saved(f).value.id, Saved(f).value.addressHash)
  }

  function SavePayloadOf(f: Form): SavePayload {
    SavePayload(f.line1, f.city, f.residencePostalCode, EffectiveBilling(f), f.residenceConfirmed,
                if Saved(f).Some? then Some(Saved(f).value.id) else None)
  }

  // ----- the handlers

  function HydrateForm(f: Form, r: Residence, preserve: bool): Form {
    var base := f.(residenceConfirmed := preserve && f.residenceConfirmed, editingAddress := false, residence := Some(r),
                   loaded := true);
    if r.declaration.None? then base
    else
      var d := r.declaration.value;
      var same := d.postalCode == d.billingPostalCode;
      base.(line1 := d.line1, city := d.city, residencePostalCode := d.postalCode, billingPostalCode := d.billingPostalCode,
            sameBilling := if preserve then f.sameBilling else same,
            differentBilling := if preserve then f.differentBilling else !same)
  }

  function Hydrate(p: Page, r: Residence, preserve: bool): Page {
    p.(form := HydrateForm(p.form, r, preserve), key := None)
  }

  predicate Idle(p: Page) {
    !p.busy && p.address.None?
  }

  /** The residence fields are shown and enabled. */
  predicate ResidenceEnabled(p: Page) {
    Idle(p) && p.form.loaded && !Compact(p.form)
  }

  /** So are the fields of another billing address. */
  predicate BillingEnabled(p: Page) {
    Idle(p) && p.form.differentBilling && !p.form.sameBilling
  }

  /** `changed` and the setter after it. */
  function Changed(p: Page, f: Form): Page {
    p.(form := f.(residenceConfirmed := false), key := None, saveKey := None)
  }

  function SaveStart(p: Page, wellFormed: bool): Page {
    if !ResidenceEnabled(p) || !Dirty(p.form) || !p.form.residenceConfirmed || !wellFormed then p
    else
      var k := if p.saveKey.Some? then p.saveKey.value else p.minted;
      p.(address := Some(Saving), saveKey := Some(k), minted := if p.saveKey.Some? then p.minted else p.minted + 1,
         saves := p.saves + [SentSave(k, SavePayloadOf(p.form))])
  }

  function SaveSettle(p: Page, saved: Option<Residence>): Page {
    if p.address != Some(Saving) then p
    else if saved.None? then p.(address := None)
    else Hydrate(p, saved.value, true).(saveKey := None, address := None)
  }

  function RefreshSettle(p: Page, refreshed: Option<Residence>): Page {
    if p.address != Some(Refreshing) then p
    else if refreshed.None? then p.(address := None)
    else Hydrate(p, refreshed.value, false).(address := None)
  }

  /** `requestCheckout`, once it is allowed. */
  function Request(props: Props, p: Page, provider: Provider): Page
    requires Saved(p.form).Some?
  {
    var k := if p.key.Some? then p.key.value else p.minted;
    p.(key := Some(k), minted := if p.key.Some? then p.minted else p.minted + 1,
       sent := p.sent + [Sent(k, provider, PayloadOf(props, p.form))],
       stripeRequests := p.stripeRequests + (if provider.Stripe? then 1 else 0),
       paypalRequests := p.paypalRequests + (if provider.Paypal? then 1 else 0))
  }

  /** The lock's `release`, with the `busy` flag that follows it. */
  function Release(p: Page, provider: Provider): Page {
    if p.owner == Some(provider) then p.(owner := None, busy := false) else p
  }

  function StripeStart(props: Props, p: Page): Page {
    if !PaymentReady(props, p) || p.busy || p.owner.Some? then p
    else Request(props, p.(owner := Some(Stripe), busy := true), Stripe)
  }

  function StripeSettle(p: Page, order: Option<nat>): Page {
    if p.stripeRequests == 0 then p
    else
      Release(p.(stripeRequests := p.stripeRequests - 1, pendingOrder := if order.Some? then order else p.pendingOrder),
              Stripe)
  }

  /** `createPaypalOrder`; a page that is not ready throws before it asks, which the page cannot tell from a failure. */
  function PaypalCreate(props: Props, p: Page): Page {
    if p.owner.Some? then p
    else if !PaymentReady(props, p) then p.(attemptNeedsReview := true, busy := false)
    else Request(props, p.(owner := Some(Paypal), busy := true), Paypal)
  }

  function PaypalSettle(p: Page, order: Option<nat>, usable: bool, preflightRefused: bool): Page {
    if p.paypalRequests == 0 then p
    else
      var settled := p.(paypalRequests := p.paypalRequests - 1,
                        startedOrder := if order.Some? then order else p.startedOrder,
                        pendingOrder := if order.Some? then order else p.pendingOrder);
      if order.Some? && usable then settled
      else
        var thrown := settled.(attemptNeedsReview := settled.attemptNeedsReview || settled.startedOrder.Some?
                                                     || order.Some? || !preflightRefused);
        Release(thrown, Paypal)
  }

  /** `endPaypalOperation`. */
  function PaypalEnd(p: Page): Page {
    if p.owner == Some(Stripe) then p else p.(owner := None, busy := false)
  }

  function FormStep(props: Props, p: Page, e: Event): Page {
    var f := p.form;
    match e
    case Loads(initial) =>
      if f.loaded then p
      else if initial.None? then p.(form := f.(loaded := true)) else Hydrate(p, initial.value, false)
    case EditLine1(v) => if ResidenceEnabled(p) then Changed(p, f.(line1 := v)) else p
    case EditCity(v) => if ResidenceEnabled(p) then Changed(p, f.(city := v)) else p
    case EditPostalCode(v) => if ResidenceEnabled(p) then Changed(p, f.(residencePostalCode := v)) else p
    case ChooseSameBilling(same) =>
      if Idle(p) && f.loaded
      then p.(form := f.(sameBilling := same, differentBilling := !same), key := None, saveKey := None) else p
    case UseOtherBilling =>
      if Idle(p) && !f.sameBilling && !f.differentBilling then p.(form := f.(differentBilling := true), key := None) else p
    case EditBillingLine1(v) => if BillingEnabled(p) then p.(form := f.(billingLine1 := v), key := None) else p
    case EditBillingCity(v) => if BillingEnabled(p) then p.(form := f.(billingCity := v), key := None) else p
    case EditBillingPostalCode(v) =>
      if BillingEnabled(p) then p.(form := f.(billingPostalCode := v), key := None, saveKey := None) else p
    case ConfirmResidence(v) => if Idle(p) && f.loaded then p.(form := f.(residenceConfirmed := v), key := None) else p
    case AcceptTerms(v) => if p.busy || !props.contractReady then p else p.(form := f.(termsAccepted := v), key := None)
    case ConsentDelivery(v) => if p.busy then p else p.(form := f.(deliveryConsent := v), key := None)
    case EditAddress(v) =>
      if Idle(p) && (if v then Compact(f) else f.editingAddress && ResidenceReady(f))
      then p.(form := f.(editingAddress := v)) else p
    case _ => p
  }

  function AddressStep(p: Page, e: Event): Page {
    match e
    case SaveStarts(wellFormed) => SaveStart(p, wellFormed)
    case SaveSettles(saved) => SaveSettle(p, saved)
    case RefreshStarts => if ResidenceEnabled(p) then p.(address := Some(Refreshing)) else p
    case RefreshSettles(refreshed) => RefreshSettle(p, refreshed)
    case _ => p
  }

  function PaymentStep(props: Props, p: Page, e: Event): Page {
    match e
    case StripeStarts => StripeStart(props, p)
    case StripeSettles(order) => StripeSettle(p, order)
    case PaypalCreates => PaypalCreate(props, p)
    case PaypalCreated(order, usable, preflightRefused) => PaypalSettle(p, order, usable, preflightRefused)
    case PaypalApproved(captured) =>
      PaypalEnd(p.(attemptNeedsReview := p.attemptNeedsReview || !captured))
    case PaypalCancels(order) =>
      if p.owner == Some(Stripe) then p
      else
        var ended := PaypalEnd(p);
        if order.Some? then ended.(pendingOrder := order, attemptNeedsReview := true) else ended
    case PaypalErrors =>
      if p.owner == Some(Stripe) then p
      else PaypalEnd(p).(attemptNeedsReview := p.attemptNeedsReview || p.startedOrder.Some?)
    case _ => p
  }

  predicate Pays(e: Event) {
    e.StripeStarts? || e.StripeSettles? || PaypalCallback(e)
  }

  predicate PaypalCallback(e: Event) {
    e.PaypalCreates? || e.PaypalCreated? || e.PaypalApproved? || e.PaypalCancels? || e.PaypalErrors?
  }

  predicate AsksAddress(e: Event) {
    e.SaveStarts? || e.SaveSettles? || e.RefreshStarts? || e.RefreshSettles?
  }

  function Step(props: Props, p: Page, e: Event): Page {
    if Pays(e) then PaymentStep(props, p, e)
    else if AsksAddress(e) then AddressStep(p, e)
    else FormStep(props, p, e)
  }

  function Opened(blank: nat): Page {
    Page(Form(false, false, blank, blank, blank, blank, blank, blank, false, true, false, false, None, false),
         false, false, None, None, None, None, 0, None, None, 0, 0, [], [])
  }

  function Run(props: Props, p: Page, events: seq<Event>): Page
    decreases |events|
  {
    if events == [] then p else Run(props, Step(props, p, events[0]), events[1..])
  }

  // ----- what every step keeps

  /** The key in use stands for the payload that would be sent now. */
  ghost predicate KeyBound(props: Props, p: Page) {
    && (forall i :: 0 <= i < |p.sent| ==> p.sent[i].key < p.minted)
    && (p.key.Some? ==> p.key.value < p.minted && Saved(p.form).Some?
                        && forall i :: 0 <= i < |p.sent| && p.sent[i].key == p.key.value ==>
                                         p.sent[i].payload == PayloadOf(props, p.form))
  }

  ghost predicate SentAgree(p: Page) {
    forall i, j :: 0 <= i < j < |p.sent| && p.sent[i].key == p.sent[j].key ==> p.sent[i].payload == p.sent[j].payload
  }

  /** The lock and the requests: only the owner has a Stripe request, and exactly one. */
  predicate LockSound(p: Page) {
    && (p.busy <==> p.owner.Some?)
    && p.stripeRequests == (if p.owner == Some(Stripe) then 1 else 0)
  }

  ghost predicate Inv(props: Props, p: Page) {
    KeyBound(props, p) && SentAgree(p) && LockSound(p)
  }

  lemma RequestKeeps(props: Props, p: Page, provider: Provider)
    requires Saved(p.form).Some? && KeyBound(props, p) && SentAgree(p)
    ensures KeyBound(props, Request(props, p, provider)) && SentAgree(Request(props, p, provider))
  {
    var r := Request(props, p, provider);
    assert forall i :: 0 <= i < |p.sent| ==> r.sent[i] == p.sent[i];
    hide PayloadOf;
  }

  /** Only the payment and address requests are sent by these. */
  predicate Sends(e: Event) {
    e.StripeStarts? || e.PaypalCreates? || e.SaveStarts?
  }

  /** The fields of a form that a payment request may carry. */
  predicate SameFields(f: Form, g: Form) {
    g == f.(editingAddress := g.editingAddress, loaded := g.loaded)
  }

  /** Each form handler drops the key, or keeps it and every field that a payment request may carry. */
  lemma SettersDropTheKey(props: Props, p: Page, e: Event)
    ensures var after := FormStep(props, p, e);
            && after.sent == p.sent && after.minted == p.minted
            && (after.key.None? || (after.key == p.key && SameFields(p.form, after.form)))
  {
    hide ResidenceReady, Compact, HydrateForm, ResidenceEnabled, BillingEnabled, Idle;
  }

  lemma AddressDropsTheKey(props: Props, p: Page, e: Event)
    requires !Sends(e)
    ensures var after := AddressStep(p, e);
            && after.sent == p.sent && after.minted == p.minted
            && (after.key.None? || (after.key == p.key && after.form == p.form))
  {
    hide ResidenceReady, Compact, HydrateForm;
  }

  lemma AnswersKeepTheKey(props: Props, p: Page, e: Event)
    requires !Sends(e)
    ensures var after := PaymentStep(props, p, e);
            after.sent == p.sent && after.minted == p.minted && after.key == p.key && after.form == p.form
  {
  }

  lemma PayloadIgnoresLayout(props: Props, f: Form, g: Form)
    requires SameFields(f, g)
    ensures Saved(g) == Saved(f) && (Saved(f).Some? ==> PayloadOf(props, g) == PayloadOf(props, f))
  {
  }

  lemma KeyStaysBound(props: Props, p: Page, e: Event)
    requires KeyBound(props, p) && SentAgree(p)
    ensures KeyBound(props, Step(props, p, e)) && SentAgree(Step(props, p, e))
  {
    if Sends(e) {
      var taken := p.(owner := if e.StripeStarts? then Some(Stripe) else Some(Paypal), busy := true);
      if Saved(p.form).Some? {
        RequestKeeps(props, taken, Stripe);
        RequestKeeps(props, taken, Paypal);
      }
      hide KeyBound, SentAgree, Request, PayloadOf;
      SendingKeeps(props, p, e, taken);
    } else {
      SettersDropTheKey(props, p, e);
      AddressDropsTheKey(props, p, e);
      AnswersKeepTheKey(props, p, e);
      hide FormStep, AddressStep, PaymentStep;
      var after := Step(props, p, e);
      if after.key.Some? {
        PayloadIgnoresLayout(props, p.form, after.form);
      }
      hide PayloadOf;
    }
  }

  lemma SendingKeeps(props: Props, p: Page, e: Event, taken: Page)
    requires Sends(e) && KeyBound(props, p) && SentAgree(p)
    requires taken == p.(owner := if e.StripeStarts? then Some(Stripe) else Some(Paypal), busy := true)
    requires Saved(p.form).Some? ==>
               && KeyBound(props, Request(props, taken, Stripe)) && SentAgree(Request(props, taken, Stripe))
               && KeyBound(props, Request(props, taken, Paypal)) && SentAgree(Request(props, taken, Paypal))
    ensures KeyBound(props, Step(props, p, e)) && SentAgree(Step(props, p, e))
  {
    hide PayloadOf, Request, SavePayloadOf;
  }

  predicate SameLock(p: Page, after: Page) {
    && after.owner == p.owner && after.busy == p.busy && after.sent == p.sent
    && after.stripeRequests == p.stripeRequests && after.paypalRequests == p.paypalRequests
    && after.attemptNeedsReview == p.attemptNeedsReview
  }

  lemma FormsKeepTheLock(props: Props, p: Page, e: Event)
    ensures SameLock(p, FormStep(props, p, e))
  {
    hide HydrateForm, Compact, ResidenceReady, ResidenceEnabled, BillingEnabled, Idle;
  }

  /** The lock, the requests under it and the review flag are the business of the payment handlers alone. */
  lemma OnlyPaymentsTouchTheLock(props: Props, p: Page, e: Event)
    requires !Pays(e)
    ensures SameLock(p, Step(props, p, e))
  {
    FormsKeepTheLock(props, p, e);
    hide SavePayloadOf, HydrateForm, Dirty, Compact, ResidenceReady, FormStep;
  }

  lemma LockStaysSound(props: Props, p: Page, e: Event)
    requires LockSound(p)
    ensures LockSound(Step(props, p, e))
  {
    if !Pays(e) {
      OnlyPaymentsTouchTheLock(props, p, e);
      hide Step;
    }
    hide PayloadOf, PaymentReady, FormStep, AddressStep;
  }

  lemma StepKeeps(props: Props, p: Page, e: Event)
    requires Inv(props, p)
    ensures Inv(props, Step(props, p, e))
  {
    KeyStaysBound(props, p, e);
    LockStaysSound(props, p, e);
    hide KeyBound, SentAgree, LockSound, Step;
  }

  lemma {:induction false} RunKeeps(props: Props, p: Page, events: seq<Event>)
    requires Inv(props, p)
    ensures Inv(props, Run(props, p, events))
    decreases |events|
  {
    hide Inv, Step;
    if events != [] {
      StepKeeps(props, p, events[0]);
      RunKeeps(props, Step(props, p, events[0]), events[1..]);
    }
  }

  // ----- over whole runs

  /** Two payment requests under one key agree on every field but the provider, whatever happened between them. */
  lemma SameKeySamePayload(props: Props, blank: nat, events: seq<Event>, i: nat, j: nat)
    ensures var p := Run(props, Opened(blank), events);
            i < |p.sent| && j < |p.sent| && p.sent[i].key == p.sent[j].key ==> p.sent[i].payload == p.sent[j].payload
  {
    RunKeeps(props, Opened(blank), events);
  }

  /** A payment is running exactly while a provider owns the operation, and Stripe owns it exactly while it is asked. */
  lemma BusyIsOwned(props: Props, blank: nat, events: seq<Event>)
    ensures var p := Run(props, Opened(blank), events);
            && (p.busy <==> p.owner.Some?)
            && (p.owner == Some(Stripe) <==> p.stripeRequests == 1) && p.stripeRequests <= 1
  {
    RunKeeps(props, Opened(blank), events);
  }

  /** No callback of PayPal, however late, touches a Stripe operation; only the answer of Stripe's request ends it. */
  lemma PaypalNeverReleasesStripe(props: Props, p: Page, e: Event)
    requires LockSound(p) && p.owner == Some(Stripe)
    ensures PaypalCallback(e) ==>
              var after := Step(props, p, e);
              after.owner == Some(Stripe) && after.busy && after.sent == p.sent && after.stripeRequests == 1
    ensures Step(props, p, e).owner != Some(Stripe) <==> e.StripeSettles?
  {
    hide PayloadOf, SavePayloadOf, HydrateForm, Dirty;
  }

  // ----- how many requests are out at once

  function Outstanding(p: Page): nat {
    p.stripeRequests + p.paypalRequests
  }

  /** A PayPal operation that is ended while its order is still being created. */
  predicate EndsEarly(p: Page, e: Event) {
    p.owner == Some(Paypal) && p.paypalRequests > 0 && (e.PaypalApproved? || e.PaypalCancels? || e.PaypalErrors?)
  }

  predicate NeverEndsEarly(props: Props, p: Page, events: seq<Event>)
    decreases |events|
  {
    events == [] || (!EndsEarly(p, events[0]) && NeverEndsEarly(props, Step(props, p, events[0]), events[1..]))
  }

  predicate OneAtATime(p: Page) {
    LockSound(p) && p.paypalRequests <= 1 && (p.paypalRequests == 1 ==> p.owner == Some(Paypal))
  }

  lemma OneAtATimeStays(props: Props, p: Page, e: Event)
    requires OneAtATime(p) && !EndsEarly(p, e)
    ensures OneAtATime(Step(props, p, e))
  {
    if !Pays(e) {
      OnlyPaymentsTouchTheLock(props, p, e);
      hide Step;
    }
    hide PayloadOf, PaymentReady, FormStep, AddressStep;
  }

  /** As long as PayPal is not left before its order is created, at most one payment request is out. */
  lemma {:induction false} OneRequestAtATime(props: Props, p: Page, events: seq<Event>)
    requires OneAtATime(p) && NeverEndsEarly(props, p, events)
    ensures OneAtATime(Run(props, p, events)) && Outstanding(Run(props, p, events)) <= 1
    decreases |events|
  {
    if events != [] {
      OneAtATimeStays(props, p, events[0]);
      hide OneAtATime, Step, EndsEarly;
      OneRequestAtATime(props, Step(props, p, events[0]), events[1..]);
    }
  }

  /** From the opened page on: no run in which PayPal is never left too early has two requests out. */
  lemma OpenedPageAsksOnce(props: Props, blank: nat, events: seq<Event>)
    requires NeverEndsEarly(props, Opened(blank), events)
    ensures Outstanding(Run(props, Opened(blank), events)) <= 1
  {
    OneRequestAtATime(props, Opened(blank), events);
  }

  /** What the callback itself tells: a cancelled order it cannot name, an error before any order, a captured payment. */
  predicate LeavesNothingOpen(p: Page, e: Event) {
    match e
    case PaypalCancels(order) => order.None?
    case PaypalErrors => p.startedOrder.None?
    case PaypalApproved(captured) => captured
    case _ => false
  }

  /**
   The condition is exact: with a PayPal order being created on a page ready to pay, a callback of PayPal lets a second
   request go out at once, under the same key and to the other provider, if and only if it is a cancellation without an
   order, an error while no order has been started on this page, or an approval whose payment was captured.
   */
  lemma SecondRequestExactly(props: Props, p: Page, e: Event)
    requires Inv(props, p) && p.owner == Some(Paypal) && p.paypalRequests == 1 && p.key.Some? && PaymentReady(props, p)
    requires e.PaypalApproved? || e.PaypalCancels? || e.PaypalErrors?
    ensures EndsEarly(p, e)
    ensures var ended := Step(props, p, e);
            var after := Step(props, ended, StripeStarts);
            && (Outstanding(after) == 2 <==> LeavesNothingOpen(p, e))
            && (Outstanding(after) == 2 ==> after.sent == p.sent + [Sent(p.key.value, Stripe, PayloadOf(props, p.form))])
  {
    hide KeyBound, SentAgree, HydrateForm, Dirty, PayloadOf;
  }

  /** Once an attempt needs a review no further payment is asked on this page, and it stays so. */
  lemma {:induction false} ReviewStopsPayments(props: Props, p: Page, events: seq<Event>)
    requires p.attemptNeedsReview
    ensures Run(props, p, events).attemptNeedsReview && Run(props, p, events).sent == p.sent
    decreases |events|
  {
    if events != [] {
      ReviewStops(props, p, events[0]);
      hide Step;
      ReviewStopsPayments(props, Step(props, p, events[0]), events[1..]);
    }
  }

  lemma ReviewStops(props: Props, p: Page, e: Event)
    requires p.attemptNeedsReview
    ensures Step(props, p, e).attemptNeedsReview && Step(props, p, e).sent == p.sent
  {
    if !Pays(e) {
      OnlyPaymentsTouchTheLock(props, p, e);
      hide Step;
    }
    hide PayloadOf, FormStep, AddressStep;
  }

  // ----- the key of the address

  /** While the address could be saved, the key in use stands for what would be sent. */
  ghost predicate SaveKeyBound(p: Page) {
    && (forall i :: 0 <= i < |p.saves| ==> p.saves[i].key < p.minted && p.saves[i].payload.residenceConfirmed)
    && (p.saveKey.Some? ==>
          && p.saveKey.value < p.minted && p.form.loaded
          && (Dirty(p.form) ==> forall i :: 0 <= i < |p.saves| && p.saves[i].key == p.saveKey.value ==>
                p.saves[i].payload == SavePayloadOf(p.form).(residenceConfirmed := true)))
  }

  ghost predicate SavesAgree(p: Page) {
    forall i, j :: 0 <= i < j < |p.saves| && p.saves[i].key == p.saves[j].key ==> p.saves[i].payload == p.saves[j].payload
  }

  /** A refresh that finds no declaration where there was one, while the key of an unanswered save is kept. */
  predicate ForgetsDeclaration(p: Page, e: Event) {
    && e.RefreshSettles? && p.address == Some(Refreshing) && e.refreshed.Some? && e.refreshed.value.declaration.None?
    && Saved(p.form).Some? && p.saveKey.Some?
  }

  /** Hydrating from a declaration leaves nothing to save. */
  lemma HydratedIsClean(f: Form, r: Residence)
    requires r.declaration.Some?
    ensures !Dirty(HydrateForm(f, r, false)) && HydrateForm(f, r, false).loaded
  {
  }

  /** What a save would send, and whether it could: kept apart from the confirmation, or the key is gone. */
  ghost predicate SaveFollows(p: Page, after: Page) {
    && after.saves == p.saves && after.minted >= p.minted
    && (after.saveKey.Some? ==>
          && after.saveKey == p.saveKey && after.form.loaded
          && (Dirty(after.form) ==>
                Dirty(p.form)
                && SavePayloadOf(after.form) ==
                   SavePayloadOf(p.form).(residenceConfirmed := after.form.residenceConfirmed)))
  }

  /** The fields that a save would send, but for the confirmation. */
  predicate SameAddress(f: Form, g: Form) {
    g == f.(residenceConfirmed := g.residenceConfirmed, differentBilling := g.differentBilling,
            billingLine1 := g.billingLine1, billingCity := g.billingCity, termsAccepted := g.termsAccepted,
            deliveryConsent := g.deliveryConsent, editingAddress := g.editingAddress)
  }

  lemma SameAddressSamePayload(f: Form, g: Form)
    requires SameAddress(f, g)
    ensures Dirty(g) == Dirty(f)
    ensures SavePayloadOf(g) == SavePayloadOf(f).(residenceConfirmed := g.residenceConfirmed)
  {
  }

  lemma SettersKeepTheAddress(props: Props, p: Page, e: Event)
    requires p.saveKey.Some? ==> p.form.loaded
    ensures var after := FormStep(props, p, e);
            && after.saves == p.saves && after.minted == p.minted
            && (after.saveKey.None? || (after.saveKey == p.saveKey && SameAddress(p.form, after.form)))
  {
    hide ResidenceReady, Compact, HydrateForm, ResidenceEnabled, BillingEnabled, Idle;
  }

  lemma SettersDropTheSaveKey(props: Props, p: Page, e: Event)
    requires p.saveKey.Some? ==> p.form.loaded
    ensures SaveFollows(p, FormStep(props, p, e))
  {
    SettersKeepTheAddress(props, p, e);
    var after := FormStep(props, p, e);
    hide FormStep;
    if after.saveKey.Some? {
      SameAddressSamePayload(p.form, after.form);
      hide Dirty, SavePayloadOf;
    }
  }

  lemma AddressDropsTheSaveKey(p: Page, e: Event)
    requires !e.SaveStarts? && !ForgetsDeclaration(p, e) && (p.saveKey.Some? ==> p.form.loaded)
    ensures SaveFollows(p, AddressStep(p, e))
  {
    if e.RefreshSettles? && e.refreshed.Some? && e.refreshed.value.declaration.Some? {
      HydratedIsClean(p.form, e.refreshed.value);
      hide Dirty, HydrateForm;
    }
  }

  lemma PaymentsKeepTheForm(props: Props, p: Page, e: Event)
    ensures var after := PaymentStep(props, p, e);
            after.form == p.form && after.saveKey == p.saveKey && after.saves == p.saves && after.minted >= p.minted
  {
    hide PayloadOf, ResidenceReady, PaymentReady;
  }

  lemma PaymentsKeepTheSaveKey(props: Props, p: Page, e: Event)
    requires p.saveKey.Some? ==> p.form.loaded
    ensures SaveFollows(p, PaymentStep(props, p, e))
  {
    PaymentsKeepTheForm(props, p, e);
    hide PaymentStep, Dirty;
  }

  lemma SaveKeyFollowsForm(props: Props, p: Page, e: Event)
    requires !e.SaveStarts? && !ForgetsDeclaration(p, e) && (p.saveKey.Some? ==> p.form.loaded)
    ensures SaveFollows(p, Step(props, p, e))
  {
    SettersDropTheSaveKey(props, p, e);
    AddressDropsTheSaveKey(p, e);
    PaymentsKeepTheSaveKey(props, p, e);
    hide FormStep, AddressStep, PaymentStep, SaveFollows;
  }

  lemma SaveKeyStaysBound(props: Props, p: Page, e: Event)
    requires SaveKeyBound(p) && SavesAgree(p) && !ForgetsDeclaration(p, e)
    ensures SaveKeyBound(Step(props, p, e)) && SavesAgree(Step(props, p, e))
  {
    if e.SaveStarts? {
      var r := SaveStart(p, e.wellFormed);
      assert forall i :: 0 <= i < |p.saves| ==> r.saves[i] == p.saves[i];
      hide SavePayloadOf, Dirty, ResidenceReady;
    } else {
      SaveKeyFollowsForm(props, p, e);
      hide Step, SavePayloadOf, Dirty;
    }
  }

  predicate NeverForgetsDeclaration(props: Props, p: Page, events: seq<Event>)
    decreases |events|
  {
    events == [] ||
    (!ForgetsDeclaration(p, events[0]) && NeverForgetsDeclaration(props, Step(props, p, events[0]), events[1..]))
  }

  /** Two saves under one key send the same address, as long as no refresh forgets a declaration. */
  lemma {:induction false} SameSaveKeySameAddress(props: Props, p: Page, events: seq<Event>)
    requires SaveKeyBound(p) && SavesAgree(p) && NeverForgetsDeclaration(props, p, events)
    ensures SaveKeyBound(Run(props, p, events)) && SavesAgree(Run(props, p, events))
    decreases |events|
  {
    if events != [] {
      SaveKeyStaysBound(props, p, events[0]);
      hide SaveKeyBound, SavesAgree, Step, ForgetsDeclaration;
      SameSaveKeySameAddress(props, Step(props, p, events[0]), events[1..]);
    }
  }

  /** From the opened page on, on any two saves. */
  lemma OpenedPageSavesAgree(props: Props, blank: nat, events: seq<Event>, i: nat, j: nat)
    requires NeverForgetsDeclaration(props, Opened(blank), events)
    ensures var p := Run(props, Opened(blank), events);
            i < |p.saves| && j < |p.saves| && p.saves[i].key == p.saves[j].key ==> p.saves[i].payload == p.saves[j].payload
  {
    SameSaveKeySameAddress(props, Opened(blank), events);
  }

  /** On a page without a declaration, confirming and saving sends that, under the key in use. */
  lemma SaveWithoutDeclaration(props: Props, p: Page)
    requires Saved(p.form).None? && p.form.loaded && p.address.None? && !p.busy && p.saveKey.Some?
    ensures var p2 := Step(props, p, ConfirmResidence(true));
            var p3 := Step(props, p2, SaveStarts(true));
            && |p3.saves| == |p.saves| + 1 && p3.saves[..|p.saves|] == p.saves
            && p3.saves[|p.saves|].key == p.saveKey.value
            && p3.saves[|p.saves|].payload.expectedDeclarationId.None?
  {
    hide HydrateForm, PayloadOf;
    var p2 := Step(props, p, ConfirmResidence(true));
    assert p2 == p.(form := p.form.(residenceConfirmed := true), key := None);
    hide FormStep;
  }

  /**
   The condition is exact: when a refresh forgets the declaration that an unanswered save was based on, confirming and
   saving again sends another payload under the key of that save.
   */
  lemma ForgottenDeclarationReusesTheKey(props: Props, p: Page, e: Event, i: nat)
    requires ForgetsDeclaration(p, e) && !p.busy
    requires i < |p.saves| && p.saves[i].key == p.saveKey.value
    requires p.saves[i].payload.expectedDeclarationId == Some(Saved(p.form).value.id)
    ensures var p1 := Step(props, p, e);
            var p2 := Step(props, p1, ConfirmResidence(true));
            var p3 := Step(props, p2, SaveStarts(true));
            && |p3.saves| == |p.saves| + 1 && p3.saves[|p.saves|].key == p3.saves[i].key
            && p3.saves[|p.saves|].payload != p3.saves[i].payload
  {
    var p1 := Step(props, p, e);
    assert p1.saveKey == p.saveKey && p1.saves == p.saves && Saved(p1.form).None? && p1.form.loaded && p1.address.None?;
    SaveWithoutDeclaration(props, p1);
    hide Step;
  }

  // ----- the confirmation of residence

  datatype Address = Address(line1: nat, city: nat, postalCode: nat)

  function AddressOf(f: Form): Address {
    Address(f.line1, f.city, f.residencePostalCode)
  }

  predicate Confirms(e: Event) {
    e.ConfirmResidence? || e.SaveSettles?
  }

  /** The address that was last confirmed: by the checkbox, or as the server saved it for a confirmed request. */
  function Confirmed(props: Props, p: Page, e: Event, before: Option<Address>): Option<Address> {
    var next := Step(props, p, e);
    if Confirms(e) && next.form.residenceConfirmed then Some(AddressOf(next.form)) else before
  }

  function LastConfirmed(props: Props, p: Page, events: seq<Event>, before: Option<Address>): Option<Address>
    decreases |events|
  {
    if events == [] then before
    else LastConfirmed(props, Step(props, p, events[0]), events[1..], Confirmed(props, p, events[0], before))
  }

  predicate ConfirmationCurrent(p: Page, last: Option<Address>) {
    p.form.residenceConfirmed ==> last == Some(AddressOf(p.form))
  }

  /** Whatever does not confirm keeps the address, or withdraws its confirmation. */
  predicate KeepsConfirmation(p: Page, after: Page) {
    after.form.residenceConfirmed ==> p.form.residenceConfirmed && AddressOf(after.form) == AddressOf(p.form)
  }

  lemma FormsKeepConfirmation(props: Props, p: Page, e: Event)
    requires !Confirms(e)
    ensures KeepsConfirmation(p, FormStep(props, p, e))
  {
    if e.Loads? && e.initial.Some? {
      assert !HydrateForm(p.form, e.initial.value, false).residenceConfirmed;
    }
    hide Dirty, Compact, ResidenceReady, HydrateForm, ResidenceEnabled, BillingEnabled, Idle;
  }

  lemma AddressesKeepConfirmation(p: Page, e: Event)
    requires !Confirms(e)
    ensures KeepsConfirmation(p, AddressStep(p, e))
  {
    hide Dirty, Compact, ResidenceReady, SavePayloadOf;
  }

  lemma OthersKeepConfirmation(props: Props, p: Page, e: Event)
    requires !Confirms(e)
    ensures KeepsConfirmation(p, Step(props, p, e))
  {
    FormsKeepConfirmation(props, p, e);
    AddressesKeepConfirmation(p, e);
    PaymentsKeepTheForm(props, p, e);
    hide FormStep, AddressStep, PaymentStep;
  }

  lemma ConfirmationStaysCurrent(props: Props, p: Page, e: Event, last: Option<Address>)
    requires ConfirmationCurrent(p, last)
    ensures ConfirmationCurrent(Step(props, p, e), Confirmed(props, p, e, last))
  {
    hide Step;
    if !Confirms(e) {
      OthersKeepConfirmation(props, p, e);
    }
  }

  /** A standing confirmation of residence is for exactly the address shown: every edit and every reload withdraws it. */
  lemma {:induction false} ConfirmationIsForTheAddress(
    props: Props, p: Page, events: seq<Event>, last: Option<Address>)
    requires ConfirmationCurrent(p, last)
    ensures ConfirmationCurrent(Run(props, p, events), LastConfirmed(props, p, events, last))
    ensures PaymentReady(props, Run(props, p, events)) ==>
              LastConfirmed(props, p, events, last) == Some(AddressOf(Run(props, p, events).form))
    decreases |events|
  {
    if events != [] {
      ConfirmationStaysCurrent(props, p, events[0], last);
      hide ConfirmationCurrent, Confirmed, Step, PaymentReady;
      ConfirmationIsForTheAddress(props, Step(props, p, events[0]), events[1..], Confirmed(props, p, events[0], last));
    }
  }

  /** From the opened page on: whoever can pay has confirmed exactly the address shown. */
  lemma OpenedPageConfirms(props: Props, blank: nat, events: seq<Event>)
    requires PaymentReady(props, Run(props, Opened(blank), events))
    ensures LastConfirmed(props, Opened(blank), events, None) ==
            Some(AddressOf(Run(props, Opened(blank), events).form))
  {
    ConfirmationIsForTheAddress(props, Opened(blank), events, None);
  }
}
