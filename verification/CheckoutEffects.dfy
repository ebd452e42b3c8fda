/** What the checkout page sends, what each input changes, and what each answer of a provider leaves behind. */
module CheckoutEffects {
  import opened Prelude
  import opened Checkout

  // ----- what a payment request carries

  /** The address shown is the one that was saved, field by field. */
  predicate Shows(f: Form, d: Declaration) {
    && f.line1 == d.line1 && f.city == d.city && f.residencePostalCode == d.postalCode
    && (if f.sameBilling then f.residencePostalCode else f.billingPostalCode) == d.billingPostalCode
  }

  /** The page offers to pay exactly for a saved, shown and accepted address, with every box ticked and nothing under way. */
  lemma ReadyExactly(props: Props, p: Page)
    ensures PaymentReady(props, p) <==>
              && props.contractReady && props.salesReady && props.payable
              && p.form.residence.Some? && p.form.residence.value.declaration.Some? && p.form.residence.value.eligible
              && Shows(p.form, p.form.residence.value.declaration.value)
              && p.form.termsAccepted && p.form.deliveryConsent && p.form.residenceConfirmed
              && (props.live ==> p.form.sameBilling)
              && p.address.None? && !p.form.editingAddress && !p.attemptNeedsReview
  {
  }

  /** The identifiers and postal codes of the saved declaration, all three consents, and no other billing address. */
  predicate Carries(props: Props, payload: Payload, d: Declaration) {
    && payload.declarationId == d.id && payload.addressHash == d.addressHash
    && payload.residencePostalCode == d.postalCode && payload.billingPostalCode == d.billingPostalCode
    && payload.termsAccepted && payload.deliveryConsent && payload.residenceConfirmed
    && payload.sameBilling == (if props.live then Some(true) else None)
    && payload.billingAddress.None?
  }

  /** A payment button, or that of PayPal, which its own script may press again while the page is busy. */
  predicate Starts(e: Event, provider: Provider) {
    if provider.Stripe? then e.StripeStarts? else e.PaypalCreates?
  }

  predicate Free(p: Page) {
    p.owner.None? && !p.busy
  }

  lemma RequestCarries(props: Props, p: Page, e: Event, provider: Provider)
    requires PaymentReady(props, p) && Free(p) && Starts(e, provider)
    ensures var after := Step(props, p, e);
            && |after.sent| == |p.sent| + 1 && after.sent[..|p.sent|] == p.sent
            && after.sent[|p.sent|].provider == provider && Some(after.sent[|p.sent|].key) == after.key
            && after.key == (if p.key.Some? then p.key else Some(p.minted))
            && Carries(props, after.sent[|p.sent|].payload, p.form.residence.value.declaration.value)
            && after.owner == Some(provider) && after.busy && after.form == p.form
            && after.stripeRequests == p.stripeRequests + (if provider.Stripe? then 1 else 0)
            && after.paypalRequests == p.paypalRequests + (if provider.Paypal? then 1 else 0)
  {
  }

  lemma NothingElseSends(props: Props, p: Page, e: Event)
    requires !(PaymentReady(props, p) && Free(p) && (e.StripeStarts? || e.PaypalCreates?)) && LockSound(p)
    ensures Step(props, p, e).sent == p.sent
  {
    if !Pays(e) { OnlyPaymentsTouchTheLock(props, p, e); }
    hide PayloadOf, PaymentReady, FormStep, AddressStep;
  }

  /**
   Over every run: a step sends a payment request exactly when a button is pressed on a free page that is ready, and the
   request carries the declaration that is saved then, under the key in use.
   */
  lemma EachRequestCarriesTheDeclaration(props: Props, blank: nat, events: seq<Event>, e: Event)
    ensures var p := Run(props, Opened(blank), events);
            var after := Step(props, p, e);
            && (after.sent != p.sent <==>
                  PaymentReady(props, p) && p.owner.None? && (e.StripeStarts? || e.PaypalCreates?))
            && (after.sent != p.sent ==>
                  && |after.sent| == |p.sent| + 1 && after.sent[..|p.sent|] == p.sent
                  && p.form.residence.Some? && p.form.residence.value.declaration.Some?
                  && Carries(props, after.sent[|p.sent|].payload, p.form.residence.value.declaration.value)
                  && (after.sent[|p.sent|].provider.Stripe? <==> e.StripeStarts?)
                  && Some(after.sent[|p.sent|].key) == after.key)
  {
    RunKeeps(props, Opened(blank), events);
    var p := Run(props, Opened(blank), events);
    hide Run, KeyBound, SentAgree;
    ReadyExactly(props, p);
    if PaymentReady(props, p) && Free(p) && (e.StripeStarts? || e.PaypalCreates?) {
      RequestCarries(props, p, e, if e.StripeStarts? then Stripe else Paypal);
    } else {
      NothingElseSends(props, p, e);
    }
    hide Step, PaymentReady;
  }

  // ----- while a payment is under way

  /** Nothing that a request carries moves, and the newest request carries what is shown. */
  ghost predicate Frozen(props: Props, p: Page) {
    && LockSound(p)
    && (p.form.residence.Some? ==> p.form.loaded)
    && (p.busy ==>
          && p.address.None? && p.sent != [] && p.key.Some?
          && Some(p.sent[|p.sent| - 1].key) == p.key
          && p.form.residence.Some? && p.form.residence.value.declaration.Some?
          && Shows(p.form, p.form.residence.value.declaration.value)
          && Carries(props, p.sent[|p.sent| - 1].payload, p.form.residence.value.declaration.value))
  }

  lemma BusyFormsStay(props: Props, p: Page, e: Event)
    requires p.busy && p.form.loaded && p.address.None? && !Pays(e)
    ensures Step(props, p, e) == p
  {
    hide Compact, ResidenceReady, HydrateForm, SavePayloadOf, PaymentStep;
  }

  lemma ResidencesAreLoaded(props: Props, p: Page, e: Event)
    requires p.form.residence.Some? ==> p.form.loaded
    ensures Step(props, p, e).form.residence.Some? ==> Step(props, p, e).form.loaded
  {
    if Pays(e) {
      PaymentsKeepTheForm(props, p, e);
      hide PaymentStep;
    } else if AsksAddress(e) {
      AddressesAreLoaded(props, p, e);
      hide Step;
    } else {
      SettersKeepTheResidence(props, p, e);
      hide Step;
    }
  }

  lemma AddressesAreLoaded(props: Props, p: Page, e: Event)
    requires AsksAddress(e) && (p.form.residence.Some? ==> p.form.loaded)
    ensures Step(props, p, e).form.residence.Some? ==> Step(props, p, e).form.loaded
  {
    hide Step;
    match e
    case SaveStarts(wellFormed) => SaveCarries(props, p, wellFormed);
    case RefreshStarts => RefreshAsks(props, p);
    case SaveSettles(saved) =>
      if p.address == Some(Saving) { AddressAnswers(props, p, saved); } else { UnaskedAnswers(props, p, saved); }
    case RefreshSettles(refreshed) =>
      if p.address == Some(Refreshing) { AddressAnswers(props, p, refreshed); } else { UnaskedAnswers(props, p, refreshed); }
  }

  lemma SettersKeepTheResidence(props: Props, p: Page, e: Event)
    requires !Pays(e) && !AsksAddress(e)
    ensures var f := Step(props, p, e).form;
            || (f.residence == p.form.residence && f.loaded == p.form.loaded) || f.loaded
  {
    if Entered(e).Some? {
      EntryChangesItsField(props, p, e);
    } else if e.EditAddress? {
      LayoutControls(props, p, e.editing);
    } else if e.UseOtherBilling? {
      LayoutControls(props, p, true);
    } else {
      LoadingAnswers(props, p, e.initial);
    }
    hide Step;
  }

  lemma PaymentsStayFrozen(props: Props, p: Page, e: Event)
    requires Frozen(props, p) && Pays(e)
    ensures Frozen(props, Step(props, p, e))
  {
    LockStaysSound(props, p, e);
    ResidencesAreLoaded(props, p, e);
    PaymentsKeepTheForm(props, p, e);
    ReadyExactly(props, p);
    if PaymentReady(props, p) && Free(p) && (e.StripeStarts? || e.PaypalCreates?) {
      RequestCarries(props, p, e, if e.StripeStarts? then Stripe else Paypal);
      assert Step(props, p, e).address == p.address;
    } else {
      NothingElseSends(props, p, e);
      BusyIsKept(props, p, e);
    }
    hide Step, PaymentReady, Carries, Shows;
  }

  lemma BusyIsKept(props: Props, p: Page, e: Event)
    requires Pays(e) && !(PaymentReady(props, p) && Free(p) && (e.StripeStarts? || e.PaypalCreates?)) && LockSound(p)
    ensures var after := Step(props, p, e);
            after.busy ==> p.busy && after.address == p.address && after.key == p.key
  {
    hide PayloadOf, PaymentReady;
  }

  lemma StepStaysFrozen(props: Props, p: Page, e: Event)
    requires Frozen(props, p)
    ensures Frozen(props, Step(props, p, e))
  {
    if Pays(e) {
      PaymentsStayFrozen(props, p, e);
    } else {
      OnlyPaymentsTouchTheLock(props, p, e);
      ResidencesAreLoaded(props, p, e);
      if p.busy { BusyFormsStay(props, p, e); }
      hide Step, Carries, Shows;
    }
  }

  lemma {:induction false} RunStaysFrozen(props: Props, p: Page, events: seq<Event>)
    requires Frozen(props, p)
    ensures Frozen(props, Run(props, p, events))
    decreases |events|
  {
    if events != [] {
      StepStaysFrozen(props, p, events[0]);
      hide Frozen, Step;
      RunStaysFrozen(props, Step(props, p, events[0]), events[1..]);
    }
  }

  /**
   Over every run: while a payment is under way no input, save or refresh changes the page, and the newest request
   carries the declaration that is saved and shown, under the key in use.
   */
  lemma PayingFreezesThePage(props: Props, blank: nat, events: seq<Event>, e: Event)
    ensures var p := Run(props, Opened(blank), events);
            p.busy ==>
              && (!Pays(e) ==> Step(props, p, e) == p) && Step(props, p, e).form == p.form
              && p.sent != [] && Some(p.sent[|p.sent| - 1].key) == p.key
              && p.form.residence.Some? && p.form.residence.value.declaration.Some?
              && Shows(p.form, p.form.residence.value.declaration.value)
              && Carries(props, p.sent[|p.sent| - 1].payload, p.form.residence.value.declaration.value)
  {
    RunStaysFrozen(props, Opened(blank), events);
    var p := Run(props, Opened(blank), events);
    hide Run, Shows, Carries;
    if p.busy {
      if Pays(e) { PaymentsKeepTheForm(props, p, e); } else { BusyFormsStay(props, p, e); }
      hide FormStep, AddressStep, PaymentStep;
    }
  }

  // ----- what a save carries

  /** The fields of the address as they stand, confirmed, on top of the declaration they are to replace. */
  predicate SavesForm(payload: SavePayload, f: Form) {
    && payload.line1 == f.line1 && payload.city == f.city && payload.postalCode == f.residencePostalCode
    && payload.billingPostalCode == (if f.sameBilling then f.residencePostalCode else f.billingPostalCode)
    && payload.residenceConfirmed
    && (payload.expectedDeclarationId.Some? <==> f.residence.Some? && f.residence.value.declaration.Some?)
    && (payload.expectedDeclarationId.Some? ==>
          payload.expectedDeclarationId.value == f.residence.value.declaration.value.id
          && !Shows(f, f.residence.value.declaration.value))
  }

  lemma OnlySavesSave(props: Props, p: Page, e: Event)
    requires !e.SaveStarts?
    ensures Step(props, p, e).saves == p.saves
  {
    SettersKeepSaves(props, p, e);
    PaymentsKeepTheForm(props, p, e);
    hide FormStep, PaymentStep, HydrateForm, Compact, ResidenceReady;
  }

  lemma SettersKeepSaves(props: Props, p: Page, e: Event)
    ensures FormStep(props, p, e).saves == p.saves
  {
    hide ResidenceReady, Compact, HydrateForm, ResidenceEnabled, BillingEnabled, Idle;
  }

  lemma SaveCarries(props: Props, p: Page, wellFormed: bool)
    ensures var after := Step(props, p, SaveStarts(wellFormed));
            if wellFormed && !p.busy && p.address.None? && p.form.loaded && p.form.residenceConfirmed
               && (p.form.residence.Some? && p.form.residence.value.declaration.Some? ==>
                     !Shows(p.form, p.form.residence.value.declaration.value))
            then
              && |after.saves| == |p.saves| + 1 && after.saves[..|p.saves|] == p.saves
              && SavesForm(after.saves[|p.saves|].payload, p.form)
              && Some(after.saves[|p.saves|].key) == after.saveKey
              && after.saveKey == (if p.saveKey.Some? then p.saveKey else Some(p.minted))
              && after.address == Some(Saving) && after.form == p.form
            else after == p
  {
  }

  /** Over every run: each save carries the address as it stands, which is the one that was last confirmed. */
  lemma EachSaveCarriesTheAddress(props: Props, blank: nat, events: seq<Event>, e: Event)
    ensures var p := Run(props, Opened(blank), events);
            var after := Step(props, p, e);
            after.saves != p.saves ==>
              && e.SaveStarts? && |after.saves| == |p.saves| + 1 && after.saves[..|p.saves|] == p.saves
              && SavesForm(after.saves[|p.saves|].payload, p.form)
              && LastConfirmed(props, Opened(blank), events, None) ==
                 Some(Address(after.saves[|p.saves|].payload.line1, after.saves[|p.saves|].payload.city,
                              after.saves[|p.saves|].payload.postalCode))
  {
    ConfirmationIsForTheAddress(props, Opened(blank), events, None);
    var p := Run(props, Opened(blank), events);
    hide Run, LastConfirmed, PaymentReady;
    if e.SaveStarts? {
      SaveCarries(props, p, e.wellFormed);
    } else {
      OnlySavesSave(props, p, e);
    }
    hide Step, Shows;
  }

  // ----- what an answer about the address leaves

  /** The saved residence is shown; the consent to it stands only if it was this page that saved it. */
  predicate Adopts(before: Form, after: Form, r: Residence, keepsConsent: bool) {
    && after.residence == Some(r) && after.loaded && !after.editingAddress
    && (after.residenceConfirmed <==> keepsConsent && before.residenceConfirmed)
    && after.termsAccepted == before.termsAccepted && after.deliveryConsent == before.deliveryConsent
    && after.billingLine1 == before.billingLine1 && after.billingCity == before.billingCity
    && (r.declaration.Some? ==>
          var d := r.declaration.value;
          && after.line1 == d.line1 && after.city == d.city
          && after.residencePostalCode == d.postalCode && after.billingPostalCode == d.billingPostalCode
          && (keepsConsent ==>
                after.sameBilling == before.sameBilling && after.differentBilling == before.differentBilling)
          && (!keepsConsent ==> after.sameBilling == (d.postalCode == d.billingPostalCode) && Shows(after, d)
                                && after.differentBilling == !after.sameBilling))
    && (r.declaration.None? ==>
          after.line1 == before.line1 && after.city == before.city && after.sameBilling == before.sameBilling
          && after.differentBilling == before.differentBilling
          && after.residencePostalCode == before.residencePostalCode && after.billingPostalCode == before.billingPostalCode)
  }

  /** A saved or refreshed residence is adopted and retires the payment key; a failure only ends the waiting. */
  lemma AddressAnswers(props: Props, p: Page, answer: Option<Residence>)
    requires p.address.Some?
    ensures var after := Step(props, p, if p.address.value.Saving? then SaveSettles(answer) else RefreshSettles(answer));
            && after.address.None?
            && (answer.None? ==> after == p.(address := None))
            && (answer.Some? ==>
                  && Adopts(p.form, after.form, answer.value, p.address.value.Saving?) && after.key.None?
                  && after.saveKey == (if p.address.value.Saving? then None else p.saveKey)
                  && after.saves == p.saves && after.sent == p.sent)
  {
  }

  lemma UnaskedAnswers(props: Props, p: Page, answer: Option<Residence>)
    ensures p.address != Some(Saving) ==> Step(props, p, SaveSettles(answer)) == p
    ensures p.address != Some(Refreshing) ==> Step(props, p, RefreshSettles(answer)) == p
  {
  }

  /** The first answer is adopted; a page that could not be told opens its fields all the same. Later ones are ignored. */
  lemma LoadingAnswers(props: Props, p: Page, initial: Option<Residence>)
    ensures var after := Step(props, p, Loads(initial));
            if p.form.loaded then after == p
            else if initial.None? then after == p.(form := p.form.(loaded := true))
            else Adopts(p.form, after.form, initial.value, false) && after.key.None? && after.saveKey == p.saveKey
  {
  }

  // ----- the inputs

  datatype Field =
    | Line1 | City | PostalCode | BillingLine1 | BillingCity | BillingPostalCode
    | SameBilling | Confirmation | Terms | Consent

  function Flag(b: bool): nat {
    if b then 1 else 0
  }

  function Value(f: Form, field: Field): nat {
    match field
    case Line1 => f.line1
    case City => f.city
    case PostalCode => f.residencePostalCode
    case BillingLine1 => f.billingLine1
    case BillingCity => f.billingCity
    case BillingPostalCode => f.billingPostalCode
    case SameBilling => Flag(f.sameBilling)
    case Confirmation => Flag(f.residenceConfirmed)
    case Terms => Flag(f.termsAccepted)
    case Consent => Flag(f.deliveryConsent)
  }

  /** Which input an event is of, and what was entered. */
  function Entered(e: Event): Option<(Field, nat)> {
    match e
    case EditLine1(v) => Some((Line1, v))
    case EditCity(v) => Some((City, v))
    case EditPostalCode(v) => Some((PostalCode, v))
    case EditBillingLine1(v) => Some((BillingLine1, v))
    case EditBillingCity(v) => Some((BillingCity, v))
    case EditBillingPostalCode(v) => Some((BillingPostalCode, v))
    case ChooseSameBilling(v) => Some((SameBilling, Flag(v)))
    case ConfirmResidence(v) => Some((Confirmation, Flag(v)))
    case AcceptTerms(v) => Some((Terms, Flag(v)))
    case ConsentDelivery(v) => Some((Consent, Flag(v)))
    case _ => None
  }

  predicate OfResidence(field: Field) {
    field.Line1? || field.City? || field.PostalCode?
  }

  predicate OfBilling(field: Field) {
    field.BillingLine1? || field.BillingCity? || field.BillingPostalCode?
  }

  /** An input can be used as long as the page shows it and nothing it belongs to is under way. */
  predicate Usable(props: Props, p: Page, field: Field) {
    && !p.busy
    && (field.Terms? ==> props.contractReady)
    && (!field.Terms? && !field.Consent? ==> p.address.None?)
    && (OfResidence(field) ==> p.form.loaded && (p.form.editingAddress || !ResidenceReady(p.form)))
    && (OfBilling(field) ==> p.form.differentBilling && !p.form.sameBilling)
    && (field.SameBilling? || field.Confirmation? ==> p.form.loaded)
  }

  /** The field has the value, and every other one is as it was but for a confirmation that is withdrawn. */
  predicate OnlyChanges(f: Form, g: Form, field: Field, value: nat) {
    && Value(g, field) == value
    && (forall other :: other != field ==>
          Value(g, other) == if OfResidence(field) && other.Confirmation? then 0 else Value(f, other))
    && g.residence == f.residence && g.loaded == f.loaded
  }

  /** What an input does to the page: its own change, and the keys that no longer stand for what would be sent. */
  predicate Applies(props: Props, p: Page, e: Event, after: Page)
    requires Entered(e).Some?
  {
    var (field, value) := Entered(e).value;
    if !Usable(props, p, field) then after == p
    else
      && OnlyChanges(p.form, after.form, field, value)
      && after.form.differentBilling == (if field.SameBilling? then value == 0 else p.form.differentBilling)
      && after.key.None?
      && after.saveKey == (if OfResidence(field) || field.SameBilling? || field.BillingPostalCode? then None
                           else p.saveKey)
  }

  lemma ResidenceForms(f: Form, value: nat)
    ensures OnlyChanges(f, f.(line1 := value, residenceConfirmed := false), Line1, value)
    ensures OnlyChanges(f, f.(city := value, residenceConfirmed := false), City, value)
    ensures OnlyChanges(f, f.(residencePostalCode := value, residenceConfirmed := false), PostalCode, value)
  {
  }

  lemma BillingForms(f: Form, value: nat)
    ensures OnlyChanges(f, f.(billingLine1 := value), BillingLine1, value)
    ensures OnlyChanges(f, f.(billingCity := value), BillingCity, value)
    ensures OnlyChanges(f, f.(billingPostalCode := value), BillingPostalCode, value)
  {
  }

  lemma ChoiceForms(f: Form, value: bool)
    ensures OnlyChanges(f, f.(sameBilling := value, differentBilling := !value), SameBilling, Flag(value))
    ensures OnlyChanges(f, f.(residenceConfirmed := value), Confirmation, Flag(value))
  {
  }

  lemma ConsentForms(f: Form, value: bool)
    ensures OnlyChanges(f, f.(termsAccepted := value), Terms, Flag(value))
    ensures OnlyChanges(f, f.(deliveryConsent := value), Consent, Flag(value))
  {
  }

  lemma StreetEntry(props: Props, p: Page, e: Event)
    requires e.EditLine1? || e.EditCity?
    ensures Applies(props, p, e, Step(props, p, e))
  {
    ResidenceForms(p.form, Entered(e).value.1);
    hide ResidenceReady, OnlyChanges, Value;
  }

  lemma PostalEntry(props: Props, p: Page, e: Event)
    requires e.EditPostalCode?
    ensures Applies(props, p, e, Step(props, p, e))
  {
    ResidenceForms(p.form, Entered(e).value.1);
    hide ResidenceReady, OnlyChanges, Value;
  }

  lemma BillingEntry(props: Props, p: Page, e: Event)
    requires Entered(e).Some? && OfBilling(Entered(e).value.0)
    ensures Applies(props, p, e, Step(props, p, e))
  {
    BillingForms(p.form, Entered(e).value.1);
    assert Step(props, p, e) == FormStep(props, p, e);
    hide ResidenceReady, OnlyChanges, Step, Value;
  }

  lemma ChoiceEntry(props: Props, p: Page, e: Event)
    requires Entered(e).Some? && (e.ChooseSameBilling? || e.ConfirmResidence?)
    ensures Applies(props, p, e, Step(props, p, e))
  {
    ChoiceForms(p.form, Entered(e).value.1 == 1);
    hide ResidenceReady, OnlyChanges;
  }

  lemma ConsentEntry(props: Props, p: Page, e: Event)
    requires Entered(e).Some? && (e.AcceptTerms? || e.ConsentDelivery?)
    ensures Applies(props, p, e, Step(props, p, e))
  {
    ConsentForms(p.form, Entered(e).value.1 == 1);
    hide ResidenceReady, OnlyChanges;
  }

  /**
   Each input changes its own field and no other, but that an edit of the residence withdraws its confirmation. The key
   of payments goes with every change, that of saves with every change of what a save sends.
   */
  lemma EntryChangesItsField(props: Props, p: Page, e: Event)
    requires Entered(e).Some?
    ensures Applies(props, p, e, Step(props, p, e))
  {
    if e.EditPostalCode? {
      PostalEntry(props, p, e);
    } else if OfResidence(Entered(e).value.0) {
      StreetEntry(props, p, e);
    } else if OfBilling(Entered(e).value.0) {
      BillingEntry(props, p, e);
    } else if e.ChooseSameBilling? || e.ConfirmResidence? {
      ChoiceEntry(props, p, e);
    } else {
      ConsentEntry(props, p, e);
    }
    hide Applies, Step;
  }

  // ----- the answers of the providers

  /** The order that an event tells the page of, if the page takes it. */
  function Told(p: Page, e: Event): Option<nat> {
    match e
    case StripeSettles(order) => if p.stripeRequests > 0 then order else None
    case PaypalCreated(order, _, _) => if p.paypalRequests > 0 then order else None
    case PaypalCancels(order) => if p.owner != Some(Stripe) then order else None
    case _ => None
  }

  /** Why a page needs a review: an order whose payment is open, or a request that may have made one. */
  predicate OpensReview(props: Props, p: Page, e: Event) {
    match e
    case PaypalCreates => p.owner.None? && !PaymentReady(props, p)
    case PaypalCreated(order, usable, preflightRefused) =>
      p.paypalRequests > 0 && !(order.Some? && usable) && (p.startedOrder.Some? || order.Some? || !preflightRefused)
    case PaypalApproved(captured) => !captured
    case PaypalCancels(order) => p.owner != Some(Stripe) && order.Some?
    case PaypalErrors => p.owner != Some(Stripe) && p.startedOrder.Some?
    case _ => false
  }

  /** The tracking link is the last order told, the review notice stands for its causes, and neither is ever taken back. */
  lemma AnswersAreRemembered(props: Props, p: Page, e: Event)
    ensures var after := Step(props, p, e);
            && after.pendingOrder == (if Told(p, e).Some? then Told(p, e) else p.pendingOrder)
            && (after.attemptNeedsReview <==> p.attemptNeedsReview || OpensReview(props, p, e))
            && after.startedOrder == (if e.PaypalCreated? && Told(p, e).Some? then Told(p, e) else p.startedOrder)
  {
    if !Pays(e) {
      OrdersBelongToPayments(props, p, e);
      hide Step;
    }
    hide PayloadOf, PaymentReady, FormStep, AddressStep;
  }

  lemma OrdersBelongToPayments(props: Props, p: Page, e: Event)
    requires !Pays(e)
    ensures var after := Step(props, p, e);
            && after.pendingOrder == p.pendingOrder && after.startedOrder == p.startedOrder
            && after.attemptNeedsReview == p.attemptNeedsReview
  {
    FormsLeaveOrders(props, p, e);
    hide FormStep, HydrateForm, Compact, ResidenceReady, SavePayloadOf, Dirty;
  }

  lemma FormsLeaveOrders(props: Props, p: Page, e: Event)
    ensures var after := FormStep(props, p, e);
            && after.pendingOrder == p.pendingOrder && after.startedOrder == p.startedOrder
            && after.attemptNeedsReview == p.attemptNeedsReview
  {
    hide HydrateForm, Compact, ResidenceReady, ResidenceEnabled, BillingEnabled, Idle;
  }

  /**
   Every answer ends its request. Stripe's frees the page; a usable PayPal order keeps it until PayPal comes back, and any
   other answer, or PayPal coming back, frees it unless the other provider has it by then.
   */
  lemma AnswersEndTheirRequest(props: Props, p: Page, e: Event)
    requires LockSound(p)
    ensures var after := Step(props, p, e);
            && (e.StripeSettles? && p.stripeRequests > 0 ==>
                  after.stripeRequests == p.stripeRequests - 1 && after.paypalRequests == p.paypalRequests && Free(after))
            && (e.PaypalCreated? && p.paypalRequests > 0 ==>
                  after.paypalRequests == p.paypalRequests - 1 && after.stripeRequests == p.stripeRequests
                  && after.owner == (if p.owner == Some(Paypal) && !(e.paypalOrder.Some? && e.usable) then None
                                     else p.owner))
            && (e.PaypalApproved? || e.PaypalCancels? || e.PaypalErrors? ==>
                  after.owner == (if p.owner == Some(Stripe) then p.owner else None)
                  && after.stripeRequests == p.stripeRequests && after.paypalRequests == p.paypalRequests)
            && (after.busy <==> after.owner.Some?)
  {
    LockStaysSound(props, p, e);
    hide PayloadOf, PaymentReady, FormStep, AddressStep;
  }

  /** From any free page that is ready: paying by card and being answered with an order ends on a free page that links it. */
  lemma CardPaymentCompletes(props: Props, p: Page, order: nat)
    requires LockSound(p) && Free(p) && PaymentReady(props, p)
    ensures var paid := Run(props, p, [StripeStarts, StripeSettles(Some(order))]);
            && Free(paid) && paid.pendingOrder == Some(order) && |paid.sent| == |p.sent| + 1
            && paid.attemptNeedsReview == p.attemptNeedsReview && paid.stripeRequests == 0
  {
    var asked, last := Step(props, p, StripeStarts), StripeSettles(Some(order));
    RequestCarries(props, p, StripeStarts, Stripe);
    LockStaysSound(props, p, StripeStarts);
    LockStaysSound(props, asked, last);
    AnswersAreRemembered(props, p, StripeStarts);
    AnswersAreRemembered(props, asked, last);
    AnswersEndTheirRequest(props, asked, last);
    NothingElseSends(props, asked, last);
    hide Step, PaymentReady, Carries;
    assert [StripeStarts, last][1..] == [last] && [last][1..] == [];
    assert Run(props, asked, [last]) == Run(props, Step(props, asked, last), []);
  }

  /** The controls that only change what is shown of the address. */
  lemma LayoutControls(props: Props, p: Page, editing: bool)
    ensures var after := Step(props, p, EditAddress(editing));
            if !p.busy && p.address.None? && ResidenceReady(p.form)
               && (if editing then p.form.loaded && !p.form.editingAddress else p.form.editingAddress)
            then after == p.(form := p.form.(editingAddress := editing)) else after == p
    ensures var after := Step(props, p, UseOtherBilling);
            if !p.busy && p.address.None? && !p.form.sameBilling && !p.form.differentBilling
            then after == p.(form := p.form.(differentBilling := true), key := None) else after == p
  {
    hide ResidenceReady;
  }

  /** A refresh of the address can be asked for whenever its fields are shown. */
  lemma RefreshAsks(props: Props, p: Page)
    ensures var after := Step(props, p, RefreshStarts);
            if !p.busy && p.address.None? && p.form.loaded && (p.form.editingAddress || !ResidenceReady(p.form))
            then after == p.(address := Some(Refreshing)) else after == p
  {
    hide ResidenceReady;
  }
}
