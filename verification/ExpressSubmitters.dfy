/**
 The pages that submit keyed requests, in the form of their source: each follows the client of `IdempotentSubmission`,
 its `View`, through the handlers and the rest of the handlers once a response is in.
 */
module ExpressSubmitters {
  import opened Prelude
  import opened IdempotentSubmission
  import opened ExpressDraft
  import PublicationRetry

  /** What a publication binds; the declarations are fixed texts, present or not. */
  datatype Publication = Publication(projectId: nat, reviewToken: nat, sale: bool, artisticDeclaration: bool)

  /** The request whose response the page waits for, as captured by the waiting function. */
  datatype Continuation = Idle | SavingDraft(sentDraft: Message<Draft>) | Publishing(sentPublication: Message<Publication>)

  /** What is retained is the stored attempt under its own key, with its content, if it is one; nothing otherwise. */
  ghost predicate RestoresStored(dates: Dates, stored: Option<Message<Draft>>, c: Client<Draft>) {
    && (c.retained.Some? <==> stored.Some? && ExpressDraft.Valid(dates, stored.value.body))
    && (c.retained.Some? ==> c.uncertain && c.retained.value.key == stored.value.key
                             && KeepsContent(stored.value.body, c.retained.value.body))
    && c.ready && c.persisted == stored
  }

  /** A recovered attempt keeps its key, its prices, its versions and its titles but for white space around them. */
  lemma RecoveryRestores(dates: Dates, c: Client<Draft>)
    requires !c.ready ==> c.retained.None?
    ensures !c.ready ==> RestoresStored(dates, c.persisted, Recover(Canonical(dates), c))
  {
    if c.persisted.Some? {
      NormalFormKeepsContent(dates, c.persisted.value.body);
    }
    hide Canonical, KeepsContent, ExpressDraft.Valid;
  }

  /** components/music-express.tsx: the draft and the publication share one in-flight guard. */
  class MusicExpress {
    const dates: Dates
    var pending: Option<Message<Draft>>
    var storedAttempt: Option<Message<Draft>>
    var publicationAttempt: Option<Message<Publication>>
    var inFlight: bool
    var waiting: Continuation
    var uncertain: bool
    var cacheReady: bool
    var reviewing: bool
    var confirmed: bool
    var blockers: nat
    var mintedDrafts: nat
    var mintedPublications: nat

    function DraftView(): Client<Draft>
      reads this
    {
      Client(pending, storedAttempt, waiting.SavingDraft?, cacheReady, uncertain && !waiting.SavingDraft?, mintedDrafts)
    }

    function PublicationView(): Client<Publication>
      reads this
    {
      Client(if waiting.Publishing? then Some(waiting.sentPublication) else publicationAttempt,
             None, waiting.Publishing?, cacheReady, publicationAttempt.Some? && !waiting.Publishing?, mintedPublications)
    }

    function PanelView(): PublicationRetry.Panel
      reads this
    {
      PublicationRetry.Panel(inFlight, reviewing, confirmed, publicationAttempt.Some?, uncertain, blockers)
    }

    predicate Valid()
      reads this
    {
      && inFlight == !waiting.Idle?
      && (waiting.SavingDraft? ==> pending == Some(waiting.sentDraft) && publicationAttempt.None?)
      && (waiting.Publishing? && publicationAttempt.Some? ==> publicationAttempt.value == waiting.sentPublication)
      && (pending.Some? <==> waiting.SavingDraft? || DraftView().uncertain)
      && (!cacheReady ==> pending.None? && publicationAttempt.None? && waiting.Idle?)
    }

    /** `locked`: every input, the row buttons and the file choices are disabled. */
    predicate Locked()
      reads this
    {
      !cacheReady || inFlight || uncertain || publicationAttempt.Some?
    }

    constructor (dates: Dates, stored: Option<Message<Draft>>, reviewOnOpen: bool, blockers: nat,
                 minted: nat)
      ensures Valid() && this.dates == dates
      ensures DraftView() == Client(None, stored, false, false, false, minted)
      ensures PublicationView() == Client(None, None, false, false, false, 0)
    {
      this.dates := dates;
      pending, storedAttempt, publicationAttempt := None, stored, None;
      inFlight, waiting, uncertain, cacheReady, reviewing, confirmed := false, Idle, false, false, reviewOnOpen, false;
      this.blockers := blockers;
      mintedDrafts, mintedPublications := minted, 0;
    }

    /** The recovery effect. `cachedEdits` tells that a cached form, newer than the server's, is shown. */
    method OnRecover(cachedEdits: bool)
      requires Valid()
      modifies this
      ensures Valid()
      ensures DraftView() == Recover(Canonical(dates), old(DraftView()))
      ensures PublicationView() == old(PublicationView()).(ready := true)
      ensures !old(cacheReady) ==> RestoresStored(dates, old(storedAttempt), DraftView())
    {
      hide Canonical, RestoresStored;
      ghost var before := DraftView();
      if cacheReady { return; }
      if cachedEdits {
        reviewing, confirmed := false, false;
      }
      if storedAttempt.Some? {
        var attempt := Canonical(dates)(storedAttempt.value.body);
        if attempt.Some? {
          reviewing, confirmed := false, false;
          pending := Some(Message(storedAttempt.value.key, attempt.value));
          uncertain := true;
        }
      }
      cacheReady := true;
      assert DraftView() == Recover(Canonical(dates), before);
      RecoveryRestores(dates, before);
      hide Recover;
    }

    /** An input, a row button or `generate`, through `dirty`. */
    method OnEdit()
      requires Valid()
      modifies this
      ensures Valid()
      ensures DraftView() == Edit(old(DraftView())) == old(DraftView())
      ensures PublicationView() == old(PublicationView())
      ensures old(cacheReady) ==> PanelView() == PublicationRetry.Use(old(PanelView()), PublicationRetry.Edits)
    {
      if Locked() { return; }
      reviewing, confirmed := false, false;
      pending := None;
    }

    /** `save` up to its request; `form` is missing when a price cannot be parsed. */
    method OnSave(form: Option<Draft>) returns (sent: Option<Message<Draft>>)
      requires Valid()
      modifies this
      ensures Valid()
      ensures sent.Some? <==> old(cacheReady && !inFlight && publicationAttempt.None? && (pending.Some? || form.Some?))
      ensures sent.Some? ==> DraftView() == Submit(true, old(DraftView()), GetOr(form, sent.value.body)) && pending == sent
      ensures sent.None? ==> DraftView() == old(DraftView())
      ensures PublicationView() == old(PublicationView())
    {
      if !cacheReady || inFlight || publicationAttempt.Some? { return None; }
      if pending.None? {
        if form.None? { return None; }
        pending := Some(Message(mintedDrafts, form.value));
        mintedDrafts := mintedDrafts + 1;
      }
      inFlight, waiting := true, SavingDraft(pending.value);
      storedAttempt := pending;
      return pending;
    }

    /** The rest of `save`. `installed` is false when binding the chosen files to the saved rows throws. */
    method OnSaved(outcome: Outcome, installed: bool)
      requires Valid() && waiting.SavingDraft?
      modifies this
      ensures Valid() && waiting.Idle?
      ensures DraftView() == Settle(old(DraftView()), if outcome.Success? && !installed then Failure else outcome)
      ensures PublicationView() == old(PublicationView())
    {
      if outcome.Success? && installed {
        pending := None;
        uncertain := false;
        storedAttempt := None;
      } else if outcome.Refusal? {
        pending := None;
        uncertain := false;
        storedAttempt := None;
      } else if pending.Some? {
        uncertain := true;
      }
      inFlight, waiting := false, Idle;
    }

    /** The end of `refreshFiles`: a button, and the cover, audio, rights and version panels, none of them locked. */
    method OnFilesRefreshed(blockers: nat)
      requires Valid()
      modifies this
      ensures Valid() && DraftView() == old(DraftView()) && PublicationView() == old(PublicationView())
      ensures PanelView() == PublicationRetry.Use(old(PanelView()), PublicationRetry.RefreshesFiles(blockers))
    {
      this.blockers, reviewing, confirmed := blockers, false, false;
    }

    /** The checkbox of the confirmation panel. */
    method OnConfirm(yes: bool)
      requires Valid() && cacheReady
      modifies this
      ensures Valid() && DraftView() == old(DraftView()) && PublicationView() == old(PublicationView())
      ensures PanelView() == PublicationRetry.Use(old(PanelView()), PublicationRetry.Confirms(yes))
    {
      if reviewing && !inFlight && publicationAttempt.None? && blockers == 0 {
        confirmed := yes;
      }
    }

    /** `confirmPublication` up to its request, from the button that is shown while reviewing. */
    method OnPublish(project: Publication) returns (sent: Option<Message<Publication>>)
      requires Valid() && cacheReady
      modifies this
      ensures Valid()
      ensures sent.Some? <==> PublicationRetry.PublishEnabled(old(PanelView()))
      ensures PanelView() == PublicationRetry.Use(old(PanelView()), PublicationRetry.Publishes)
      ensures sent.Some? ==> PublicationView() == Submit(false, old(PublicationView()), project)
                             && PublicationView().retained == sent
      ensures sent.None? ==> PublicationView() == old(PublicationView())
      ensures DraftView() == old(DraftView())
    {
      if !cacheReady || inFlight || !reviewing || !confirmed || blockers != 0 { return None; }
      var input;
      if publicationAttempt.Some? {
        input := publicationAttempt.value;
      } else {
        input := Message(mintedPublications, project);
        mintedPublications := mintedPublications + 1;
      }
      inFlight, waiting := true, Publishing(input);
      return Some(input);
    }

    method OnPublished(outcome: Outcome, blockers: nat)
      requires Valid() && waiting.Publishing?
      modifies this
      ensures Valid() && waiting.Idle?
      ensures PanelView() == PublicationRetry.Use(old(PanelView()), PublicationRetry.Published(outcome, blockers))
      ensures PublicationView() == Settle(old(PublicationView()), outcome)
      ensures DraftView() == old(DraftView())
    {
      match outcome {
        case Success =>
          this.blockers, confirmed, publicationAttempt, reviewing := blockers, false, None, false;
        case Refusal =>
          publicationAttempt, confirmed := None, false;
        case Failure =>
          publicationAttempt := Some(waiting.sentPublication);
      }
      inFlight, waiting := false, Idle;
    }
  }

  /** components/express-collaborations.tsx; `C` is a change of a credit or of a link, with the version it was made for. */
  class ExpressCollaborations<C> {
    var pending: Option<Message<C>>
    var busy: bool
    var uncertain: bool
    var minted: nat

    function View(): Client<C>
      reads this
    {
      Client(pending, None, busy && pending.Some?, true, uncertain, minted)
    }

    predicate Valid()
      reads this
    {
      uncertain == (pending.Some? && !busy)
    }

    constructor ()
      ensures Valid() && View() == Client(None, None, false, true, false, 0) && !busy
    {
      pending, busy, uncertain, minted := None, false, false, 0;
    }

    /** `save` of any form, retried or not; `available` is the rest of its guard. */
    method OnSave(change: C, available: bool) returns (sent: Option<Message<C>>)
      requires Valid()
      modifies this
      ensures Valid()
      ensures sent.Some? <==> !old(busy) && available
      ensures sent.Some? ==> View() == Submit(false, old(View()), change) && sent == pending
                             && (old(pending).Some? ==> sent == old(pending))
      ensures sent.None? ==> View() == old(View())
    {
      if busy || !available { return None; }
      if pending.None? {
        pending := Some(Message(minted, change));
        minted := minted + 1;
      }
      busy, uncertain := true, false;
      return pending;
    }

    /** The rest of `save`, with its `catch` and `finally`: a success also waits for the page to be refreshed. */
    method OnAnswer(outcome: Outcome)
      requires Valid() && busy && pending.Some?
      modifies this
      ensures Valid() && !busy
      ensures View() == Settle(old(View()), outcome)
    {
      if !outcome.Failure? { pending := None; }
      if !outcome.Success? { uncertain := pending.Some?; }
      busy := false;
    }
  }

  /** components/express-version-review.tsx; `R` is a decision with the bindings it was made for. */
  class ExpressVersionReview<R> {
    var pending: Option<Message<R>>
    var inFlight: bool
    var minted: nat

    function View(): Client<R>
      reads this
    {
      Client(pending, None, inFlight && pending.Some?, true, !inFlight && pending.Some?, minted)
    }

    constructor ()
      ensures View() == Client(None, None, false, true, false, 0) && !inFlight
    {
      pending, inFlight, minted := None, false, 0;
    }

    /** `submit`: the decision is missing when nothing is selected or it is not attested. */
    method OnSubmit(decision: Option<R>) returns (sent: Option<Message<R>>)
      modifies this
      ensures sent.Some? <==> old(!inFlight && (pending.Some? || decision.Some?))
      ensures sent.Some? ==> View() == Submit(false, old(View()), GetOr(decision, sent.value.body)) && sent == pending
                             && (old(pending).Some? ==> sent == old(pending))
      ensures sent.None? ==> View() == old(View())
    {
      if inFlight { return None; }
      if pending.None? {
        if decision.None? { return None; }
        pending := Some(Message(minted, decision.value));
        minted := minted + 1;
      }
      inFlight := true;
      return pending;
    }

    /** The response; after a success the page stays in flight until it has been refreshed. */
    method OnResponse(outcome: Outcome)
      requires inFlight && pending.Some?
      modifies this
      ensures View() == Settle(old(View()), outcome) && (inFlight <==> outcome.Success?)
    {
      if !outcome.Failure? { pending := None; }
      inFlight := outcome.Success?;
    }

    method OnRefreshed()
      requires inFlight && pending.None?
      modifies this
      ensures View() == old(View()) && !inFlight
    {
      inFlight := false;
    }
  }
}
