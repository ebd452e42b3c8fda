# Browser protocols of the LNX Beats site

This project models the concurrent client-side protocols of the site and proves what they promise. A protocol is a
transition system: a state, one step function per handler, and runs that interleave visitor actions, element events,
promise settlements, timers, storage events and the steps of a server in any order. Its theorems are invariants over
every run, or exact conditions under which a promise holds. Components that update refs and closure variables are also
written as classes whose methods are proved to perform the step functions.

| files | subject |
|---|---|
| `MediaElement`, `Jukebox`, `JukeboxSafety`, `JukeboxControls`, `JukeboxComponent` | the jukebox: request ids, a pending play, continuous listening, late settlements of `play()`, what each control brings about |
| `PreviewPlayers`, `PreviewControls`, `PreviewComponents`, `PlaybackArbitration` | the two small players, and at most one medium playing on the whole page |
| `DigitalCartStorage`, `DigitalQuote`, `CartNavigation`, `DigitalCartPage`, `DigitalTab`, `DigitalTabProgress` | the digital cart of one tab: two components, one storage, other tabs, a quoting server, pruning writes |
| `IdempotentSubmission`, `ExpressDraft`, `ExpressSubmitters`, `PublicationRetry` | keyed requests over a lossy network, and the four forms that send them |
| `ExpressRows`, `ExpressRowEffects`, `ExpressRowEditor` | the rows of the music editor, their keys and the files chosen for them |
| `Checkout`, `CheckoutEffects`, `CheckoutComponent` | one key, two payment providers, one lock, and what each request carries |
| `ShopCart`, `ShopOrder` | the shop cart and the preparation of its order |
| `MemoryDiagnostics`, `SiteMotion` | counters of overlapping operations; the easing loop |
| `SupportAmount`, `ExcerptTime`, `AdminCleanup`, `AdminNavigation` | decimal text to cents, a time label, a homogeneous selection, the marked menu entry |
| `Prelude`, `Text`, `Decimal` | shared types, JavaScript strings, digits |

## What the proofs found

Each of these is a place where the code does less than its comments or documentation say; the model keeps the code as
it is, and a theorem gives the exact condition.

- A start interrupted by another player is no failure of a digital excerpt (`docs/DCN_1_2.md:63`). The track row keeps
  that; the other small player, which the document does not name, shows a failure: `InterruptedStartIsNoFailure`, and
  exactly when either does, over every run, in `InterruptionIsReportedExactly`.
- The button of a small player can offer a start while its element runs: after a media error, or when the slider is used
  between the end of the media and the pause there. Exactly then: `ButtonAgrees`, `ExceptionsDisagree`.
- The query behind a quote asks for no order (`lib/digital/catalog.ts:33`), while the cart indicator compares the quoted
  ids with the stored ones in order. So it can write a settled cart back only to reorder it, or raise the review notice
  when storage refuses that, with nothing to review: `SettledCartIsReordered`, `DisplayedTotalIsForTheStoredCart`; total
  and removed ids do not depend on the order, `OrderDoesNotMatter`, and the writes end, `PruningEnds`.
- A retained draft, publication, credit or review is dropped on any status below 500. The rate limit and the session
  check answer before the server looks the key up (`app/api/admin/digital/express/route.ts:18`), so such a refusal of a
  retry can forget a request that was applied: `RefusalForgetsExactly`, `RefusedRetryActsTwice`, and conservation
  without such refusals in `EffectsAreConserved`.
- "Reprendre la même publication" is promised after an uncertain publication, but a refresh of the files closes the
  panel, even while the publication is under way, and every control that reopens it is locked: `RetryPossibleExactly`,
  `FlightRetryExactly`, `StrandedForever`.
- Leaving PayPal while its order is being created frees the lock with the request still out, and a Stripe request can
  follow under the same key: `SecondRequestExactly`; otherwise one request at a time, `OneRequestAtATime`.
- A refresh that finds no declaration keeps the key of an unanswered save, which then names another payload:
  `ForgottenDeclarationReusesTheKey`, `SameSaveKeySameAddress`.
- The message after a lost shop order says that the same key prevents any duplicate. That holds while the order is left
  as it is; a form change drops the key at once, and a removed line or a new quote does so after one conflict:
  `OneOrderPerPurchase`, and the exact condition in `OrderedTwiceExactly` and `SteadyRunsAreTheSafeOnes`.
- `ShopCartProvider.add` takes any product id while the parser keeps UUIDs only: `ParseOfSerialized`. The add button
  respects the limit once the stored cart is known, `ClickStaysWithinLimit`; before that a click passes it exactly under
  the condition of `EarlyClickPassesLimit`.
- The cleanup selection is homogeneous for fixed candidates; the page keeps it when they are refreshed, and its plan then
  stays one thing only under the condition of `RefreshKeepsThePlanExactly`.

## Environment

The HTML media element follows the HTML Living Standard ("Media elements"): one task queue per element, `pause()` and
`load()` reject the pending promises of `play()`, `load()` drops undelivered events. Fresh UUIDs are counters. Strings
that are only compared are numbers; where their characters matter they are sequences of UTF-16 code units. Each handler
runs to its next `await`, with the effects of its commit, as one step. Where exceptions are the subject, every call ends
with a value or a throw, and `try`, `catch` and `finally` are functions of such completions. A server applies a key once and compares what it
stored for it; the network may lose, delay, and reorder. Clocks, memory readers, loggers, rectangles, storage refusals
and the outcome of every request are inputs of the steps.

## Model

| member | source | states |
|---|---|---|
| `MediaElement.PauseKeepsPromises` | components/home-jukebox.tsx:249-251 | pausing moves every unsettled promise of `play()` to the element's queue: none is lost, doubled or invented |
| `MediaElement.LoadKeepsPromises` | components/home-jukebox.tsx:223-233 | so does setting or removing the source and loading |
| `MediaElement.UserAgentKeepsPromises` | components/home-jukebox.tsx:669-709 | so do the element's own changes: the end of the media, a pause or a start from outside the page |
| `Jukebox.ReducerActs` | lib/catalog/jukebox-player.ts:16-41 | selecting leaves what plays and its metadata, playing and pausing leave the selection, and a pause of another project leaves everything |
| `Jukebox.FindIndex` | components/home-jukebox.tsx:138-142 | the index found is one of a project with that slug, and a missing one means that no project has it |
| `JukeboxSafety.RunKeeps` | components/home-jukebox.tsx:163-412 | every interleaving of clicks, source switches, other players' claims, element events, promise settlements and the unmount keeps the jukebox's invariant |
| `JukeboxSafety.PendingIsNewest` | components/home-jukebox.tsx:236-275 | in every run a pending play carries the newest request id and the loaded slug, its promise is outstanding exactly once, nothing is marked as playing, and the loading flag is on exactly while a play is pending |
| `JukeboxSafety.LoadedIsSelected` | components/home-jukebox.tsx:210-302 | in every run the loaded slug is the selected one, the playing slug is none or that one, the element's source is that project's preview, and the continuity ref equals the displayed flag |
| `JukeboxSafety.QuietElementAgrees` | components/home-jukebox.tsx:673-709 | once no event and no promise is outstanding the element runs if and only if a playing slug is set, and nothing is loading or pending |
| `JukeboxSafety.SupersededSettlementChangesNothing` | components/home-jukebox.tsx:250-266 | the settlement of any request but the newest changes nothing but the element's queue |
| `JukeboxSafety.UnmountedIsInert` | components/home-jukebox.tsx:401-412 | after the unmount the element stays paused and no event or late settlement changes the component |
| `JukeboxSafety.SelectionContinuesListening` | components/home-jukebox.tsx:277-292 | choosing another project under continuous listening stops the old preview and asks for the new one at once, or falls silent when it has none, and keeps continuity |
| `JukeboxSafety.NaturalEndKeepsContinuity` | components/home-jukebox.tsx:685-704 | the natural end of a preview clears the playing slug and keeps continuous listening |
| `JukeboxSafety.SystemPauseStopsContinuity` | components/home-jukebox.tsx:685-697 | a delivered pause from outside the page stops continuous listening if and only if the preview had not ended |
| `JukeboxSafety.EffectKeeps` | components/home-jukebox.tsx:377-382 | the metadata effect after a commit finds the refs in place and can only reload an element without source |
| `JukeboxControls.PressStarts` | components/home-jukebox.tsx:331-347 | in every reached state, a press on a jukebox that neither starts nor plays the selected project pends a newer request for exactly that project, with loading on and the failure cleared, on its element running from its preview, and announces it |
| `JukeboxControls.PressIsRefused` | components/home-jukebox.tsx:265-274 | refused at once, it leaves nothing pending and the failure blocked exactly for `NotAllowedError` |
| `JukeboxControls.PressStops` | components/home-jukebox.tsx:335-343 | otherwise a press ends paused at the beginning, with nothing pending or playing and continuity off; without a preview it does nothing; it announces itself exactly when it starts |
| `JukeboxControls.PlayerButtonIsThePress` | components/home-jukebox.tsx:653 | the button under the player stops whatever is marked as playing and is that press otherwise |
| `JukeboxControls.PressPlaysThrough` | components/home-jukebox.tsx:236-264 | from any quiet page with a preview: press, readiness and the delivery of both tasks leave the selected project playing with continuous listening on |
| `JukeboxControls.FulfilmentPlays` | components/home-jukebox.tsx:250-264 | the newest fulfilment sets the playing slug, continuity and the end of loading exactly while the element runs |
| `JukeboxControls.RejectionIsShown` | components/home-jukebox.tsx:265-274 | the newest rejection ends the start, marks nothing as playing and shows its kind of failure |
| `JukeboxControls.UnexpectedStartIsStopped` | components/home-jukebox.tsx:673-684 | a play event leaves the element running, and announced, exactly if the page expects it, and changes nothing else |
| `JukeboxControls.ErrorStops` | components/home-jukebox.tsx:705-709 | a media error ends everything and shows the failure |
| `JukeboxControls.OtherMediaSilences` | components/home-jukebox.tsx:401-412 | another player's claim silences the jukebox without moving it back, or finds it silent and changes nothing |
| `JukeboxControls.SelectionMoves` | components/home-jukebox.tsx:277-302 | a selection, from past an end of the row at that end, moves a jukebox without continuity in silence to that project and its preview, and changes nothing for the selected one |
| `JukeboxControls.StartsAreAnnounced` | components/home-jukebox.tsx:236-248 | the jukebox tells the other players exactly of the starts that its three kinds of control ask for |
| `JukeboxControls.UnmountSilences` | components/home-jukebox.tsx:451-459 | the unmount pauses the element and retires every request |
| `JukeboxComponent.ProjectJukebox.PauseCurrentPlayback` | components/home-jukebox.tsx:163-181 | `pauseCurrent` on the refs and the element computes the step of the specification |
| `JukeboxComponent.ProjectJukebox.Sync` | components/home-jukebox.tsx:210-234 | `syncTrackMedia` does, with both of its early exits |
| `JukeboxComponent.ProjectJukebox.Attempt` | components/home-jukebox.tsx:236-249 | `attemptPlayback` up to its `await` does, and announces itself exactly when there is a preview to start |
| `JukeboxComponent.ProjectJukebox.OnFulfilled` | components/home-jukebox.tsx:250-264 | the rest of `attemptPlayback` after a fulfilment does, superseded or paused meanwhile or not |
| `JukeboxComponent.ProjectJukebox.OnRejected` | components/home-jukebox.tsx:265-274 | the rest of `attemptPlayback` after a rejection does |
| `JukeboxComponent.ProjectJukebox.OnSelect` | components/home-jukebox.tsx:277-302 | `select` does, with its clamping of the index |
| `JukeboxComponent.ProjectJukebox.OnToggle` | components/home-jukebox.tsx:331-347 | `togglePlay` does |
| `JukeboxComponent.ProjectJukebox.OnOtherMedia` | components/home-jukebox.tsx:401-412 | the listener for other players does |
| `JukeboxComponent.ProjectJukebox.OnEvent` | components/home-jukebox.tsx:163-412 | every event with the effect of its commit, on one object changed in place, performs the step function and keeps the invariant |
| `PreviewPlayers.InterruptedStartIsNoFailure` | components/digital-catalog.tsx:41-59 | a track row never shows a failure because its start was interrupted by its own button or by another player, in any run in which only the page controls playback |
| `PreviewPlayers.MountedRowShowsNoFailure` | components/digital-catalog.tsx:41-59 | in particular from the first render of the row on |
| `PreviewPlayers.InterruptionIsReportedExactly` | components/digital-catalog.tsx:43-57 | over every run of either player, with failing media and outside pauses: an interrupted start ends as a shown failure if and only if the player is the one without an intention (`components/audio-preview-player.tsx:57-59`), the interruption came from outside the page, or the element already had a fatal error; without a start outstanding an interruption shows nothing that the element had not reported |
| `PreviewPlayers.DeliveryShowsExactly` | components/digital-catalog.tsx:54-59 | a stopped player whose queue is delivered shows a failure if and only if it did before or one of the queued tasks is an error or a rejection that is reported |
| `PreviewPlayers.SystemInterruptionIsReported` | lib/digital/presentation.ts:18-21 | the shortest such runs: a start, its interruption and the delivery of what the element queued |
| `PreviewControls.PressPauses` | components/digital-catalog.tsx:48-51 | a press on any running player pauses it at once: one pause event and an aborted rejection for each pending promise follow what was queued, none is lost, and a row records the intention |
| `PreviewControls.PressStarts` | components/audio-preview-player.tsx:48-57 | an accepted press on a paused one starts it, with exactly one more promise outstanding, its play event queued, loading on and the failure cleared |
| `PreviewControls.PressIsRefused` | components/digital-catalog.tsx:52-57 | a press refused at once shows the failure and leaves the element; a disabled one does nothing |
| `PreviewControls.TasksAct` | components/audio-preview-player.tsx:57-92 | a settlement ends the loading, the row's own abort is the only rejection that is not shown, and a play event is the only task announced |
| `PreviewControls.ButtonAgrees` | components/audio-preview-player.tsx:69-92 | over every run of either player, once nothing is left to deliver, `playing` is on only if the element runs, and whenever it runs unless the media failed or the slider moved it back between its end and the pause there |
| `PreviewControls.ExceptionsDisagree` | components/audio-preview-player.tsx:86-92 | both exceptions are real: the button then offers a start while the element runs |
| `PreviewComponents.AudioPreviewPlayer.OnToggle` | components/audio-preview-player.tsx:48-60 | `toggle` on the element and its flags computes the step of the specification |
| `PreviewComponents.AudioPreviewPlayer.OnLoadedMetadata` | components/audio-preview-player.tsx:79-85 | so does the listener for the metadata, which takes a shown failure back |
| `PreviewComponents.AudioPreviewPlayer.RunTask` | components/audio-preview-player.tsx:64-91 | the element's events and the settlements of `play()` do |
| `PreviewComponents.DigitalTrackRow.OnToggle` | components/digital-catalog.tsx:48-58 | the row's `toggle`, with its playback intent, does |
| `PreviewComponents.DigitalTrackRow.OnOtherMedia` | components/digital-catalog.tsx:43-47 | the row's coordinator listener does: it records the interruption as intended exactly when a start is pending or the element runs |
| `PlaybackArbitration.AtMostOneEstablished` | lib/media/playback-coordinator.ts:24-46 | for any number of players of the three kinds that come and go, and every run, all but at most one of the running ones still have an undelivered play event |
| `PlaybackArbitration.AtMostOnePlays` | components/audio-preview-player.tsx:42-73 | starting from silence, whenever no play event is outstanding at most one medium runs |
| `PlaybackArbitration.ClaimantRunsAlone` | lib/media/playback-coordinator.ts:39-45 | when a medium announces itself every other one is silent after that step |
| `PlaybackArbitration.EstablishedByClaim` | components/home-jukebox.tsx:673-684 | a medium of any kind comes to run with its play event delivered only in a step that announces it |
| `Prelude.UniqueKeepsFirstOccurrences` | components/digital-catalog.tsx:16-17 | filling a Set keeps each element once, in the order of first occurrence |
| `DigitalCartStorage.ReadIsNormal` | components/digital-catalog.tsx:16 | whatever is stored, reading gives at most fifty distinct ids |
| `DigitalCartStorage.ReadAfterWrite` | components/digital-catalog.tsx:16-17 | reading after writing gives the first fifty distinct ids in order, and a normal list unchanged |
| `DigitalCartStorage.AddedOfferIsVisible` | components/digital-catalog.tsx:20-24 | an added offer is in the cart afterwards if and only if it was there or the cart had room, and the others keep their places |
| `DigitalQuote.NormalizeShape` | lib/digital/domain.ts:39-75 | for distinct selected ids the quoted lines are a duplicate-free part of them, the removed ones are the others, and the total is the sum of the lines |
| `DigitalQuote.NormalizeIsIdempotent` | lib/digital/domain.ts:39-75 | quoting the kept lines again gives the same lines and total with nothing removed |
| `DigitalQuote.QuoteSettles` | lib/digital/domain.ts:39-75 | for rows in any order, pruning a cart to its quoted ids settles it: rows in that order are kept as they are at the same price; the quoted ids are fewer exactly when something was removed |
| `DigitalQuote.QuotedIdsAreTheRest` | lib/digital/domain.ts:44-50 | the kept ids are those of the rows without the removed ones, in the order of the rows, and only asked ids are removed |
| `DigitalQuote.OrderDoesNotMatter` | lib/digital/catalog.ts:30-42 | the query asks for no order: whatever order the rows come in, the quote is refused or not alike, with the same total, the same lines and the same removed ids but for their order |
| `DigitalQuote.RemovedAreCovered` | lib/digital/domain.ts:42-50 | an id is removed if and only if it is a single title whose track is on an album that stays in the same cart |
| `DigitalQuote.QuotedExactly` | lib/digital/domain.ts:39-75 | there is a quote if and only if the offers are fifty at most and well priced, those not covered pass their buyer's checks, have no track in common, a completed album is alone, and they cost no more than the limit |
| `DigitalQuote.OffersOnSaleAreQuoted` | lib/digital/catalog.ts:30-42 | an offer that is not on sale refuses the cart; otherwise it is quoted as the normal form of its offers |
| `DigitalQuote.TotalAddsPrices` | lib/digital/domain.ts:71 | the total counts each line's own price once |
| `DigitalQuote.QuotedCartIds` | lib/digital/cart-presentation.ts:16-27 | the loop returns the ids of the lines exactly when all of them are distinct requested ids |
| `DigitalQuote.FloatingQuote` | lib/digital/floating-cart-presentation.ts:5-12 | a membership and a total are accepted exactly when both pass their checks |
| `DigitalQuote.ServerQuoteIsAccepted` | lib/digital/floating-cart-presentation.ts:5-12 | every quote of the server for distinct ids is accepted by the client, in whatever order its rows came |
| `CartNavigation.DigitalCartNavigation.RunUpdate` | components/digital-navigation.tsx:26-53 | `update` on the closure variables computes the step of the specification, with its three outcomes |
| `CartNavigation.DigitalCartNavigation.OnCartChanged` | components/digital-navigation.tsx:54-62 | so does the listener of the page's own cart event |
| `CartNavigation.DigitalCartNavigation.OnResponse` | components/digital-navigation.tsx:38-52 | so does the rest of the timer callback, with the re-entrant write and its failure |
| `DigitalCartPage.DigitalCart.RunRefresh` | components/digital-cart.tsx:28-30 | the start of `refresh` computes the step of the specification |
| `DigitalCartPage.DigitalCart.OnResponse` | components/digital-cart.tsx:32-41 | so does the rest of it, with its `catch`, its `finally` and the re-entrant pruning write |
| `DigitalTab.RunKeeps` | components/digital-navigation.tsx:24-69 | every interleaving of other tabs' writes, storage events, own writes, timers and late or lost answers, each with its rows in any order, keeps the invariant of the tab |
| `DigitalTab.DisplayedTotalIsForTheStoredCart` | components/digital-navigation.tsx:24-69 | whenever no storage event is undelivered a displayed total is the server's total for exactly the stored ids and the count that of its lines; a review notice beside it stands exactly when the quoted ids are not what is stored because storage was refused: some are covered by an album, or only their order differs |
| `DigitalTab.CheckoutIsForTheStoredCart` | components/digital-cart.tsx:28-49 | under the same condition the checkout button is enabled only with the server's answer for the stored ids, all of them in whatever order, nothing removed, and both components then show the same total |
| `DigitalTab.WaitingIsAnswered` | components/digital-navigation.tsx:26-63 | the checking flag implies the newest request, scheduled or sent, or an undelivered storage event; the updating flag implies the first timer or the newest request; neither stays on once nothing is outstanding |
| `DigitalTab.PruneAsksNothing` | components/digital-navigation.tsx:46-48 | after the pruning write re-enters `update` no request is scheduled or live, and the indicator shows the quote it has just got |
| `DigitalTabProgress.ChangedCartIsChecked` | components/digital-navigation.tsx:26-39 | every cart that the indicator hears of gets a newer request for exactly its ids, scheduled and shown as a check, unless it is empty or the confirmed one |
| `DigitalTabProgress.NewestAnswerIsShown` | components/digital-navigation.tsx:43-49 | the newest answer for the stored ids ends the check and shows its total and its count, after storing the quoted ids if they differ, or the review notice if storage refuses |
| `DigitalTabProgress.FailuresAreShown` | components/digital-navigation.tsx:50-52 | a newest request that fails or is refused ends the check with the notice; an older one, or one for other ids, changes nothing shown |
| `DigitalTabProgress.ScheduledQuoteArrives` | components/digital-navigation.tsx:39-49 | a scheduled check of a settled cart needs its timer and one answer to show the total |
| `DigitalTabProgress.CartIsAlwaysChecked` | components/digital-navigation.tsx:26-69 | over every run, whenever no storage event is undelivered, a cart with lines has its total shown, or the notice, or its newest request scheduled or on its way and shown as a check; an empty one shows none of these |
| `DigitalTabProgress.CartIsRefreshed` | components/digital-cart.tsx:28-30 | so does the page: each change of the cart, and its first timer, sends a newer refresh for exactly the stored ids and shows it |
| `DigitalTabProgress.NewestQuoteIsShown` | components/digital-cart.tsx:32-34 | the newest answer for the stored ids, with nothing removed, is shown as it is |
| `DigitalTabProgress.NewestQuoteIsPruned` | components/digital-cart.tsx:35-41 | with something removed it is shown while the rest is stored and refreshed, or a failure if storage refuses |
| `DigitalTabProgress.PageFailuresAreShown` | components/digital-cart.tsx:39-41 | a newest refresh that fails clears the page; one for other ids only ends the waiting, an older one nothing |
| `DigitalTabProgress.PageIsAlwaysRefreshed` | components/digital-cart.tsx:28-49 | over every run, once no storage event is undelivered and no refresh under way, the page shows a failure or the quote of the stored cart, and the checkout is enabled exactly for a quoted cart with lines |
| `DigitalTab.OnlyTheNewestQuoteIsShown` | components/digital-cart.tsx:32-41 | the displayed quote changes only by the answer to the newest refresh, and to a quote only when it answers, in whatever order, for the ids stored now |
| `DigitalTab.WriteSettles` | components/digital-navigation.tsx:44-49 | a write of either component leaves the ids that were not removed, in the order of the rows, and nothing more to remove; it shrinks the cart exactly when something was removed, and otherwise only reorders it, which only the indicator does |
| `DigitalTab.SettledCartIsReordered` | lib/digital/catalog.ts:67-71 | a settled cart is written back by the indicator if and only if the newest answer has its rows in another order, and if storage refuses that write the review notice stands |
| `DigitalTab.ShrinkingEnds` | components/digital-cart.tsx:35-38 | over every run there is at most one shrinking write for each change of the selection, and one more for an unsettled start |
| `DigitalTab.ReorderingEnds` | components/digital-navigation.tsx:44-49 | and at most one reordering write for each, and one more for a start that the indicator has not confirmed, however the rows are ordered each time |
| `DigitalTab.PruningEnds` | components/digital-cart.tsx:35-38 | from the opening of the page on: at most one write of each sort, and one more of each for every change of the selection |
| `IdempotentSubmission.RunKeeps` | components/music-express.tsx:122-147 | every interleaving of submissions, retries, server steps, lost or delayed messages, reloads, recoveries and edits keeps the invariant of the page, the network and the server |
| `IdempotentSubmission.RetriesRepeatThePayload` | components/music-express.tsx:126-129 | every retry under a key carries the first payload, or its normal form after a recovery, and the server sees the same normal form |
| `IdempotentSubmission.EachKeyActsOnce` | lib/digital/express-service.ts:109-118 | each key takes effect at most once, every acknowledged one has, and no well-formed retry is ever answered with a conflict |
| `IdempotentSubmission.NewKeyOnlyWhenResolved` | components/music-express.tsx:126 | a key is minted only once every earlier attempt has been acknowledged or refused; without storage also when the page was left meanwhile |
| `IdempotentSubmission.EditsDiscardNothing` | components/music-express.tsx:110 | no edit that the page allows discards an attempt: edits are enabled exactly when none is retained |
| `IdempotentSubmission.SubmissionSends` | components/music-express.tsx:126-129 | a submission sends, and stores, the retained attempt or else the draft under a newly minted key, and nothing while it is not ready or awaits an answer |
| `IdempotentSubmission.SubmissionCompletes` | components/music-express.tsx:122-147 | from any reached state a well-formed submission, first or repeated, that the server applies and whose answer arrives is acknowledged, has taken effect exactly once and leaves the page free |
| `IdempotentSubmission.RefusalForgetsExactly` | components/music-express.tsx:142-143 | an attempt dropped on a status below 500 can still turn out applied if and only if its key is committed or a well-formed copy is on its way |
| `IdempotentSubmission.EffectsAreConserved` | components/music-express.tsx:122-147 | when no refusal is of that kind, the effects number the acknowledged requests and at most one more, for the attempt that is still retained or stored |
| `IdempotentSubmission.RefusedRetryActsTwice` | app/api/admin/digital/express/route.ts:18-19 | a concrete run without that condition: the first request is applied, its answer lost, the retry turned away by the rate limit, and the next submission acts a second time |
| `IdempotentSubmission.HandleChanges` | lib/digital/express-service.ts:109-118 | the server commits exactly when it goes through, the draft is well formed and the key is new; nothing else of the world changes but the message and its answer |
| `IdempotentSubmission.AnswersExactly` | lib/digital/express-service.ts:109-118 | a request is answered with a success exactly when it is well formed, its key is new or stands for the same normal form, and nothing fails on the way |
| `ExpressDraft.NormalFormIsStable` | lib/digital/express-policy.ts:35-58 | the normal form of a valid draft is valid and in normal form, so that storing, recovering and resending it changes nothing |
| `ExpressDraft.NormalFormKeepsContent` | lib/digital/express-policy.ts:35-58 | a draft has a normal form exactly if it is valid; that one has the same fields, tracks, prices and versions, and each title without the white space around it |
| `ExpressDraft.NormalFormIsTheOnly` | lib/digital/express-policy.ts:53-57 | no other draft does, so this determines the normal form |
| `ExpressDraft.DraftsAreIdempotent` | lib/digital/express-presentation.ts:39-41 | normalising drafts meets the condition under which the submission theorems hold |
| `ExpressSubmitters.MusicExpress.OnRecover` | components/music-express.tsx:64-98 | the recovery effect computes the client's recovery and leaves the publication alone: the stored attempt is retained exactly if it is valid, under its own key and with its content, prices and versions |
| `ExpressSubmitters.MusicExpress.OnEdit` | components/music-express.tsx:110 | `dirty` behind the locked inputs computes the client's edit, which changes nothing of the attempt |
| `ExpressSubmitters.MusicExpress.OnSave` | components/music-express.tsx:122-129 | `save` up to its request computes the client's submission exactly when its guards let it, with the retained attempt taken before the form |
| `ExpressSubmitters.MusicExpress.OnSaved` | components/music-express.tsx:130-147 | the rest of `save` computes the client's settlement; a success that cannot be installed counts as a failure |
| `ExpressSubmitters.MusicExpress.OnPublish` | components/music-express.tsx:163-168 | `confirmPublication` up to its request computes the client's submission of the publication |
| `ExpressSubmitters.MusicExpress.OnPublished` | components/music-express.tsx:169-175 | the rest of it computes the client's settlement and the panel's state |
| `ExpressSubmitters.MusicExpress.OnFilesRefreshed` | components/music-express.tsx:154-158 | a refresh of the files closes the confirmation panel and keeps the retained publication |
| `ExpressSubmitters.ExpressCollaborations.OnSave` | components/express-collaborations.tsx:25-28 | whatever change a form passes, the retained mutation is sent again unchanged; a new key only without one |
| `ExpressSubmitters.ExpressCollaborations.OnAnswer` | components/express-collaborations.tsx:29-37 | the mutation is dropped exactly on a success or a status below 500 |
| `ExpressSubmitters.ExpressVersionReview.OnSubmit` | components/express-version-review.tsx:22-30 | the retained decision is sent again unchanged, one request at a time |
| `ExpressSubmitters.ExpressVersionReview.OnResponse` | components/express-version-review.tsx:31-36 | the decision is dropped exactly on a success or a status below 500 |
| `PublicationRetry.StrandedForever` | components/music-express.tsx:154-158 | once the confirmation panel of a retained publication is closed or unchecked nothing on the page brings the retry back, nor gives the attempt up |
| `PublicationRetry.RetryPossibleExactly` | components/express-publication-confirmation.tsx:5-20 | after a publication of unknown outcome the promised retry is possible if and only if the panel was still open and confirmed when the answer came, neither a refresh of the files nor an artist credit came since, and no blocker stands; without the first two the attempt is stranded |
| `PublicationRetry.FlightRetryExactly` | components/music-express.tsx:154-175 | the same from the press that publishes on: of the controls used meanwhile only a refresh of the files takes the retry away |
| `PublicationRetry.PublishableExactly` | components/music-express.tsx:159-175 | with no request in flight a publication can be brought about, once its blockers are dealt with, if and only if the kept attempt has its panel open and checked, or none is kept and the panel is open or no draft is uncertain |
| `PublicationRetry.ControlsAct` | components/music-express.tsx:110-175 | each other control as far as it is enabled: only the refresh of the files is never locked |
| `ExpressRows.StepKeeps` | components/music-express.tsx:26-33 | after every handler and rendering, row objects and row keys are distinct, every row has a key, and each chosen file belongs to one row |
| `ExpressRows.RenderNames` | components/music-express.tsx:27-33 | rendering gives every row a key of its own through the weak map and renames none |
| `ExpressRows.RowFollowed` | components/music-express.tsx:111-121 | through each edit, move, generation, file choice and save a row keeps its key until it is saved, its id for good, its file until another choice for it and its text until it is retyped; only a row without id, title, file or changed price is dropped |
| `ExpressRows.FileStaysAttached` | components/music-express.tsx:111-121 | over whole runs a chosen file stays with its row, which is never dropped |
| `ExpressRows.PickingAttaches` | lib/digital/express-audio-selection.ts:8-19 | choosing a file attaches it exactly when it is one readable file that no other row has; otherwise nothing changes |
| `ExpressRows.SavingKeepsFiles` | lib/digital/express-audio-selection.ts:22-36 | a matching response gives each row its id and moves its file under it: none is lost, swapped or doubled |
| `ExpressRows.OnlyTheResponseCanMismatch` | lib/digital/express-audio-selection.ts:29-34 | in a reachable editor the checks of the binding on keys, files and signatures never fail |
| `ExpressRows.ReorderPermutes` | components/music-express.tsx:112 | moving a row only permutes the rows |
| `ExpressRowEffects.TypingSets` | components/music-express.tsx:111 | typing sets that field of that row and nothing else |
| `ExpressRowEffects.StepMoves` | components/music-express.tsx:112 | a step up or down exchanges exactly the two rows; one past an end changes nothing |
| `ExpressRowEffects.PreparingFits` | components/music-express.tsx:113-121 | preparing rows gives exactly the number asked for, the first as they were and the new ones blank at the default price, if it is between 1 and 100 and no row with content would be lost, and changes nothing otherwise |
| `ExpressRowEffects.RemovingDrops` | components/music-express.tsx:186 | taking a file back leaves exactly that row without one |
| `ExpressRowEffects.SavingInstalls` | components/music-express.tsx:131-133 | a matching response becomes the rows, in its order and with its ids and texts; any other is left aside |
| `ExpressRowEditor.RowEditor.AudioRowKey` | components/music-express.tsx:27-33 | `audioRowKey` returns the row's key and mints one exactly when it has none |
| `ExpressRowEditor.RowEditor.RenderRows` | components/music-express.tsx:27-33 | the rendering loop computes the specification's rendering |
| `ExpressRowEditor.RowEditor.ChangedTrack` | components/music-express.tsx:111 | `changedTrack` performs the specified change |
| `ExpressRowEditor.RowEditor.OnReorder` | components/music-express.tsx:112 | `reorder` does, and permutes |
| `ExpressRowEditor.RowEditor.OnGenerate` | components/music-express.tsx:113-121 | `generate` does, with its search for occupied rows |
| `ExpressRowEditor.RowEditor.OnFiles` | components/music-express.tsx:182-187 | the drop handler does |
| `ExpressRowEditor.RowEditor.OnSaved` | components/music-express.tsx:131-133 | the end of `save` binds exactly when the response matches the rows, and every row keeps its file |
| `Checkout.SameKeySamePayload` | components/digital-checkout.tsx:39-62 | in every run two payment requests under one key agree on every field but the provider |
| `Checkout.SettersDropTheKey` | components/digital-checkout.tsx:49-50 | each form handler drops the key, or leaves it with every field a payment request may carry |
| `CheckoutEffects.EachRequestCarriesTheDeclaration` | components/digital-checkout.tsx:53-62 | over every run, a step sends a payment request exactly when a button is pressed on a free page that is ready; the request carries the id, the hash and the postal codes of the declaration saved then, all three consents, on a live page the same billing address, and no other one |
| `CheckoutEffects.ReadyExactly` | components/digital-checkout.tsx:41-48 | the page is ready exactly for an eligible saved address that is shown field by field, with every box ticked and nothing under way |
| `CheckoutEffects.RequestCarries` | components/digital-checkout.tsx:63-65 | pressing a button of a ready and free page sends that request under the key in use, to that provider, and takes the lock |
| `CheckoutEffects.PayingFreezesThePage` | components/digital-checkout.tsx:46-52 | over every run, while a payment is under way no input, save or refresh changes the page, and the newest request carries the declaration saved and shown |
| `CheckoutEffects.EachSaveCarriesTheAddress` | components/digital-checkout.tsx:51 | over every run, each save carries the address as it stands, confirmed, with the id of the declaration it replaces; it is the address last confirmed |
| `CheckoutEffects.SaveCarries` | components/digital-checkout.tsx:51 | a save is sent exactly for a changed, confirmed and well-formed address with nothing under way |
| `CheckoutEffects.EntryChangesItsField` | components/digital-checkout.tsx:49-50 | each of the ten inputs changes its own field and no other, but that an edit of the residence withdraws its confirmation, and drops the keys it must; one that cannot be used changes nothing |
| `CheckoutEffects.AddressAnswers` | components/digital-checkout.tsx:39 | a saved or refreshed residence is adopted field by field, with the consent only for a save; a failure only ends the waiting |
| `CheckoutEffects.LoadingAnswers` | components/digital-checkout.tsx:40 | so is the first one, without a consent; a failed load opens the fields |
| `CheckoutEffects.AnswersAreRemembered` | components/digital-checkout.tsx:64-66 | the tracking link is the last order told by any answer, and the review notice stands for exactly its causes; neither is taken back |
| `CheckoutEffects.AnswersEndTheirRequest` | components/digital-checkout.tsx:63-66 | every answer ends its request and frees the page, but that a usable PayPal order keeps it until PayPal comes back and a Stripe operation outlasts PayPal's callbacks |
| `CheckoutEffects.CardPaymentCompletes` | components/digital-checkout.tsx:64 | from any free page that is ready, paying by card and an answer leave a free page that links the order |
| `Checkout.BusyIsOwned` | components/digital-checkout.tsx:63-66 | in every run the page is busy exactly while a provider owns the operation, and Stripe owns it exactly while its one request is out |
| `Checkout.PaypalNeverReleasesStripe` | components/digital-checkout.tsx:63-66 | no PayPal callback, however late, touches a Stripe operation; only the answer to Stripe's request ends it |
| `Checkout.OneRequestAtATime` | components/digital-checkout.tsx:63-66 | as long as PayPal is not left before its order is created, at most one payment request is out |
| `Checkout.OpenedPageAsksOnce` | components/digital-checkout.tsx:63-66 | in particular in every such run from the opened page on |
| `Checkout.SecondRequestExactly` | components/digital-checkout.tsx:127 | leaving PayPal while its order is being created lets a Stripe request go out beside it, under the same key, if and only if the callback is a cancellation without an order, an error before any order was started, or an approval that was captured |
| `Checkout.ConfirmationIsForTheAddress` | components/digital-checkout.tsx:39-52 | in every run a standing confirmation of residence, and so a page ready to pay, is for exactly the address shown: each edit and each reload withdraws it |
| `Checkout.OpenedPageConfirms` | components/digital-checkout.tsx:39-52 | from the opened page on, a page ready to pay has last been confirmed for the address it shows |
| `Checkout.ReviewStopsPayments` | components/digital-checkout.tsx:48 | once an attempt needs a review no further payment is asked on the page |
| `Checkout.SameSaveKeySameAddress` | components/digital-checkout.tsx:51 | two saves under one key send the same address and expectation, as long as no refresh forgets a declaration |
| `Checkout.OpenedPageSavesAgree` | components/digital-checkout.tsx:51 | in particular for any two saves of a run from the opened page on |
| `Checkout.ForgottenDeclarationReusesTheKey` | components/digital-checkout.tsx:51-52 | when a refresh does, confirming and saving again sends another payload under the key of the unanswered save |
| `CheckoutComponent.OperationLock.Claim` | lib/digital/checkout-operation.ts:9-13 | the lock is taken exactly when it is free |
| `CheckoutComponent.OperationLock.Release` | lib/digital/checkout-operation.ts:15-19 | it is released exactly by its owner |
| `CheckoutComponent.DigitalCheckout.Hydrate` | components/digital-checkout.tsx:39 | `hydrate` performs the specified step |
| `CheckoutComponent.DigitalCheckout.SaveResidence` | components/digital-checkout.tsx:51 | the start of `saveResidence` does, with the guards of its button |
| `CheckoutComponent.DigitalCheckout.RequestCheckout` | components/digital-checkout.tsx:53-62 | `requestCheckout` does |
| `CheckoutComponent.DigitalCheckout.PayByCardOrLocal` | components/digital-checkout.tsx:64 | `payByCardOrLocal` does |
| `CheckoutComponent.DigitalCheckout.CreatePaypalOrder` | components/digital-checkout.tsx:65 | `createPaypalOrder` does, and asks exactly when the lock is free and the page ready |
| `CheckoutComponent.DigitalCheckout.OnPaypalCancel` | components/digital-checkout.tsx:127 | the cancel callback does |
| `ShopCart.FilledKeepsFirstPlaces` | components/shop-cart-provider.tsx:36-49 | parsing keeps each accepted product once, in the order of its first entry |
| `ShopCart.FilledKeepsLastQuantities` | components/shop-cart-provider.tsx:36-49 | with the quantity of its last accepted entry |
| `ShopCart.ParsedIsNormal` | components/shop-cart-provider.tsx:31-54 | any JSON value is parsed to at most 20 lines of distinct UUID products with quantities 1 to 20, at most 400 items |
| `ShopCart.ParseStoredCart` | components/shop-cart-provider.tsx:31-54 | the parser's loop computes that |
| `ShopCart.AcceptedExactly` | components/shop-cart-provider.tsx:31-49 | an entry is accepted as a line if and only if the line is valid and the entry is exactly the line's own, with no other member |
| `ShopCart.ParseOfSerialized` | components/shop-cart-provider.tsx:71-78 | a stored normal cart is read back as its UUID products, and unchanged if and only if it holds no others |
| `ShopCart.AddIsBounded` | components/shop-cart-provider.tsx:80-89 | adding keeps the cart normal, raises that product by what was asked up to 20, turns a twenty-first product away and leaves every other line |
| `ShopCart.SetQuantityIsExact` | components/shop-cart-provider.tsx:90-98 | setting a quantity sets it, at most to 20, for a product of the cart and removes the line for anything below one |
| `ShopCart.RemoveIsUpdate` | components/shop-cart-provider.tsx:99-101 | removing takes exactly that product away |
| `ShopCart.EveryRunIsNormal` | components/shop-cart-provider.tsx:56-111 | the cart stays normal through every run of updates and reloads |
| `ShopCart.ClickStaysWithinLimit` | components/shop-add-button.tsx:27-47 | a click adds exactly the chosen quantity cut to what remains, never past the product's limit, nothing past a limit already passed, and nothing when twenty other products fill the cart |
| `ShopCart.EarlyClickPassesLimit` | components/shop-add-button.tsx:27-29 | before the stored cart is known a click takes a product past its limit, or further past it, if and only if the limit is a real one, the product is already in the cart below the cart's own maximum, and what is added does not fit |
| `ShopCart.ShopCartProvider.Update` | components/shop-cart-provider.tsx:71-102 | each update performs the specified one and stores the result unless storage is refused |
| `ShopOrder.OneOrderPerPurchase` | components/shop-cart.tsx:179-243 | in every run that does not disturb an unresolved order there is one server order for each purchase the buyer was told of, at most one more, and the key for that one is still stored |
| `ShopOrder.RetryFindsTheOrder` | lib/shop/order-service.ts:547-561 | a retry of the order that a key has made creates nothing and is answered with that order |
| `ShopOrder.SubmissionSendsTheShown` | components/shop-cart.tsx:193-214 | a submission sends the order as shown, with every change made to it, under the stored key or a new one |
| `ShopOrder.PurchaseCompletes` | components/shop-cart.tsx:221-235 | a first submission that is accepted and answered makes exactly the order shown, acknowledges it and empties the cart |
| `ShopOrder.RequestIsHandled` | lib/shop/order-service.ts:547-561 | a request makes an order exactly for a new key that is accepted; a known key is answered with its order or a conflict, by the content |
| `ShopOrder.AnswerIsTaken` | components/shop-cart.tsx:215-243 | an answer frees the page; an order or a conflict drops the key, and only an order empties the cart |
| `ShopOrder.FormChangeOrdersAgain` | components/shop-cart.tsx:106-110 | after a lost answer any form change lets the very next submission create a second order |
| `ShopOrder.RetiringConflictsThenOrdersAgain` | components/shop-cart.tsx:222 | removing a line instead keeps the key: the next submission meets a conflict, creates nothing and drops it, and the one after creates a second order |
| `ShopOrder.OrderedTwiceExactly` | components/shop-cart.tsx:106-111 | in any state of a steady run, one more event makes two unacknowledged orders possible without a further change by the buyer if and only if it disturbs an order whose earlier request may have made it, answered or still travelling, by the form, a removed line or a new quote |
| `ShopOrder.SteadyRunsAreTheSafeOnes` | components/shop-cart.tsx:179-243 | the same from the opened page on: steady runs never have two such orders, and the first disturbance is what makes them possible |
| `ShopOrder.ShopCartForm.OnSubmit` | components/shop-cart.tsx:193-214 | `submit` sends the stored key, or mints and stores one |
| `ShopOrder.ShopCartForm.OnResponse` | components/shop-cart.tsx:221-235 | the key is dropped exactly on a created order or a conflict |
| `MemoryDiagnostics.StartCounts` | lib/memory-diagnostics.ts:180-184 | starting an operation keeps the counters exact if and only if its counter is not full |
| `MemoryDiagnostics.CountersAreExact` | lib/memory-diagnostics.ts:173-213 | over every overlap of operations each counter is the number of its operations in flight, as long as none is ever full |
| `MemoryDiagnostics.OperationsAreUntouched` | lib/memory-diagnostics.ts:131-213 | whatever clocks, readers and loggers return or throw, enabled or not, the operations are called as often, their callers get the same completions, and the counters are the same |
| `MemoryDiagnostics.EachRunsOnce` | lib/memory-diagnostics.ts:173-213 | in every run of a new process each `runOperation` calls its operation exactly once and completes exactly as that did, value or throw, and when that did |
| `MemoryDiagnostics.CaptureReturns` | lib/memory-diagnostics.ts:131-171 | `captureSnapshot` never throws, whatever the reader and the logger do: its two catches leave exactly the snapshot handed to the logger, or none |
| `MemoryDiagnostics.OpeningAndClosingReturn` | lib/memory-diagnostics.ts:187-212 | nothing before the call of the operation throws, so that it is reached, and nothing in the `finally` block does, so that the completion of the operation is passed on |
| `MemoryDiagnostics.CountersCountFlights` | lib/memory-diagnostics.ts:173-213 | from the creation of the process on each counter is the number of its operations in flight, unless one was ever full |
| `MemoryDiagnostics.SnapshotsAreSound` | lib/memory-diagnostics.ts:131-171 | a logged snapshot counts the operation before it runs and not after, names an outcome only after, and never has a negative duration |
| `MemoryDiagnostics.OutcomesAreTrue` | lib/memory-diagnostics.ts:186-212 | in every run of a new process a snapshot from after an operation says completed exactly if that operation returned, and each call logs at most one before and one after it, in that order |
| `MemoryDiagnostics.OperationCompletes` | lib/memory-diagnostics.ts:173-213 | an operation that starts and ends was called once, its caller has its completion, and its counter is where it was |
| `MemoryDiagnostics.StartLogs` | lib/memory-diagnostics.ts:187-196 | a start logs one snapshot exactly if it captures and the memory can be read, of its kind and with itself counted, and notes the time if there is one |
| `MemoryDiagnostics.EndLogs` | lib/memory-diagnostics.ts:201-212 | so does an end, with its outcome, no longer counted, and with the time between the two clocks exactly when both are known and in order |
| `MemoryDiagnostics.CaptureReportsUsage` | lib/memory-diagnostics.ts:131-171 | a snapshot is taken exactly when every size is finite and not negative, gives each size in its place to a twentieth of a mebibyte and the duration to half a microsecond |
| `MemoryDiagnostics.MiBIsNear` | lib/memory-diagnostics.ts:95-98 | sizes are rounded to the nearest tenth of a mebibyte and missing exactly when negative or not finite |
| `MemoryDiagnostics.Diagnostics.CaptureSnapshot` | lib/memory-diagnostics.ts:131-171 | `captureSnapshot` returns normally with the specified snapshot, or none |
| `MemoryDiagnostics.Diagnostics.BeginOperation` | lib/memory-diagnostics.ts:178-197 | `runOperation` up to the call counts, times and logs as specified and reaches the call |
| `MemoryDiagnostics.Diagnostics.EndOperation` | lib/memory-diagnostics.ts:197-212 | its end with the `finally` block completes exactly as the operation did |
| `SiteMotion.EveryRunIsSound` | components/site-motion.tsx:135-243 | through any pointer, frame and mode events every coordinate stays within [-1, 1], at most one frame is requested, none when motion is off or the page left, and when none is every element is at its target |
| `SiteMotion.MountedRunIsSound` | components/site-motion.tsx:135-243 | in particular in every run from the mounting of the effect on |
| `SiteMotion.LoopStops` | components/site-motion.tsx:147-174 | with fixed elements and pointer the loop stops within 47 frames for any number of elements, each exactly at its target |
| `SiteMotion.MovementIsFollowed` | components/site-motion.tsx:205-210 | after a movement of the pointer over an element it ends, within those frames, where the pointer is across it |
| `SiteMotion.LeavingReturns` | components/site-motion.tsx:211-216 | once the pointer has left an element, whatever it does on others, the element is back at its centre when the loop stops |
| `SiteMotion.ModeSwitches` | components/site-motion.tsx:189-237 | switching motion on finds every element at its centre without a frame; switching it off leaves no element and no frame |
| `SiteMotion.LeftPageIsStill` | components/site-motion.tsx:176-243 | once the page is left nothing moves or is asked for any more |
| `SiteMotion.LoopNeedsThemAll` | components/site-motion.tsx:160-165 | a full swing still asks for a frame after the 46th |
| `SiteMotion.AimFollowsPointer` | components/site-motion.tsx:152-158 | the target goes from -1 at the left or top edge of an element to 1 at the right or bottom edge in proportion to the pointer, and no further beyond |
| `SiteMotion.ClampMotion` | components/site-motion.tsx:28-30 | the result is within [-1, 1], and the argument itself when that is |
| `SiteMotion.EasingIsGradual` | components/site-motion.tsx:160-165 | a coordinate moves by the same share of its way at a time in both directions, and all of the last two thousandths at once |
| `SiteMotion.MotionEffect.OnFrame` | components/site-motion.tsx:147-174 | `runFrame` over the target objects performs the specified step |
| `SiteMotion.MotionEffect.AdvanceTargets` | components/site-motion.tsx:151-171 | its loop advances every target once and asks for a frame exactly when one is not at rest |
| `SiteMotion.MotionEffect.AttachTargets` | components/site-motion.tsx:189-225 | attaching makes new, distinct targets at rest |
| `SiteMotion.MotionEffect.DetachTargets` | components/site-motion.tsx:176-187 | detaching cancels the requested frame and forgets the targets |
| `SupportAmount.CentsAreIntended` | components/support-form.tsx:23 | every accepted text of at most nine characters becomes exactly the cents it says, whatever the rounding errors of the conversion and of the product within 2^-53 |
| `SupportAmount.IntendedIsExact` | components/support-form.tsx:23 | the intended cents are exactly a hundred times the number the text denotes |
| `ExcerptTime.LabelIsReadBack` | components/digital-excerpt-review.tsx:14-17 | the label of every whole number of milliseconds is read back as that number |
| `ExcerptTime.LabelsDiffer` | components/digital-excerpt-review.tsx:14-17 | different times have different labels |
| `AdminCleanup.EverySelectionIsHomogeneous` | components/admin-cleanup-form.tsx:56-67 | with fixed candidates of distinct keys every reachable selection has one type and one classification and holds only unarchived deletable or archivable items |
| `AdminCleanup.BoxesSelect` | components/admin-cleanup-form.tsx:54-66 | a ticked box adds its item, or starts a new selection where it does not fit, and an unticked one takes just its item out; both withdraw the confirmation, and one that cannot be used changes nothing |
| `AdminCleanup.PlanIsPure` | components/admin-cleanup-form.tsx:22-31 | the summary then deletes all of the selection, or archives all of it, and ignores nothing |
| `AdminCleanup.Summarize` | components/admin-cleanup-form.tsx:22-31 | the counting loop computes that summary |
| `AdminCleanup.ConfirmationIsCurrent` | components/admin-cleanup-form.tsx:57 | a standing confirmation was given for exactly the current selection |
| `AdminCleanup.RefreshedPlanExactly` | components/admin-cleanup-form.tsx:15-31 | over refreshed candidates of distinct keys the plan still treats the whole selection in one way if and only if every selected key is still there and all of them are deletable, or all archivable |
| `AdminCleanup.RefreshKeepsThePlanExactly` | components/admin-cleanup-form.tsx:15-67 | the same for the selection of every run of the page and any list that replaces its own |
| `AdminCleanup.RefreshedCandidatesMix` | components/admin-cleanup-form.tsx:15-17 | a pair of lists for which it fails under a standing confirmation |
| `AdminNavigation.MarkedEntryIsNearest` | components/admin-navigation.tsx:46-75 | a menu entry is marked if and only if it matches the path and no longer one does; at most one is |
| `AdminNavigation.MatchesExactly` | components/admin-navigation.tsx:46-50 | an entry matches its own page and, but for the root of the menu, every page below it |

## Left out

- Rendering, styles, translations, focus, scrolling, filters and sorting: no state of the protocols depends on them.
- `progress`, `ended`, `machineEngaged` and the seated record of the jukebox: displayed only, read by no handler.
- React scheduling: effects run before the next event, and no handler sees a stale render; a double click before a render is not modelled.
- Real HTTP, PayPal, Stripe, the database and their rate limits: a server is its contract by key, and a verdict per message.
- DigitalTab.ReorderingEnds: a write of another tab's indicator is a change of the selection like any other, so two tabs whose answers keep differing in order can go on rewriting each other's cart.
- DigitalTab.DisplayedTotalIsForTheStoredCart: the catalogue, the prices and what the buyer owns are fixed, because the browser is told of no change.
- DigitalQuote.NormalizeShape: the checks of a line against the buyer's ownership and completion credits are one predicate of the server, which the client never sees.
- The animation timer of the cart indicator and its unmount, and the add and remove buttons beyond the writes they make.
- Two tabs that submit drafts at once: the stored attempt of one can overwrite that of the other; the theorems are about one page and its reloads.
- ExpressSubmitters.MusicExpress.OnRecover: the stored attempt is taken to be the one of this project, as the storage key says; the cached form beside it is only a flag.
- ExpressSubmitters.MusicExpress.OnSaved: files accepted for upload while a save is under way are not put back by it in the model.
- The artist credit request and the batch upload of the editor: only their effect on the confirmation panel.
- IdempotentSubmission.EachKeyActsOnce: the actor of a request is fixed, so the server's comparison of actors never fails.
- CheckoutComponent.DigitalCheckout.RequestCheckout: the form's inputs are one record of values, and the texts' own checks are the flag of the save button.
- The caching of one creation per PayPal button (`lib/digital/paypal-sdk-browser.ts:93-103`): the model lets a button ask again, which includes what it does.
- The server's comparison of a checkout retry with the stored order: only that equal keys carry equal payloads is proved.
- ShopOrder.OneOrderPerPurchase: the quote, the availability and the price of the lines are part of the order shown; the quote request itself is not modelled.
- JSON text: `ShopCart` parses JSON values, not their characters; a duplicated member name keeps its last value.
- SiteMotion.LoopStops: arithmetic over the reals; the style properties written from the coordinates, and the other two effects of the component, are not modelled.
- SupportAmount.CentsAreIntended: the conversion and the product are any numbers within the relative error of rounding to nearest, not bit patterns.
- ExcerptTime.LabelIsReadBack: whole numbers of milliseconds from zero; the rounding of others and the clamp at zero come before the label.
- MemoryDiagnostics.CountersAreExact: beyond the largest safe integer of one kind in flight the counter stays behind; `StartCounts` says from which start on.
- The polling, the editor and the listening receipts of the excerpt review; uploads, shipping, residence review, accounts, `proxy.ts`, health checks and scripts.
