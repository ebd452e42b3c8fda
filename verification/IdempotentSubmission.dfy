/**
 A keyed request that may be retried over a network that loses, delays and reorders messages, to a server that applies
 each key once. The same client discipline serves the draft, the publication, the credits and the version reviews.
 */
module IdempotentSubmission {
  import opened Prelude

  /** Keys are random UUIDs in the program; a counter stands for their freshness. */
  type Key = nat

  datatype Message<B> = Message(key: Key, body: B)

  datatype Client<B> = Client(
    retained: Option<Message<B>>,
    persisted: Option<Message<B>>,
    awaiting: bool,
    ready: bool,
    uncertain: bool,
    minted: nat)

  /** What the page makes of an outcome: a status below 500 is a refusal, anything else but a success is a failure. */
  datatype Outcome = Success | Refusal | Failure

  /** `durable` says whether the attempt is also written to local storage. */
  function Submit<B>(durable: bool, c: Client<B>, draft: B): Client<B> {
    if !c.ready || c.awaiting then c
    else
      var m := if c.retained.Some? then c.retained.value else Message(c.minted, draft);
      c.(retained := Some(m),
         persisted := if durable then Some(m) else c.persisted,
         awaiting := true,
         uncertain := false,
         minted := if c.retained.Some? then c.minted else c.minted + 1)
  }

  function Settle<B>(c: Client<B>, outcome: Outcome): Client<B> {
    if !c.awaiting then c
    else if outcome.Failure? then c.(awaiting := false, uncertain := true)
    else c.(retained := None, persisted := None, awaiting := false, uncertain := false)
  }

  function Reload<B>(c: Client<B>): Client<B> {
    c.(retained := None, awaiting := false, ready := false, uncertain := false)
  }

  /** Recovery keeps a stored attempt only in the normal form that the server would give it. */
  function Recover<B>(canonical: B -> Option<B>, c: Client<B>): Client<B> {
    if c.ready then c
    else if c.persisted.Some? && canonical(c.persisted.value.body).Some? then
      c.(ready := true, uncertain := true,
         retained := Some(Message(c.persisted.value.key, canonical(c.persisted.value.body).value)))
    else c.(ready := true)
  }

  predicate EditEnabled<B>(c: Client<B>) {
    c.ready && !c.awaiting && !c.uncertain
  }

  function Edit<B>(c: Client<B>): Client<B> {
    if EditEnabled(c) then c.(retained := None) else c
  }

  // ----- the network and the server

  datatype Verdict = Apply | ApplyThenFail | Refuse | Fail

  datatype World<B> = World(
    client: Client<B>,
    awaited: nat,
    copies: seq<Message<B>>,
    transit: set<nat>,
    answers: map<nat, Outcome>,
    committed: map<Key, B>,
    effects: seq<Key>,
    acknowledged: set<Key>,
    refused: set<Key>,
    abandoned: set<Key>)

  /** `Loses` also covers an answer that the page cannot read or cannot install. */
  datatype Event<B> =
    | Submits(draft: B)
    | Reaches(copy: nat, verdict: Verdict)
    | Vanishes(copy: nat)
    | Receives
    | Loses
    | Reloads
    | Recovers
    | Edits

  /** What the server does with a copy: it applies a key once and answers a repeated request like the first one. */
  function Handle<B(==)>(canonical: B -> Option<B>, w: World<B>, copy: nat, verdict: Verdict): World<B>
    requires copy < |w.copies|
  {
    var m := w.copies[copy];
    var arrived := w.(transit := w.transit - {copy});
    if verdict == Refuse || verdict == Fail then
      arrived.(answers := w.answers[copy := if verdict == Refuse then Refusal else Failure])
    else if canonical(m.body).None? then arrived.(answers := w.answers[copy := Refusal])
    else if m.key in w.committed && w.committed[m.key] != canonical(m.body).value then
      arrived.(answers := w.answers[copy := Refusal])
    else
      var answer := if verdict == Apply then Success else Failure;
      if m.key in w.committed then arrived.(answers := w.answers[copy := answer])
      else arrived.(answers := w.answers[copy := answer],
                    committed := w.committed[m.key := canonical(m.body).value],
                    effects := w.effects + [m.key])
  }

  function Deliver<B>(w: World<B>, outcome: Outcome): World<B> {
    if !w.client.awaiting || w.client.retained.None? then w
    else
      var key := w.client.retained.value.key;
      w.(client := Settle(w.client, outcome),
         acknowledged := if outcome.Success? then w.acknowledged + {key} else w.acknowledged,
         refused := if outcome.Refusal? then w.refused + {key} else w.refused)
  }

  function Step<B(==)>(canonical: B -> Option<B>, durable: bool, w: World<B>, e: Event<B>): World<B> {
    match e
    case Submits(draft) =>
      var client := Submit(durable, w.client, draft);
      if w.client.ready && !w.client.awaiting && client.retained.Some? then
        w.(client := client, awaited := |w.copies|, copies := w.copies + [client.retained.value],
           transit := w.transit + {|w.copies|})
      else w
    case Reaches(copy, verdict) =>
      if copy in w.transit && copy < |w.copies| then Handle(canonical, w, copy, verdict) else w
    case Vanishes(copy) => w.(transit := w.transit - {copy})
    case Receives => if w.awaited in w.answers then Deliver(w, w.answers[w.awaited]) else w
    case Loses => w.(client := Settle(w.client, Failure))
    case Reloads =>
      var lost := if w.client.retained.Some? && !durable then {w.client.retained.value.key} else {};
      w.(client := Reload(w.client), abandoned := w.abandoned + lost)
    case Recovers => w.(client := Recover(canonical, w.client))
    case Edits => w.(client := Edit(w.client))
  }

  function Run<B(==)>(canonical: B -> Option<B>, durable: bool, w: World<B>, events: seq<Event<B>>): World<B>
    decreases |events|
  {
    if events == [] then w else Run(canonical, durable, Step(canonical, durable, w, events[0]), events[1..])
  }

  function Fresh<B>(): World<B> {
    World(Client(None, None, false, false, false, 0), 0, [], {}, map[], map[], [], {}, {}, {})
  }

  // ----- what every step keeps

  ghost predicate Idempotent<B(!new)>(canonical: B -> Option<B>) {
    forall b :: canonical(b).Some? ==> canonical(canonical(b).value) == canonical(b)
  }

  /** `later` repeats `first`: the same bytes, or its normal form after a recovery. */
  ghost predicate Repeats<B>(canonical: B -> Option<B>, first: B, later: B) {
    later == first || canonical(first) == Some(later)
  }

  /** The page as such: an attempt is retained exactly while it is awaited or uncertain. */
  ghost predicate ClientSound<B>(canonical: B -> Option<B>, durable: bool, c: Client<B>) {
    && (c.retained.Some? <==> c.awaiting || c.uncertain)
    && (!c.ready ==> c.retained.None?)
    && (c.retained.Some? ==> c.retained.value.key < c.minted)
    && (c.persisted.Some? ==> c.persisted.value.key < c.minted)
    && (durable && c.retained.Some? ==>
          && c.persisted.Some? && c.persisted.value.key == c.retained.value.key
          && Repeats(canonical, c.persisted.value.body, c.retained.value.body))
    && (durable && c.ready && c.retained.None? && c.persisted.Some? ==> canonical(c.persisted.value.body).None?)
    && (!durable ==> c.persisted.None?)
  }

  ghost predicate SentBefore<B>(canonical: B -> Option<B>, copies: seq<Message<B>>, m: Option<Message<B>>) {
    m.Some? ==> forall i :: 0 <= i < |copies| && copies[i].key == m.value.key ==>
                              Repeats(canonical, copies[i].body, m.value.body)
  }

  ghost predicate CopiesRepeat<B>(canonical: B -> Option<B>, copies: seq<Message<B>>) {
    forall i, j :: 0 <= i < j < |copies| && copies[i].key == copies[j].key ==>
                     Repeats(canonical, copies[i].body, copies[j].body)
  }

  ghost predicate NetworkSound<B>(w: World<B>) {
    && (forall i :: 0 <= i < |w.copies| ==> w.copies[i].key < w.client.minted)
    && (forall i :: i in w.transit ==> i < |w.copies|)
    && (w.client.awaiting ==> w.awaited < |w.copies| && w.client.retained.Some?
                              && w.copies[w.awaited].key == w.client.retained.value.key)
  }

  ghost predicate ServerSound<B>(canonical: B -> Option<B>, w: World<B>) {
    && (forall key :: key in w.committed ==>
          key < w.client.minted
          && exists i :: 0 <= i < |w.copies| && w.copies[i].key == key && canonical(w.copies[i].body).Some?)
    && (forall i :: 0 <= i < |w.copies| && w.copies[i].key in w.committed ==>
          canonical(w.copies[i].body) == Some(w.committed[w.copies[i].key]))
    && (forall key :: key in w.effects <==> key in w.committed)
    && Distinct(w.effects)
  }

  /** The key whose outcome is still to be found out, if any; after a reload it is the stored one. */
  ghost predicate Open<B>(c: Client<B>, key: Key) {
    || (c.retained.Some? && c.retained.value.key == key)
    || (!c.ready && c.persisted.Some? && c.persisted.value.key == key)
  }

  ghost predicate Accounted<B>(w: World<B>, key: Key) {
    key in w.acknowledged || key in w.refused || key in w.abandoned || Open(w.client, key)
  }

  ghost predicate AllAccounted<B>(canonical: B -> Option<B>, durable: bool, w: World<B>) {
    && (forall i :: 0 <= i < |w.copies| && canonical(w.copies[i].body).Some? ==> Accounted(w, w.copies[i].key))
    && (forall key :: key in w.acknowledged || key in w.refused || key in w.abandoned ==> key < w.client.minted)
    && (durable ==> w.abandoned == {})
  }

  ghost predicate AnswersSound<B>(w: World<B>) {
    && (forall i :: i in w.answers && w.answers[i].Success? ==> i < |w.copies| && w.copies[i].key in w.committed)
    && (forall key :: key in w.acknowledged ==> key in w.committed)
  }

  ghost predicate Inv<B(!new)>(canonical: B -> Option<B>, durable: bool, w: World<B>) {
    && Idempotent(canonical)
    && ClientSound(canonical, durable, w.client)
    && SentBefore(canonical, w.copies, w.client.retained)
    && SentBefore(canonical, w.copies, w.client.persisted)
    && CopiesRepeat(canonical, w.copies)
    && NetworkSound(w)
    && ServerSound(canonical, w)
    && AllAccounted(canonical, durable, w)
    && AnswersSound(w)
  }

  lemma RepeatsHasSameForm<B(!new)>(canonical: B -> Option<B>, first: B, later: B)
    requires Idempotent(canonical) && Repeats(canonical, first, later) && canonical(first).Some?
    ensures canonical(later) == canonical(first)
  {
  }

  lemma RepeatsItself<B(!new)>(canonical: B -> Option<B>)
    ensures forall b :: Repeats(canonical, b, b)
  {
  }

  /** Two copies under one key have the same normal form, or none. */
  lemma SameKeySameForm<B(!new)>(canonical: B -> Option<B>, copies: seq<Message<B>>, i: nat, j: nat)
    requires Idempotent(canonical) && CopiesRepeat(canonical, copies)
    requires i < |copies| && j < |copies| && copies[i].key == copies[j].key
    ensures canonical(copies[i].body) == canonical(copies[j].body)
  {
    if i < j {
      assert Repeats(canonical, copies[i].body, copies[j].body);
    } else if j < i {
      assert Repeats(canonical, copies[j].body, copies[i].body);
    }
  }

  lemma CommitKeepsServer<B(!new)>(canonical: B -> Option<B>, w: World<B>, copy: nat, after: World<B>)
    requires Idempotent(canonical) && CopiesRepeat(canonical, w.copies) && ServerSound(canonical, w)
    requires copy < |w.copies| && w.copies[copy].key < w.client.minted && canonical(w.copies[copy].body).Some?
    requires w.copies[copy].key !in w.committed
    requires after.client == w.client && after.copies == w.copies
    requires after.committed == w.committed[w.copies[copy].key := canonical(w.copies[copy].body).value]
    requires after.effects == w.effects + [w.copies[copy].key]
    ensures ServerSound(canonical, after)
  {
    var m := w.copies[copy];
    forall i | 0 <= i < |w.copies| && w.copies[i].key == m.key ensures canonical(w.copies[i].body) == canonical(m.body) {
      SameKeySameForm(canonical, w.copies, i, copy);
    }
    hide Idempotent, CopiesRepeat;
    assert forall key :: key in after.committed <==> key in w.committed || key == m.key;
    assert forall key :: key in after.effects <==> key in w.effects || key == m.key;
  }

  predicate Commits<B>(canonical: B -> Option<B>, w: World<B>, copy: nat, verdict: Verdict)
    requires copy < |w.copies|
  {
    (verdict == Apply || verdict == ApplyThenFail) && canonical(w.copies[copy].body).Some?
    && w.copies[copy].key !in w.committed
  }

  lemma HandleChanges<B>(canonical: B -> Option<B>, w: World<B>, copy: nat, verdict: Verdict)
    requires copy < |w.copies|
    ensures var after, m := Handle(canonical, w, copy, verdict), w.copies[copy];
            && after == w.(transit := w.transit - {copy}, answers := after.answers,
                           committed := after.committed, effects := after.effects)
            && (if Commits(canonical, w, copy, verdict)
                then after.committed == w.committed[m.key := canonical(m.body).value] && after.effects == w.effects + [m.key]
                else after.committed == w.committed && after.effects == w.effects)
  {
  }

  lemma ClientStaysSound<B(!new)>(canonical: B -> Option<B>, durable: bool, w: World<B>, e: Event<B>)
    requires Inv(canonical, durable, w)
    ensures ClientSound(canonical, durable, Step(canonical, durable, w, e).client)
  {
    hide SentBefore, CopiesRepeat, NetworkSound, ServerSound, AllAccounted, AnswersSound, Idempotent;
    if e.Reaches? && e.copy in w.transit && e.copy < |w.copies| {
      HandleChanges(canonical, w, e.copy, e.verdict);
      hide Handle;
    }
  }

  lemma PayloadsStaySame<B(!new)>(canonical: B -> Option<B>, durable: bool, w: World<B>, e: Event<B>)
    requires Inv(canonical, durable, w)
    ensures var after := Step(canonical, durable, w, e);
            && SentBefore(canonical, after.copies, after.client.retained)
            && SentBefore(canonical, after.copies, after.client.persisted)
            && CopiesRepeat(canonical, after.copies)
  {
    hide ServerSound, AllAccounted, AnswersSound, Idempotent;
    if e.Recovers? {
      if w.client.persisted.Some? && canonical(w.client.persisted.value.body).Some? {
        RecoveredRepeats(canonical, w);
      }
    } else {
      RepeatsItself(canonical);
      hide Repeats;
    }
    if e.Reaches? && e.copy in w.transit && e.copy < |w.copies| {
      HandleChanges(canonical, w, e.copy, e.verdict);
      hide Handle;
    }
  }

  lemma RecoveredRepeats<B(!new)>(canonical: B -> Option<B>, w: World<B>)
    requires Idempotent(canonical) && SentBefore(canonical, w.copies, w.client.persisted)
    requires w.client.persisted.Some? && canonical(w.client.persisted.value.body).Some?
    ensures var m := Message(w.client.persisted.value.key, canonical(w.client.persisted.value.body).value);
            SentBefore(canonical, w.copies, Some(m))
  {
  }

  lemma NetworkStaysSound<B(!new)>(canonical: B -> Option<B>, durable: bool, w: World<B>, e: Event<B>)
    requires Inv(canonical, durable, w)
    ensures NetworkSound(Step(canonical, durable, w, e))
  {
    hide SentBefore, CopiesRepeat, ServerSound, AllAccounted, AnswersSound, Idempotent, Repeats;
    if e.Reaches? && e.copy in w.transit && e.copy < |w.copies| {
      HandleChanges(canonical, w, e.copy, e.verdict);
      hide Handle;
    }
  }

  lemma SubmitKeepsServer<B(!new)>(canonical: B -> Option<B>, durable: bool, w: World<B>, draft: B)
    requires Inv(canonical, durable, w)
    ensures ServerSound(canonical, Step(canonical, durable, w, Submits(draft)))
  {
    var after := Step(canonical, durable, w, Submits(draft));
    if after.client != w.client && after.copies[|w.copies|].key in w.committed {
      var m := after.copies[|w.copies|];
      var i :| 0 <= i < |w.copies| && w.copies[i].key == m.key && canonical(w.copies[i].body).Some?;
      RepeatsHasSameForm(canonical, w.copies[i].body, m.body);
    }
    hide Idempotent, Repeats, ClientSound, CopiesRepeat, AllAccounted;
    assert forall i :: 0 <= i < |w.copies| ==> after.copies[i] == w.copies[i];
  }

  lemma HandleKeepsServer<B(!new)>(canonical: B -> Option<B>, durable: bool, w: World<B>, copy: nat, verdict: Verdict)
    requires Inv(canonical, durable, w) && copy < |w.copies|
    ensures ServerSound(canonical, Handle(canonical, w, copy, verdict))
  {
    hide Idempotent, SentBefore, CopiesRepeat, AllAccounted, AnswersSound, ClientSound, Distinct, Handle;
    HandleChanges(canonical, w, copy, verdict);
    if Commits(canonical, w, copy, verdict) {
      CommitKeepsServer(canonical, w, copy, Handle(canonical, w, copy, verdict));
    }
  }

  lemma ServerStaysSound<B(!new)>(canonical: B -> Option<B>, durable: bool, w: World<B>, e: Event<B>)
    requires Inv(canonical, durable, w)
    ensures ServerSound(canonical, Step(canonical, durable, w, e))
  {
    hide Idempotent, SentBefore, CopiesRepeat, AllAccounted, AnswersSound, ClientSound, Distinct;
    if e.Submits? {
      SubmitKeepsServer(canonical, durable, w, e.draft);
      hide Step, ServerSound;
    } else if e.Reaches? {
      if e.copy in w.transit && e.copy < |w.copies| {
        HandleKeepsServer(canonical, durable, w, e.copy, e.verdict);
      }
      hide Handle, ServerSound;
    } else {
      ServerIgnoresPage(canonical, durable, w, e);
    }
  }

  lemma ServerIgnoresPage<B(!new)>(canonical: B -> Option<B>, durable: bool, w: World<B>, e: Event<B>)
    requires ServerSound(canonical, w) && !e.Submits? && !e.Reaches?
    ensures ServerSound(canonical, Step(canonical, durable, w, e))
  {
    var after := Step(canonical, durable, w, e);
    assert after.client.minted == w.client.minted && after.copies == w.copies;
    assert after.committed == w.committed && after.effects == w.effects;
    hide Step, Distinct;
  }

  lemma RecoveryAccounts<B(!new)>(canonical: B -> Option<B>, durable: bool, w: World<B>)
    requires Idempotent(canonical) && SentBefore(canonical, w.copies, w.client.persisted)
    requires AllAccounted(canonical, durable, w) && (!w.client.ready ==> w.client.retained.None?)
    ensures AllAccounted(canonical, durable, w.(client := Recover(canonical, w.client)))
  {
    var c := w.client;
    if !c.ready && c.persisted.Some? && canonical(c.persisted.value.body).None? {
      forall i | 0 <= i < |w.copies| && canonical(w.copies[i].body).Some? ensures w.copies[i].key != c.persisted.value.key {
        if w.copies[i].key == c.persisted.value.key {
          RepeatsHasSameForm(canonical, w.copies[i].body, c.persisted.value.body);
        }
      }
    }
    hide Idempotent, SentBefore;
  }

  lemma AttemptsStayAccounted<B(!new)>(canonical: B -> Option<B>, durable: bool, w: World<B>, e: Event<B>)
    requires Inv(canonical, durable, w)
    ensures AllAccounted(canonical, durable, Step(canonical, durable, w, e))
  {
    hide CopiesRepeat, ServerSound, AnswersSound;
    if e.Recovers? {
      RecoveryAccounts(canonical, durable, w);
    } else {
      if e.Reaches? && e.copy in w.transit && e.copy < |w.copies| {
        HandleChanges(canonical, w, e.copy, e.verdict);
        hide Handle;
      }
      hide SentBefore, Idempotent;
    }
  }

  lemma AnswersStaySound<B(!new)>(canonical: B -> Option<B>, durable: bool, w: World<B>, e: Event<B>)
    requires Inv(canonical, durable, w)
    ensures AnswersSound(Step(canonical, durable, w, e))
  {
    hide Idempotent, CopiesRepeat, SentBefore, ClientSound, Distinct, ServerSound, AllAccounted;
    if e.Reaches? && e.copy in w.transit {
      HandleChanges(canonical, w, e.copy, e.verdict);
      HandleAnswers(canonical, w, e.copy, e.verdict);
      hide Handle;
    }
  }

  lemma HandleAnswers<B>(canonical: B -> Option<B>, w: World<B>, copy: nat, verdict: Verdict)
    requires copy < |w.copies|
    ensures var after := Handle(canonical, w, copy, verdict);
            && after.answers == w.answers[copy := after.answers[copy]]
            && (after.answers[copy].Success? ==> w.copies[copy].key in after.committed)
  {
  }

  lemma StepKeeps<B(!new)>(canonical: B -> Option<B>, durable: bool, w: World<B>, e: Event<B>)
    requires Inv(canonical, durable, w)
    ensures Inv(canonical, durable, Step(canonical, durable, w, e))
  {
    ClientStaysSound(canonical, durable, w, e);
    PayloadsStaySame(canonical, durable, w, e);
    NetworkStaysSound(canonical, durable, w, e);
    ServerStaysSound(canonical, durable, w, e);
    AttemptsStayAccounted(canonical, durable, w, e);
    AnswersStaySound(canonical, durable, w, e);
    hide Step, Idempotent, ClientSound, SentBefore, CopiesRepeat, NetworkSound, ServerSound, AllAccounted, AnswersSound;
  }

  lemma {:induction false} RunKeeps<B(!new)>(canonical: B -> Option<B>, durable: bool, w: World<B>, events: seq<Event<B>>)
    requires Inv(canonical, durable, w)
    ensures Inv(canonical, durable, Run(canonical, durable, w, events))
    decreases |events|
  {
    hide Inv, Step;
    if events != [] {
      StepKeeps(canonical, durable, w, events[0]);
      RunKeeps(canonical, durable, Step(canonical, durable, w, events[0]), events[1..]);
    }
  }

  lemma Reached<B(!new)>(canonical: B -> Option<B>, durable: bool, events: seq<Event<B>>)
    requires Idempotent(canonical)
    ensures Inv(canonical, durable, Run(canonical, durable, Fresh(), events))
  {
    assert Inv(canonical, durable, Fresh<B>());
    RunKeeps(canonical, durable, Fresh(), events);
  }

  // ----- over whole runs

  /** Every retry under a key carries the first payload, or its normal form after a recovery. */
  lemma RetriesRepeatThePayload<B(!new)>(canonical: B -> Option<B>, durable: bool, events: seq<Event<B>>, i: nat, j: nat)
    requires Idempotent(canonical)
    ensures var w := Run(canonical, durable, Fresh(), events);
            i < j < |w.copies| && w.copies[i].key == w.copies[j].key ==>
              Repeats(canonical, w.copies[i].body, w.copies[j].body)
              && canonical(w.copies[i].body) == canonical(w.copies[j].body)
  {
    Reached(canonical, durable, events);
    var w := Run(canonical, durable, Fresh(), events);
    hide Run;
    if i < j < |w.copies| && w.copies[i].key == w.copies[j].key {
      SameKeySameForm(canonical, w.copies, i, j);
    }
  }

  /** Each key takes effect at most once, and the server never answers a well-formed retry with a conflict. */
  lemma EachKeyActsOnce<B(!new)>(canonical: B -> Option<B>, durable: bool, events: seq<Event<B>>, copy: nat)
    requires Idempotent(canonical)
    ensures var w := Run(canonical, durable, Fresh(), events);
            && Distinct(w.effects)
            && (forall key :: key in w.acknowledged ==> key in w.effects)
            && (copy < |w.copies| && canonical(w.copies[copy].body).Some? ==>
                  Handle(canonical, w, copy, Apply).answers[copy] == Success)
  {
    Reached(canonical, durable, events);
    hide Run;
  }

  /** A key is minted only once every earlier attempt is answered, unless a page without storage was left meanwhile. */
  lemma NewKeyOnlyWhenResolved<B(!new)>(canonical: B -> Option<B>, durable: bool, events: seq<Event<B>>, draft: B)
    requires Idempotent(canonical)
    ensures var w := Run(canonical, durable, Fresh(), events);
            var after := Step(canonical, durable, w, Submits(draft));
            && (after.client.minted != w.client.minted ==>
                  forall i :: 0 <= i < |w.copies| && canonical(w.copies[i].body).Some? ==>
                                w.copies[i].key in w.acknowledged + w.refused + w.abandoned)
            && (durable ==> w.abandoned == {})
  {
    Reached(canonical, durable, events);
    hide Run;
  }

  /** No edit that the page allows discards an attempt. */
  lemma EditsDiscardNothing<B(!new)>(canonical: B -> Option<B>, durable: bool, events: seq<Event<B>>)
    requires Idempotent(canonical)
    ensures var w := Run(canonical, durable, Fresh(), events);
            && Step(canonical, durable, w, Edits) == w
            && (EditEnabled(w.client) <==> w.client.ready && w.client.retained.None?)
  {
    Reached(canonical, durable, events);
    hide Run;
  }

  // ----- a submission that goes through

  /** What a submission sends: the attempt that is retained, or this draft under a key of its own. */
  function Sends<B>(c: Client<B>, draft: B): Message<B> {
    if c.retained.Some? then c.retained.value else Message(c.minted, draft)
  }

  lemma SubmissionSends<B>(canonical: B -> Option<B>, durable: bool, w: World<B>, draft: B)
    ensures var after, m := Step(canonical, durable, w, Submits(draft)), Sends(w.client, draft);
            if !w.client.ready || w.client.awaiting then after == w
            else
              && after.copies == w.copies + [m] && after.transit == w.transit + {|w.copies|}
              && after.awaited == |w.copies| && after.client.awaiting && !after.client.uncertain && after.client.ready
              && after.client.retained == Some(m) && (durable ==> after.client.persisted == Some(m))
              && after.client.minted == w.client.minted + (if w.client.retained.Some? then 0 else 1)
              && after.answers == w.answers && after.committed == w.committed && after.effects == w.effects
              && after.acknowledged == w.acknowledged
    ensures !w.client.ready || w.client.awaiting ==> Submit(durable, w.client, draft) == w.client
  {
  }

  /** The server would take this request: it is well formed, and its key is new or stands for the same normal form. */
  predicate Agrees<B(==)>(canonical: B -> Option<B>, w: World<B>, m: Message<B>) {
    canonical(m.body).Some? && (m.key in w.committed ==> w.committed[m.key] == canonical(m.body).value)
  }

  /** Every request that arrives is answered: a success exactly when it is taken and nothing fails on the way. */
  lemma AnswersExactly<B>(canonical: B -> Option<B>, w: World<B>, copy: nat, verdict: Verdict)
    requires copy < |w.copies|
    ensures var after := Handle(canonical, w, copy, verdict);
            && copy in after.answers && after.answers == w.answers[copy := after.answers[copy]]
            && (after.answers[copy].Success? <==> verdict.Apply? && Agrees(canonical, w, w.copies[copy]))
            && (after.answers[copy].Failure? <==>
                  verdict.Fail? || (verdict.ApplyThenFail? && Agrees(canonical, w, w.copies[copy])))
  {
  }

  /** A lost message or answer only leaves the network or the page waiting no more; a reload forgets all but the storage. */
  lemma LossesAndReloads<B>(canonical: B -> Option<B>, durable: bool, w: World<B>, copy: nat)
    ensures Step(canonical, durable, w, Vanishes(copy)) == w.(transit := w.transit - {copy})
    ensures var after := Step(canonical, durable, w, Loses);
            after == w.(client := if w.client.awaiting then w.client.(awaiting := false, uncertain := true) else w.client)
    ensures var after := Step(canonical, durable, w, Reloads).client;
            after.retained.None? && after.persisted == w.client.persisted && !after.ready && !after.awaiting
            && !after.uncertain && after.minted == w.client.minted
  {
  }

  /**
   From any reached state, first attempt or retry: a well-formed submission that reaches the server and whose answer
   arrives is acknowledged, has taken effect exactly once, and leaves the page free for the next.
   */
  lemma SubmissionCompletes<B(!new)>(canonical: B -> Option<B>, durable: bool, w: World<B>, draft: B)
    requires Inv(canonical, durable, w) && w.client.ready && !w.client.awaiting
    requires canonical(Sends(w.client, draft).body).Some?
    ensures var m, n := Sends(w.client, draft), |w.copies|;
            var done := Run(canonical, durable, w, [Submits(draft), Reaches(n, Apply), Receives]);
            && done.acknowledged == w.acknowledged + {m.key} && m.key in done.committed
            && done.committed[m.key] == canonical(m.body).value
            && done.effects == (if m.key in w.committed then w.effects else w.effects + [m.key])
            && done.client.retained.None? && done.client.persisted.None? && EditEnabled(done.client)
  {
    var m, n := Sends(w.client, draft), |w.copies|;
    var sent := Step(canonical, durable, w, Submits(draft));
    SubmissionSends(canonical, durable, w, draft);
    StepKeeps(canonical, durable, w, Submits(draft));
    RunOfThree(canonical, durable, w, Submits(draft), Reaches(n, Apply), Receives);
    hide Run;
    assert sent.copies[n] == m && n in sent.transit;
    var handled := Step(canonical, durable, sent, Reaches(n, Apply));
    assert handled == Handle(canonical, sent, n, Apply);
    HandleChanges(canonical, sent, n, Apply);
    AppliedIsAnswered(canonical, sent, n);
    DeliveredIsAcknowledged(canonical, durable, handled);
    hide Step, Inv, Handle;
  }

  lemma AppliedIsAnswered<B(!new)>(canonical: B -> Option<B>, w: World<B>, n: nat)
    requires ServerSound(canonical, w) && n < |w.copies| && canonical(w.copies[n].body).Some?
    ensures var after, m := Handle(canonical, w, n, Apply), w.copies[n];
            && n in after.answers && after.answers[n] == Success
            && m.key in after.committed && after.committed[m.key] == canonical(m.body).value
  {
  }

  lemma DeliveredIsAcknowledged<B>(canonical: B -> Option<B>, durable: bool, w: World<B>)
    requires w.client.ready && w.client.awaiting && w.client.retained.Some?
    requires w.awaited in w.answers && w.answers[w.awaited] == Success
    ensures Step(canonical, durable, w, Receives) ==
            w.(client := w.client.(retained := None, persisted := None, awaiting := false, uncertain := false),
               acknowledged := w.acknowledged + {w.client.retained.value.key})
  {
  }

  lemma RunOfThree<B>(canonical: B -> Option<B>, durable: bool, w: World<B>, a: Event<B>, b: Event<B>, c: Event<B>)
    ensures Run(canonical, durable, w, [a, b, c])
         == Step(canonical, durable, Step(canonical, durable, Step(canonical, durable, w, a), b), c)
  {
    hide Step;
    assert [a, b, c][1..] == [b, c] && [b, c][1..] == [c] && [c][1..] == [];
    var one := Step(canonical, durable, w, a);
    assert Run(canonical, durable, one, [b, c]) == Run(canonical, durable, Step(canonical, durable, one, b), [c]);
  }

  // ----- refusals

  /** A copy that the server would still apply is on its way. */
  ghost predicate Travels<B>(canonical: B -> Option<B>, w: World<B>, key: Key) {
    exists i :: i in w.transit && i < |w.copies| && w.copies[i].key == key && canonical(w.copies[i].body).Some?
  }

  predicate Refuses<B>(w: World<B>, e: Event<B>) {
    e.Receives? && w.client.awaiting && w.client.retained.Some? && w.awaited in w.answers && w.answers[w.awaited].Refusal?
  }

  /** Nothing of the key can take effect any more. */
  ghost predicate Dead<B>(canonical: B -> Option<B>, w: World<B>, key: Key) {
    && key < w.client.minted && key !in w.committed && !Travels(canonical, w, key)
    && !(w.client.retained.Some? && w.client.retained.value.key == key)
    && !(w.client.persisted.Some? && w.client.persisted.value.key == key)
  }

  lemma DeadStaysDead<B(!new)>(canonical: B -> Option<B>, durable: bool, w: World<B>, e: Event<B>, key: Key)
    requires Inv(canonical, durable, w) && Dead(canonical, w, key)
    ensures Dead(canonical, Step(canonical, durable, w, e), key)
  {
    var after := Step(canonical, durable, w, e);
    hide Idempotent, CopiesRepeat, SentBefore, Distinct, ServerSound, AllAccounted, AnswersSound;
    if e.Reaches? && e.copy in w.transit {
      HandleChanges(canonical, w, e.copy, e.verdict);
      hide Handle;
    }
    assert forall i :: i in after.transit && i < |after.copies| && after.copies[i].key == key ==>
                         i in w.transit && i < |w.copies| && after.copies[i] == w.copies[i];
  }

  lemma {:induction false} DeadForever<B(!new)>(
    canonical: B -> Option<B>, durable: bool, w: World<B>, events: seq<Event<B>>, key: Key)
    requires Inv(canonical, durable, w) && Dead(canonical, w, key)
    ensures key !in Run(canonical, durable, w, events).committed
    decreases |events|
  {
    if events != [] {
      StepKeeps(canonical, durable, w, events[0]);
      DeadStaysDead(canonical, durable, w, events[0], key);
      hide Inv, Step, Dead;
      DeadForever(canonical, durable, Step(canonical, durable, w, events[0]), events[1..], key);
    }
  }

  /** A key that is committed, or travels, can be found committed later. */
  lemma CanStillAct<B(!new)>(canonical: B -> Option<B>, durable: bool, w: World<B>, key: Key)
    requires key in w.committed || Travels(canonical, w, key)
    ensures exists events: seq<Event<B>> :: key in Run(canonical, durable, w, events).committed
  {
    if key in w.committed {
      assert key in Run(canonical, durable, w, []).committed;
    } else {
      var i :| i in w.transit && i < |w.copies| && w.copies[i].key == key && canonical(w.copies[i].body).Some?;
      var events: seq<Event<B>> := [Reaches(i, Apply)];
      HandleChanges(canonical, w, i, Apply);
      assert Run(canonical, durable, w, events) == Handle(canonical, w, i, Apply) by {
        hide Handle;
        assert events[1..] == [];
      }
      assert key in Run(canonical, durable, w, events).committed;
    }
  }

  /**
   The page drops an attempt on a status below 500. Its request can still take effect, or has already, exactly when
   its key is committed or a copy is on its way: a later request then comes on top of it.
   */
  lemma RefusalForgetsExactly<B(!new)>(canonical: B -> Option<B>, durable: bool, w: World<B>)
    requires Inv(canonical, durable, w) && Refuses(w, Receives)
    ensures var key, after := w.client.retained.value.key, Step(canonical, durable, w, Receives);
            && after.client.retained.None? && EditEnabled(after.client)
            && ((exists events: seq<Event<B>> :: key in Run(canonical, durable, after, events).committed)
                <==> key in w.committed || Travels(canonical, w, key))
  {
    var key, after := w.client.retained.value.key, Step(canonical, durable, w, Receives);
    assert Travels(canonical, after, key) <==> Travels(canonical, w, key);
    if key in w.committed || Travels(canonical, w, key) {
      CanStillAct(canonical, durable, after, key);
    } else {
      StepKeeps(canonical, durable, w, Receives);
      forall events: seq<Event<B>> ensures key !in Run(canonical, durable, after, events).committed {
        DeadForever(canonical, durable, after, events, key);
      }
    }
  }

  /** No refusal of the run comes when its key is committed or still on its way. */
  ghost predicate DefinitiveRefusals<B(!new)>(
    canonical: B -> Option<B>, durable: bool, w: World<B>, events: seq<Event<B>>)
    decreases |events|
  {
    events == [] ||
    (&& (Refuses(w, events[0]) ==> w.client.retained.value.key !in w.committed
                                   && !Travels(canonical, w, w.client.retained.value.key))
     && DefinitiveRefusals(canonical, durable, Step(canonical, durable, w, events[0]), events[1..]))
  }

  ghost predicate RefusedAreDead<B>(canonical: B -> Option<B>, w: World<B>) {
    forall key :: key in w.refused ==> Dead(canonical, w, key)
  }

  lemma RefusedStayDead<B(!new)>(canonical: B -> Option<B>, durable: bool, w: World<B>, e: Event<B>)
    requires Inv(canonical, durable, w) && RefusedAreDead(canonical, w)
    requires Refuses(w, e) ==> w.client.retained.value.key !in w.committed
                               && !Travels(canonical, w, w.client.retained.value.key)
    ensures RefusedAreDead(canonical, Step(canonical, durable, w, e))
  {
    var after := Step(canonical, durable, w, e);
    forall key | key in after.refused ensures Dead(canonical, after, key) {
      if key in w.refused {
        DeadStaysDead(canonical, durable, w, e, key);
      }
    }
  }

  lemma {:induction false} RefusedAreDeadAtTheEnd<B(!new)>(
    canonical: B -> Option<B>, durable: bool, w: World<B>, events: seq<Event<B>>)
    requires Inv(canonical, durable, w) && RefusedAreDead(canonical, w)
    requires DefinitiveRefusals(canonical, durable, w, events)
    ensures RefusedAreDead(canonical, Run(canonical, durable, w, events))
    decreases |events|
  {
    if events != [] {
      StepKeeps(canonical, durable, w, events[0]);
      RefusedStayDead(canonical, durable, w, events[0]);
      hide Inv, Step, RefusedAreDead;
      RefusedAreDeadAtTheEnd(canonical, durable, Step(canonical, durable, w, events[0]), events[1..]);
    }
  }

  /**
   Conservation: when refusals are definitive, the server acted once for every request the page knows to be done, and
   at most once more, for the attempt the page still holds or has stored (and once for each attempt that a page
   without storage was left with).
   */
  lemma EffectsAreConserved<B(!new)>(canonical: B -> Option<B>, durable: bool, events: seq<Event<B>>)
    requires Idempotent(canonical) && DefinitiveRefusals(canonical, durable, Fresh(), events)
    ensures var w := Run(canonical, durable, Fresh(), events);
            && |w.acknowledged| <= |w.effects| <= |w.acknowledged| + |w.abandoned| + 1
            && (w.client.ready && w.client.retained.None? ==> |w.effects| <= |w.acknowledged| + |w.abandoned|)
            && (durable ==> w.abandoned == {})
  {
    Reached(canonical, durable, events);
    RefusedAreDeadAtTheEnd(canonical, durable, Fresh(), events);
    var w := Run(canonical, durable, Fresh(), events);
    hide Run, DefinitiveRefusals, Idempotent;
    AcknowledgedFit(w);
    EffectsAreKnown(canonical, durable, w);
    var known := w.acknowledged + w.abandoned;
    assert |known| <= |w.acknowledged| + |w.abandoned|;
    if w.client.ready && w.client.retained.None? {
      DistinctFits(w.effects, known);
    } else {
      var open := if w.client.retained.Some? then w.client.retained.value.key
                  else if w.client.persisted.Some? then w.client.persisted.value.key else 0;
      DistinctFits(w.effects, known + {open});
      assert |known + {open}| <= |known| + 1;
    }
  }

  lemma EffectsAreKnown<B(!new)>(canonical: B -> Option<B>, durable: bool, w: World<B>)
    requires Inv(canonical, durable, w) && RefusedAreDead(canonical, w)
    ensures forall key :: key in w.effects ==>
                            key in w.acknowledged || key in w.abandoned || Open(w.client, key)
  {
    forall key | key in w.effects ensures key in w.acknowledged || key in w.abandoned || Open(w.client, key) {
      assert key in w.committed;
      var i :| 0 <= i < |w.copies| && w.copies[i].key == key && canonical(w.copies[i].body).Some?;
      assert Accounted(w, w.copies[i].key);
      assert key in w.refused ==> Dead(canonical, w, key);
    }
  }

  lemma AcknowledgedFit<B>(w: World<B>)
    requires AnswersSound(w) && (forall key :: key in w.effects <==> key in w.committed)
    ensures |w.acknowledged| <= |w.effects|
  {
    SubsetFits(w.acknowledged, w.effects);
  }

  lemma {:induction false} SubsetFits<T>(part: set<T>, s: seq<T>)
    requires forall x :: x in part ==> x in s
    ensures |part| <= |s|
    decreases |s|
  {
    if s != [] {
      SubsetFits(part - {s[0]}, s[1..]);
    } else {
      assert part == {};
    }
  }

  function Same(b: nat): Option<nat> {
    Some(b)
  }

  /** The page's first attempt, and the page while it is unsure of it. */
  const FIRST: Message<nat> := Message(0, 1)

  const UNSURE: Client<nat> := Client(Some(FIRST), Some(FIRST), false, true, true, 1)

  /** A first request takes effect and its answer is lost. */
  lemma AnswerLost()
    ensures Run(Same, true, Fresh(), [Recovers, Submits(1), Reaches(0, Apply), Loses])
         == World(UNSURE, 0, [FIRST], {}, map[0 := Success], map[0 := 1], [0], {}, {}, {})
  {
    var w := World(UNSURE.(awaiting := true, uncertain := false), 0, [FIRST], {0}, map[], map[], [], {}, {}, {});
    assert Step(Same, true, Step(Same, true, Fresh(), Recovers), Submits(1)) == w;
    assert Run(Same, true, w, [Reaches(0, Apply), Loses])
        == World(UNSURE, 0, [FIRST], {}, map[0 := Success], map[0 := 1], [0], {}, {}, {}) by {
      Unrolled(w, Reaches(0, Apply), Loses, []);
    }
    hide Step;
    Unrolled(Fresh(), Recovers, Submits(1), [Reaches(0, Apply), Loses]);
  }

  lemma Unrolled(w: World<nat>, first: Event<nat>, second: Event<nat>, rest: seq<Event<nat>>)
    ensures Run(Same, true, w, [first, second] + rest)
         == Run(Same, true, Step(Same, true, Step(Same, true, w, first), second), rest)
  {
    hide Step;
    assert ([first, second] + rest)[1..] == [second] + rest && ([second] + rest)[1..] == rest;
  }

  /**
   Without that condition the page can act twice: the retry is turned away before the server looks its key up (too
   many requests), and the next submission mints a new key.
   */
  lemma RefusedRetryActsTwice()
    ensures var w := Run(Same, true, Fresh(), [Recovers, Submits(1), Reaches(0, Apply), Loses]);
            var x := Run(Same, true, w, [Submits(2), Reaches(1, Refuse), Receives, Edits]);
            var y := Run(Same, true, x, [Submits(3), Reaches(2, Apply)]);
            && w.copies == [FIRST] && x.copies == [FIRST, FIRST] && x.refused == {0}
            && y.effects == [0, 1] && y.acknowledged == {}
  {
    AnswerLost();
    var w := World(UNSURE, 0, [FIRST], {}, map[0 := Success], map[0 := 1], [0], {}, {}, {});
    RetryTurnedAway(w);
    var x := w.(client := Client(None, None, false, true, false, 1), awaited := 1, copies := [FIRST, FIRST],
                answers := map[0 := Success, 1 := Refusal], refused := {0});
    hide Run;
    SubmittedAgain(x);
  }

  lemma RetryTurnedAway(w: World<nat>)
    requires w == World(UNSURE, 0, [FIRST], {}, map[0 := Success], map[0 := 1], [0], {}, {}, {})
    ensures Run(Same, true, w, [Submits(2), Reaches(1, Refuse), Receives, Edits])
         == w.(client := Client(None, None, false, true, false, 1), awaited := 1, copies := [FIRST, FIRST],
               answers := map[0 := Success, 1 := Refusal], refused := {0})
  {
    var sent := w.(client := UNSURE.(awaiting := true, uncertain := false), awaited := 1, copies := [FIRST, FIRST]);
    assert Step(Same, true, w, Submits(2)) == sent.(transit := {1});
    var answered := sent.(answers := map[0 := Success, 1 := Refusal]);
    assert Step(Same, true, sent.(transit := {1}), Reaches(1, Refuse)) == answered;
    var dropped := answered.(client := Client(None, None, false, true, false, 1), refused := {0});
    assert Step(Same, true, Step(Same, true, answered, Receives), Edits) == dropped;
    hide Step;
    Unrolled(w, Submits(2), Reaches(1, Refuse), [Receives, Edits]);
    Unrolled(answered, Receives, Edits, []);
    assert Run(Same, true, dropped, []) == dropped;
  }

  lemma SubmittedAgain(x: World<nat>)
    requires x.client == Client(None, None, false, true, false, 1) && |x.copies| == 2
    requires x.committed == map[0 := 1] && x.effects == [0] && x.acknowledged == {}
    ensures var y := Run(Same, true, x, [Submits(3), Reaches(2, Apply)]);
            y.effects == [0, 1] && y.acknowledged == {}
  {
    var sent := Step(Same, true, x, Submits(3));
    assert sent.copies == x.copies + [Message(1, 3)] && 2 in sent.transit;
    Unrolled(x, Submits(3), Reaches(2, Apply), []);
  }
}
