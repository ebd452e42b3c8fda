/**
 The part of the HTML media element the players rely on (HTML Living Standard, section "Media elements").
 It is an environment: nothing in the repository implements it, every player only calls `play`, `pause`,
 `load` and reacts to its events. One FIFO queue holds the element's tasks: its events and the settlement
 of the promises that `play()` returned, each identified by a token of the caller's choice.
 */
module MediaElement {
  import opened Prelude

  /** Addresses are only ever compared, so a number stands for one. */
  type Url = nat

  datatype Refusal = NotAllowed | Aborted | NotSupported

  datatype Outcome = Fulfilled | Rejected(reason: Refusal)

  datatype Task<T> = PlayEvent | PauseEvent | EndOfMedia | ErrorEvent | Settle(token: T, outcome: Outcome)

  datatype Element<T> = Element(
    src: Option<Url>,
    paused: bool,
    atEnd: bool,
    error: bool,
    promises: seq<T>,
    queue: seq<Task<T>>)

  function Blank<T>(): Element<T> {
    Element(None, true, false, false, [], [])
  }

  function Settlements<T>(tokens: seq<T>, outcome: Outcome): seq<Task<T>> {
    seq(|tokens|, i requires 0 <= i < |tokens| => Settle(tokens[i], outcome))
  }

  function SettlesOnly<T>(queue: seq<Task<T>>): seq<Task<T>> {
    if queue == [] then []
    else if queue[0].Settle? then [queue[0]] + SettlesOnly(queue[1..])
    else SettlesOnly(queue[1..])
  }

  /** A call of `play()` that the user agent accepts; its promise is identified by `token`. */
  function Play<T>(e: Element<T>, token: T): Element<T> {
    e.(paused := false,
       atEnd := false,
       promises := e.promises + [token],
       queue := if e.paused then e.queue + [PlayEvent] else e.queue)
  }

  /** `pause()`: the pause event is queued and every pending promise is rejected with AbortError. */
  function Pause<T>(e: Element<T>): Element<T> {
    if e.paused then e
    else e.(paused := true,
            promises := [],
            queue := e.queue + [PauseEvent] + Settlements(e.promises, Rejected(Aborted)))
  }

  /** Setting or removing the source and calling `load()`: undelivered events are dropped, promises are rejected. */
  function Load<T>(e: Element<T>, src: Option<Url>): Element<T> {
    Element(src, true, false, false, [], SettlesOnly(e.queue) + Settlements(e.promises, Rejected(Aborted)))
  }

  /** Assigning `currentTime := 0`. */
  function Rewind<T>(e: Element<T>): Element<T> {
    e.(atEnd := false)
  }

  // ----- what the user agent does on its own

  /** Enough data is available: the pending promises will be fulfilled. */
  function Ready<T>(e: Element<T>): Element<T> {
    if e.paused then e
    else e.(promises := [], queue := e.queue + Settlements(e.promises, Fulfilled))
  }

  function ReachEnd<T>(e: Element<T>): Element<T> {
    if e.paused then e else e.(atEnd := true, queue := e.queue + [EndOfMedia])
  }

  /** A fatal media error; the `paused` attribute keeps its value. */
  function Fail<T>(e: Element<T>): Element<T> {
    if e.src.None? then e
    else e.(error := true,
            promises := [],
            queue := e.queue + [ErrorEvent] + Settlements(e.promises, Rejected(NotSupported)))
  }

  /** Playback started by a system media control: no promise belongs to the page. */
  function SystemPlay<T>(e: Element<T>): Element<T> {
    if !e.paused || e.src.None? then e
    else e.(paused := false, atEnd := false, queue := e.queue + [PlayEvent])
  }

  /** The head of the queue leaves it before its handlers run. */
  function Pop<T>(e: Element<T>): Element<T>
    requires e.queue != []
  {
    e.(queue := e.queue[1..])
  }

  /** What the end-of-media task does to the element before the `pause` listeners run. */
  function StopAtEnd<T>(e: Element<T>): Element<T> {
    if !e.atEnd || e.paused then e
    else e.(paused := true, promises := [], queue := e.queue + Settlements(e.promises, Rejected(Aborted)))
  }

  // ----- counting outstanding promises

  /** The tokens whose settlement is queued. */
  ghost function Tokens<T>(queue: seq<Task<T>>): multiset<T> {
    if queue == [] then multiset{}
    else (if queue[0].Settle? then multiset{queue[0].token} else multiset{}) + Tokens(queue[1..])
  }

  /** Every promise that has not been delivered to its caller yet. */
  ghost function Outstanding<T>(e: Element<T>): multiset<T> {
    multiset(e.promises) + Tokens(e.queue)
  }

  lemma {:induction false} SettleIsCounted<T>(queue: seq<Task<T>>, i: nat)
    requires i < |queue| && queue[i].Settle?
    ensures queue[i].token in Tokens(queue)
  {
    if i > 0 {
      SettleIsCounted(queue[1..], i - 1);
    }
  }

  lemma {:induction false} TokensAppend<T>(a: seq<Task<T>>, b: seq<Task<T>>)
    ensures Tokens(a + b) == Tokens(a) + Tokens(b)
  {
    if a == [] {
      assert a + b == b;
    } else {
      TokensAppend(a[1..], b);
      assert (a + b)[1..] == a[1..] + b;
    }
  }

  lemma {:induction false} TokensOfSettlements<T>(tokens: seq<T>, outcome: Outcome)
    ensures Tokens(Settlements(tokens, outcome)) == multiset(tokens)
  {
    if tokens != [] {
      TokensOfSettlements(tokens[1..], outcome);
      assert Settlements(tokens, outcome)[1..] == Settlements(tokens[1..], outcome);
      assert tokens == [tokens[0]] + tokens[1..];
    }
  }

  lemma {:induction false} TokensOfSettlesOnly<T>(queue: seq<Task<T>>)
    ensures Tokens(SettlesOnly(queue)) == Tokens(queue)
    ensures forall t :: t in SettlesOnly(queue) ==> t.Settle? && t in queue
  {
    if queue != [] {
      TokensOfSettlesOnly(queue[1..]);
      if queue[0].Settle? {
        TokensAppend([queue[0]], SettlesOnly(queue[1..]));
      }
    }
  }

  /** No call or user-agent action loses or duplicates a promise; only `play()` adds one. */
  lemma PlayAddsItsPromise<T>(e: Element<T>, token: T)
    ensures Outstanding(Play(e, token)) == Outstanding(e) + multiset{token}
  {
    TokensAppend(e.queue, [PlayEvent]);
    assert multiset(e.promises + [token]) == multiset(e.promises) + multiset{token};
  }

  lemma PauseKeepsPromises<T>(e: Element<T>)
    ensures Outstanding(Pause(e)) == Outstanding(e)
    ensures Outstanding(StopAtEnd(e)) == Outstanding(e)
  {
    TokensAppend(e.queue, [PauseEvent]);
    SettlementsAppended(e.queue + [PauseEvent], e.promises, Rejected(Aborted));
    SettlementsAppended(e.queue, e.promises, Rejected(Aborted));
  }

  lemma RewindKeepsPromises<T>(e: Element<T>)
    ensures Outstanding(Rewind(e)) == Outstanding(e)
  {
  }

  lemma LoadKeepsPromises<T>(e: Element<T>, src: Option<Url>)
    ensures Outstanding(Load(e, src)) == Outstanding(e)
  {
    TokensOfSettlesOnly(e.queue);
    SettlementsAppended(SettlesOnly(e.queue), e.promises, Rejected(Aborted));
  }

  lemma UserAgentKeepsPromises<T>(e: Element<T>)
    ensures Outstanding(ReachEnd(e)) == Outstanding(e)
    ensures Outstanding(SystemPlay(e)) == Outstanding(e)
  {
    TokensAppend(e.queue, [EndOfMedia]);
    TokensAppend(e.queue, [PlayEvent]);
  }

  lemma ReadyKeepsPromises<T>(e: Element<T>)
    ensures Outstanding(Ready(e)) == Outstanding(e)
  {
    SettlementsAppended(e.queue, e.promises, Fulfilled);
  }

  lemma FailKeepsPromises<T>(e: Element<T>)
    ensures Outstanding(Fail(e)) == Outstanding(e)
  {
    TokensAppend(e.queue, [ErrorEvent]);
    SettlementsAppended(e.queue + [ErrorEvent], e.promises, Rejected(NotSupported));
  }

  lemma SettlementsAppended<T>(queue: seq<Task<T>>, tokens: seq<T>, outcome: Outcome)
    ensures Tokens(queue + Settlements(tokens, outcome)) == Tokens(queue) + multiset(tokens)
  {
    TokensAppend(queue, Settlements(tokens, outcome));
    TokensOfSettlements(tokens, outcome);
  }
}
