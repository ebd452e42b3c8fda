/**
 The home-page jukebox (components/home-jukebox.tsx) as a state machine over its refs, its displayed flags and
 its audio element. Every handler is one function; the steps of user, browser and other players interleave freely.
 The reducer is lib/catalog/jukebox-player.ts.
 */
module Jukebox {
  import opened Prelude
  import opened MediaElement

  /** Slugs are only ever compared, so a number stands for one; zero is the empty string. */
  type Slug = nat

  const NO_SLUG: Slug := 0

  datatype Project = Project(slug: Slug, preview: Option<Url>)

  datatype Props = Props(projects: seq<Project>, initialIndex: int)

  datatype Player = Player(selected: Slug, playing: Option<Slug>)

  datatype Action = SelectSlug(slug: Slug) | PlaySlug(slug: Slug) | PauseSlug(slug: Slug)

  datatype Request = Request(id: nat, slug: Slug)

  datatype Failure = NoFailure | Blocked | Unavailable

  datatype State = State(
    player: Player,
    loaded: Slug,
    request: nat,
    pending: Option<Request>,
    continuous: bool,
    unlocked: bool,
    loading: bool,
    failure: Failure,
    externallyPaused: Option<Slug>,
    mounted: bool,
    audio: Element<Request>)

  /** The user agent's immediate answer to a call of `play()`. */
  datatype Answer = Accepted | Denied(reason: Refusal)

  datatype Event =
    | Select(index: int, answer: Answer)
    | Toggle(answer: Answer)
    | PlayerButton(answer: Answer)
    | OtherMedia
    | MediaReady | MediaEnds | MediaFails | SystemPause | SystemPlays
    | Deliver
    | Unmount

  // ----- the reducer

  function Reduce(p: Player, a: Action): Player {
    match a
    case SelectSlug(slug) => if slug == p.selected then p else p.(selected := slug)
    case PlaySlug(slug) => if p.playing == Some(slug) then p else p.(playing := Some(slug))
    case PauseSlug(slug) => if p.playing != Some(slug) then p else p.(playing := None)
  }

  function MetadataSlug(p: Player): Slug {
    if p.playing.Some? then p.playing.value else p.selected
  }

  /**
   Selecting leaves what plays, and its metadata with it; playing and pausing leave the selection, and a pause of another
   project than the one that plays leaves everything.
   */
  lemma ReducerActs(p: Player, slug: Slug)
    ensures var selected := Reduce(p, SelectSlug(slug));
            && selected.selected == slug && selected.playing == p.playing
            && MetadataSlug(selected) == (if p.playing.Some? then MetadataSlug(p) else slug)
    ensures var played := Reduce(p, PlaySlug(slug));
            played.selected == p.selected && played.playing == Some(slug) && MetadataSlug(played) == slug
    ensures var paused := Reduce(p, PauseSlug(slug));
            && paused.selected == p.selected && paused.playing != Some(slug)
            && (p.playing != Some(slug) ==> paused == p)
            && (p.playing == Some(slug) ==> paused.playing.None? && MetadataSlug(paused) == p.selected)
  {
  }

  // ----- projects

  ghost predicate Catalogue(props: Props) {
    && props.projects != []
    && (forall i, j :: 0 <= i < j < |props.projects| ==> props.projects[i].slug != props.projects[j].slug)
    && (forall i :: 0 <= i < |props.projects| ==> props.projects[i].slug != NO_SLUG)
  }

  function FindIndex(projects: seq<Project>, slug: Slug): (index: int)
    ensures -1 <= index < |projects|
    ensures index >= 0 ==> projects[index].slug == slug
    ensures index < 0 ==> forall i :: 0 <= i < |projects| ==> projects[i].slug != slug
  {
    if projects == [] then -1
    else if projects[0].slug == slug then 0
    else
      var rest := FindIndex(projects[1..], slug);
      assert rest < 0 ==> forall i :: 1 <= i < |projects| ==> projects[i] == projects[1..][i - 1];
      if rest < 0 then -1 else rest + 1
  }

  function Clamp(index: int, count: int): int {
    var low := if index < 0 then 0 else index;
    var top := if count - 1 < 0 then 0 else count - 1;
    if low > top then top else low
  }

  /** The index the page shows as selected. */
  function ActiveIndex(props: Props, p: Player): (index: int)
    requires props.projects != []
    ensures 0 <= index < |props.projects|
  {
    var matched := FindIndex(props.projects, p.selected);
    if matched >= 0 then matched else Clamp(props.initialIndex, |props.projects|)
  }

  // ----- the handlers

  function PauseCurrent(s: State, resetPosition: bool, disableContinuity: bool): State {
    var audio := Pause(s.audio);
    s.(request := s.request + 1,
       pending := None,
       loading := false,
       continuous := s.continuous && !disableContinuity,
       unlocked := s.unlocked && !disableContinuity,
       audio := if resetPosition then Rewind(audio) else audio,
       player := if s.player.playing.Some? then Reduce(s.player, PauseSlug(s.player.playing.value)) else s.player)
  }

  function SyncTrackMedia(props: Props, s: State, index: int): State {
    if !(0 <= index < |props.projects|) then s
    else
      var target := props.projects[index];
      var moved := if s.loaded == target.slug then s
                   else s.(request := s.request + 1, pending := None, loaded := target.slug);
      if target.preview.None? then moved.(audio := Load(moved.audio, None))
      else if moved.audio.src != target.preview then moved.(audio := Load(moved.audio, target.preview))
      else moved
  }

  function PlaybackFulfilled(s: State, r: Request): State {
    if r.id != s.request || s.loaded != r.slug then s
    else if s.audio.paused then s.(pending := None, continuous := false, unlocked := false, loading := false)
    else s.(pending := None, player := Reduce(s.player, PlaySlug(r.slug)),
            continuous := true, unlocked := true, loading := false)
  }

  function PlaybackRejected(s: State, r: Request, reason: Refusal): State {
    if r.id != s.request || s.loaded != r.slug then s
    else s.(pending := None, continuous := false, unlocked := false, loading := false,
            failure := if reason == NotAllowed then Blocked else Unavailable,
            player := Reduce(s.player, PauseSlug(r.slug)))
  }

  /** `attemptPlayback` up to its `await`, and beyond it when the user agent refuses at once. */
  function AttemptPlayback(props: Props, s: State, index: int, answer: Answer): State {
    if !(0 <= index < |props.projects|) || props.projects[index].preview.None? then s
    else
      var synced := SyncTrackMedia(props, s, index);
      var r := Request(synced.request + 1, props.projects[index].slug);
      var asked := synced.(request := r.id, pending := Some(r), failure := NoFailure, loading := true);
      match answer
      case Accepted => asked.(audio := Play(asked.audio, r))
      case Denied(reason) => PlaybackRejected(asked, r, reason)
  }

  function SelectProject(props: Props, s: State, index: int, answer: Answer): State {
    var next := Clamp(index, |props.projects|);
    if !(0 <= next < |props.projects|) || props.projects[next].slug == s.player.selected then s
    else
      var target := props.projects[next];
      var paused := PauseCurrent(s, true, false);
      var selected := paused.(player := Reduce(paused.player, SelectSlug(target.slug)), failure := NoFailure);
      var synced := SyncTrackMedia(props, selected, next);
      if s.continuous && target.preview.Some? then AttemptPlayback(props, synced, next, answer) else synced
  }

  function TogglePlay(props: Props, s: State, answer: Answer): State
    requires props.projects != []
  {
    var active := ActiveIndex(props, s.player);
    var target := props.projects[active];
    if target.preview.None? then s
    else if s.pending.Some? then PauseCurrent(s, true, true)
    else if s.player.playing == Some(target.slug) && !s.audio.paused then PauseCurrent(s, true, true)
    else
      var stopped := if s.player.playing.Some? then PauseCurrent(s, true, true) else s;
      AttemptPlayback(props, stopped, active, answer)
  }

  /** The button under the player; it is disabled when the displayed project has no preview. */
  function PressPlayerButton(props: Props, s: State, answer: Answer): State
    requires props.projects != []
  {
    var shown := FindIndex(props.projects, MetadataSlug(s.player));
    var index := if shown >= 0 then shown else ActiveIndex(props, s.player);
    if props.projects[index].preview.None? then s
    else if s.player.playing.Some? then PauseCurrent(s, true, true)
    else TogglePlay(props, s, answer)
  }

  /** Another player announced that it starts. */
  function HearOtherMedia(s: State): State {
    if s.pending.None? && s.player.playing.None? && s.audio.paused then s
    else PauseCurrent(if s.loaded != s.player.selected then s.(externallyPaused := Some(s.loaded)) else s, false, true)
  }

  predicate ExpectedPlay(s: State) {
    s.pending.Some? && s.pending.value.id == s.request && s.pending.value.slug == s.loaded
  }

  predicate AcceptsPlayEvent(s: State) {
    s.loaded != NO_SLUG && !s.audio.paused && (ExpectedPlay(s) || s.player.playing == Some(s.loaded))
  }

  function OnPlay(s: State): State {
    if AcceptsPlayEvent(s) then s else s.(audio := Pause(s.audio))
  }

  function OnPause(s: State): State {
    if s.loaded == NO_SLUG || !s.audio.paused then s
    else
      var stopped := if !s.audio.atEnd && s.pending.None? && s.player.playing == Some(s.loaded)
                     then s.(continuous := false, unlocked := false, loading := false) else s;
      stopped.(player := Reduce(stopped.player, PauseSlug(s.loaded)))
  }

  function OnEnded(s: State): State {
    if s.loaded == NO_SLUG || !s.audio.atEnd then s
    else s.(player := Reduce(s.player, PauseSlug(s.loaded)))
  }

  function OnError(s: State): State {
    if !s.audio.error || s.audio.src.None? then s
    else PauseCurrent(s, false, true).(failure := Unavailable)
  }

  /** The element runs its next task. */
  function DeliverTask(s: State): State
    requires s.audio.queue != []
  {
    var task := s.audio.queue[0];
    var popped := s.(audio := Pop(s.audio));
    match task
    case Settle(r, Fulfilled) => PlaybackFulfilled(popped, r)
    case Settle(r, Rejected(reason)) => PlaybackRejected(popped, r, reason)
    case PlayEvent => if s.mounted then OnPlay(popped) else popped
    case PauseEvent => if s.mounted then OnPause(popped) else popped
    case ErrorEvent => if s.mounted then OnError(popped) else popped
    case EndOfMedia =>
      if !s.mounted then popped
      else
        var stopped := popped.(audio := StopAtEnd(popped.audio));
        OnEnded(if popped.audio.atEnd && !popped.audio.paused then OnPause(stopped) else stopped)
  }

  function UnmountPlayer(s: State): State {
    s.(request := s.request + 1, pending := None, mounted := false, audio := Pause(s.audio))
  }

  /** The effect that follows a commit in which the displayed project changed. */
  function MetadataEffect(props: Props, s: State): State {
    var cleared := s.(externallyPaused := None);
    if s.externallyPaused == Some(s.loaded) then cleared
    else SyncTrackMedia(props, cleared, FindIndex(props.projects, MetadataSlug(s.player)))
  }

  function Commit(props: Props, before: State, after: State): State {
    if after.mounted && MetadataSlug(before.player) != MetadataSlug(after.player)
    then MetadataEffect(props, after) else after
  }

  function Handle(props: Props, s: State, e: Event): State
    requires props.projects != []
  {
    match e
    case Select(index, answer) => SelectProject(props, s, index, answer)
    case Toggle(answer) => TogglePlay(props, s, answer)
    case PlayerButton(answer) => PressPlayerButton(props, s, answer)
    case OtherMedia => HearOtherMedia(s)
    case MediaReady => s.(audio := Ready(s.audio))
    case MediaEnds => s.(audio := ReachEnd(s.audio))
    case MediaFails => s.(audio := Fail(s.audio))
    case SystemPause => s.(audio := Pause(s.audio))
    case SystemPlays => s.(audio := SystemPlay(s.audio))
    case Deliver => if s.audio.queue == [] then s else DeliverTask(s)
    case Unmount => UnmountPlayer(s)
  }

  /** After the component is gone only the element's remaining tasks run. */
  function Step(props: Props, s: State, e: Event): State
    requires props.projects != []
  {
    if s.mounted || e.Deliver? then Commit(props, s, Handle(props, s, e)) else s
  }

  function Initial(props: Props): State
    requires props.projects != []
  {
    var slug := props.projects[Clamp(props.initialIndex, |props.projects|)].slug;
    MetadataEffect(props,
      State(Player(slug, None), slug, 0, None, false, false, false, NoFailure, None, true, Blank()))
  }

  function Run(props: Props, s: State, events: seq<Event>): State
    requires props.projects != []
    decreases |events|
  {
    if events == [] then s else Run(props, Step(props, s, events[0]), events[1..])
  }

  /** Whether the step tells the other players that this one starts. */
  predicate Announces(props: Props, s: State, e: Event)
    requires props.projects != []
  {
    s.mounted &&
    match e
    case Select(index, _) =>
      var next := Clamp(index, |props.projects|);
      0 <= next < |props.projects| && props.projects[next].slug != s.player.selected
      && s.continuous && props.projects[next].preview.Some?
    case Toggle(_) => StartsOnToggle(props, s)
    case PlayerButton(_) =>
      var shown := FindIndex(props.projects, MetadataSlug(s.player));
      var index := if shown >= 0 then shown else ActiveIndex(props, s.player);
      props.projects[index].preview.Some? && s.player.playing.None? && StartsOnToggle(props, s)
    case Deliver =>
      s.audio.queue != [] && s.audio.queue[0].PlayEvent? && AcceptsPlayEvent(s.(audio := Pop(s.audio)))
    case _ => false
  }

  predicate StartsOnToggle(props: Props, s: State)
    requires props.projects != []
  {
    var target := props.projects[ActiveIndex(props, s.player)];
    target.preview.Some? && s.pending.None? && !(s.player.playing == Some(target.slug) && !s.audio.paused)
  }
}
