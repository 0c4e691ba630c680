/** The recitation player hook: the observable state triple, the one audio resource it
    owns, and the four autoplay-queue cells.  Each entry point (`play`, `playWithOptions`,
    `stop`) and each event of the audio resource (`loadeddata`, `ended`, `error`, and a
    rejected `audio.play()`) is a transition on a `Player` value; the class `AudioPlayer`
    holds the same state in fields and performs the transitions in place. */
module Playback {
  import opened Strings
  import opened Recitation

  /** What callers see: `{isPlaying, isLoading, currentAyah}`. */
  datatype PlayerView = PlayerView(isPlaying: bool, isLoading: bool, currentAyah: Option<string>)

  /** `{isPlaying: false, isLoading: false, currentAyah: null}`. */
  const Idle := PlayerView(false, false, None)

  /** The cells `autoplayRef`, `queueSurahRef`, `queueIndexRef` (0-based) and `queueLengthRef`. */
  datatype AutoplayQueue = AutoplayQueue(autoplay: bool, surah: Option<int>, index: int, length: int)

  /** The cleared queue `(false, null, -1, 0)`. */
  const NoQueue := AutoplayQueue(false, None, -1, 0)

  /** An audio resource: the key its listeners captured, the URL it was created with,
      and whether it has been paused. */
  datatype Audio = Audio(key: string, url: string, paused: bool)

  /** The whole state of one player: `audio` is `audioRef.current`. */
  datatype Player = Player(view: PlayerView, audio: Option<Audio>, queue: AutoplayQueue)

  /** The state when the hook is first used. */
  const Initial := Player(Idle, None, NoQueue)

  /** The states the player can be in: never playing and loading at once, a current verse
      exactly while playing or loading, a resource behind every load, and a queue that is
      either cleared or names its surah. */
  ghost predicate Consistent(p: Player) {
    && !(p.view.isPlaying && p.view.isLoading)
    && (p.view.currentAyah.Some? <==> p.view.isPlaying || p.view.isLoading)
    && (p.view.isLoading ==> p.audio.Some?)
    && (if p.queue.autoplay then p.queue.surah.Some? else p.queue == NoQueue)
  }

  // ---------------------------------------------------------------------------
  // Transitions

  /** The inner `play(surah, ayah)` up to the point where it requests playback.  When the
      key is the current verse and a resource exists, the resource is paused and the state
      goes idle (whether it was playing or still loading); otherwise the old resource is
      paused and dropped and a fresh one for the verse's URL starts loading.  The queue is
      left as it is. */
  function PlayStep(p: Player, surah: int, ayah: int): Player {
    var key := AyahKey(surah, ayah);
    if p.view.currentAyah == Some(key) && p.audio.Some? then
      Player(Idle, Some(p.audio.value.(paused := true)), p.queue)
    else
      Player(PlayerView(false, true, Some(key)), Some(Audio(key, AudioUrl(surah, ayah), false)), p.queue)
  }

  /** The queue that `playWithOptions` installs: with autoplay, this surah, the verse's
      0-based index and `queueLength || 0`; without it, the cleared queue. */
  function QueueFor(surah: int, ayah: int, autoplay: Option<bool>, queueLength: Option<int>): AutoplayQueue {
    if autoplay == Some(true) then
      AutoplayQueue(true, Some(surah), ayah - 1, if queueLength.Some? then queueLength.value else 0)
    else NoQueue
  }

  /** `playWithOptions(surah, ayah, options)`, exported as `play`: install the queue, then
      run the inner `play`.  An absent `options` is `autoplay == None`. */
  function PlayWithOptionsStep(p: Player, surah: int, ayah: int, autoplay: Option<bool>, queueLength: Option<int>): Player {
    PlayStep(p.(queue := QueueFor(surah, ayah, autoplay, queueLength)), surah, ayah)
  }

  /** `stop()`: drop the resource, clear the queue, go idle. */
  function StopStep(p: Player): Player {
    Player(Idle, None, NoQueue)
  }

  /** The `loadeddata` listener of the resource created for `key`. */
  function LoadedStep(p: Player, key: string): Player {
    p.(view := PlayerView(true, false, Some(key)))
  }

  /** The `ended` listener of the resource created for `key`: the surah is read back from
      the key, and the queue decides what follows. */
  function EndedStep(p: Player, key: string): Player {
    AdvanceQueue(p, ParseAyahKey(key).0)
  }

  /** If autoplay is on for `surah` and the next 0-based index is inside the queue, the
      index advances and the next verse is played with the queue kept; otherwise the
      queue is cleared and the state goes idle. */
  function AdvanceQueue(p: Player, surah: Option<int>): Player {
    var next := p.queue.index + 1;
    if p.queue.autoplay && surah.Some? && p.queue.surah == surah && next < p.queue.length then
      PlayStep(p.(queue := p.queue.(index := next)), surah.value, next + 1)
    else
      Player(Idle, p.audio, NoQueue)
  }

  /** The `error` listener, and the `catch` around `await audio.play()`: only the state
      triple goes idle; the queue cells and the resource stay. */
  function FailStep(p: Player): Player {
    p.(view := Idle)
  }

  // ---------------------------------------------------------------------------
  // Event sequences

  /** What can happen to a player: a call of the exported `play` or of `stop`, or an event
      delivered by the resource whose listeners captured `key`.  Events of resources that
      were superseded or stopped are delivered too: their listeners are never removed. */
  datatype Event =
    | PlayCall(surah: int, ayah: int, autoplay: Option<bool>, queueLength: Option<int>)
    | StopCall
    | LoadedData(key: string)
    | Ended(key: string)
    | Error
    | PlayRejected

  function Step(p: Player, e: Event): Player {
    match e
    case PlayCall(s, a, auto, len) => PlayWithOptionsStep(p, s, a, auto, len)
    case StopCall => StopStep(p)
    case LoadedData(k) => LoadedStep(p, k)
    case Ended(k) => EndedStep(p, k)
    case Error => FailStep(p)
    case PlayRejected => FailStep(p)
  }

  function Run(p: Player, events: seq<Event>): Player
    decreases |events|
  {
    if events == [] then p else Run(Step(p, events[0]), events[1..])
  }

  // ---------------------------------------------------------------------------
  // Properties of single transitions

  /** Toggle: the inner `play` pauses and goes idle exactly when the requested key is the
      current verse and a resource exists, whatever `isPlaying` says; the resource is kept
      (paused) and no new one is created. */
  lemma ToggleRule(p: Player, surah: int, ayah: int)
    ensures var r := PlayStep(p, surah, ayah);
      r.view == Idle <==> p.view.currentAyah == Some(AyahKey(surah, ayah)) && p.audio.Some?
    ensures var r := PlayStep(p, surah, ayah);
      r.view == Idle ==> r.audio == Some(p.audio.value.(paused := true)) && r.queue == p.queue
  {
  }

  /** Fresh play: any other call starts loading the verse with a new, unpaused resource
      bound to the verse's URL, and keeps the queue. */
  lemma FreshPlay(p: Player, surah: int, ayah: int)
    requires !(p.view.currentAyah == Some(AyahKey(surah, ayah)) && p.audio.Some?)
    ensures var r := PlayStep(p, surah, ayah);
      && r.view == PlayerView(false, true, Some(AyahKey(surah, ayah)))
      && r.audio == Some(Audio(AyahKey(surah, ayah), AudioUrl(surah, ayah), false))
      && r.queue == p.queue
  {
  }

  /** Play, play again, play a third time: loading, then idle (even though the first call
      never reached playing), then loading the same verse afresh. */
  lemma ToggleCycle(p: Player, surah: int, ayah: int)
    requires p.view.currentAyah != Some(AyahKey(surah, ayah))
    ensures PlayStep(p, surah, ayah).view.isLoading
    ensures PlayStep(PlayStep(p, surah, ayah), surah, ayah).view == Idle
    ensures var third := PlayStep(PlayStep(PlayStep(p, surah, ayah), surah, ayah), surah, ayah);
      third.view == PlayerView(false, true, Some(AyahKey(surah, ayah)))
      && third.audio == Some(Audio(AyahKey(surah, ayah), AudioUrl(surah, ayah), false))
  {
  }

  /** Loaded: `loadeddata` for `key` shows that verse playing and changes nothing else. */
  lemma LoadedPlays(p: Player, key: string)
    ensures LoadedStep(p, key) == Player(PlayerView(true, false, Some(key)), p.audio, p.queue)
  {
  }

  /** Queue setup: with autoplay the queue names the surah, the verse's 0-based index and
      the given length (0 when absent); without autoplay it is cleared.  Either way the
      inner `play` then runs on the new queue. */
  lemma PlayWithOptionsQueue(p: Player, surah: int, ayah: int, autoplay: Option<bool>, queueLength: Option<int>)
    ensures var r := PlayWithOptionsStep(p, surah, ayah, autoplay, queueLength);
      r.queue == (if autoplay == Some(true)
                  then AutoplayQueue(true, Some(surah), ayah - 1, if queueLength.Some? then queueLength.value else 0)
                  else NoQueue)
      && r == PlayStep(p.(queue := r.queue), surah, ayah)
  {
  }

  /** Failure: an `error` event or a rejected `audio.play()` makes the state idle and leaves
      the queue and the resource as they were. */
  lemma FailureGoesIdle(p: Player)
    ensures FailStep(p) == Player(Idle, p.audio, p.queue)
  {
  }

  /** Stop releases the resource, clears the queue and goes idle from any state; so a
      second stop changes nothing, and stopping the initial player changes nothing. */
  lemma StopIdempotent(p: Player)
    ensures StopStep(p) == Initial
    ensures StopStep(StopStep(p)) == StopStep(p)
    ensures StopStep(Initial) == Initial
  {
  }

  /** `ended` for a verse of `surah` reads `surah` back from the key. */
  lemma EndedOfKey(p: Player, surah: int, ayah: int)
    ensures EndedStep(p, AyahKey(surah, ayah)) == AdvanceQueue(p, Some(surah))
  {
    AyahKeyRoundTrip(surah, ayah);
  }

  /** Advance: an `ended` for a verse of the queued surah, with autoplay on and the next
      index inside the queue, advances the index and plays the next verse (1-based
      `index + 2`) with the rest of the queue kept. */
  lemma EndedAdvances(p: Player, surah: int, ayah: int)
    requires p.queue.autoplay && p.queue.surah == Some(surah)
    requires p.queue.index + 1 < p.queue.length
    ensures var next := p.queue.index + 1;
      EndedStep(p, AyahKey(surah, ayah)) == PlayStep(p.(queue := p.queue.(index := next)), surah, next + 1)
  {
    EndedOfKey(p, surah, ayah);
    QueueAdvances(p, surah);
  }

  lemma QueueAdvances(p: Player, surah: int)
    requires p.queue.autoplay && p.queue.surah == Some(surah)
    requires p.queue.index + 1 < p.queue.length
    ensures var next := p.queue.index + 1;
      AdvanceQueue(p, Some(surah)) == PlayStep(p.(queue := p.queue.(index := next)), surah, next + 1)
  {
  }

  /** Exhaustion: in every other case `ended` clears the queue and goes idle, keeping the
      resource. */
  lemma EndedExhausts(p: Player, surah: int, ayah: int)
    requires !(p.queue.autoplay && p.queue.surah == Some(surah) && p.queue.index + 1 < p.queue.length)
    ensures EndedStep(p, AyahKey(surah, ayah)) == Player(Idle, p.audio, NoQueue)
  {
    EndedOfKey(p, surah, ayah);
    QueueExhausted(p, Some(surah));
  }

  lemma QueueExhausted(p: Player, surah: Option<int>)
    requires !(p.queue.autoplay && surah.Some? && p.queue.surah == surah && p.queue.index + 1 < p.queue.length)
    ensures AdvanceQueue(p, surah) == Player(Idle, p.audio, NoQueue)
  {
  }

  /** A play without autoplay (options absent, or `autoplay` absent or false) always ends
      in idle: its `ended` never advances. */
  lemma NonAutoplayEndsIdle(p: Player, surah: int, ayah: int, autoplay: Option<bool>, queueLength: Option<int>, key: string)
    requires autoplay != Some(true)
    ensures var r := PlayWithOptionsStep(p, surah, ayah, autoplay, queueLength);
      EndedStep(r, key) == Player(Idle, r.audio, NoQueue)
  {
  }

  /** Every transition keeps the player's states consistent. */
  lemma StepValid(p: Player, e: Event)
    requires Consistent(p)
    ensures Consistent(Step(p, e))
  {
  }

  lemma {:induction false} RunValid(p: Player, events: seq<Event>)
    requires Consistent(p)
    ensures Consistent(Run(p, events))
    decreases |events|
  {
    if events != [] {
      StepValid(p, events[0]);
      RunValid(Step(p, events[0]), events[1..]);
    }
  }

  // ---------------------------------------------------------------------------
  // Autoplay through a surah

  /** Listening to verses `from` .. `to - 1` of `surah` to the end: each one's resource
      reports `loadeddata` and then `ended`. */
  function ListenThrough(surah: int, from: int, to: int): seq<Event>
    decreases to - from
  {
    if from >= to then []
    else [LoadedData(AyahKey(surah, from)), Ended(AyahKey(surah, from))] + ListenThrough(surah, from + 1, to)
  }

  /** Loading verse `ayah` of `surah` with the queue pointing at it. */
  predicate LoadingInQueue(p: Player, surah: int, ayah: int, length: int) {
    && p.view == PlayerView(false, true, Some(AyahKey(surah, ayah)))
    && p.audio == Some(Audio(AyahKey(surah, ayah), AudioUrl(surah, ayah), false))
    && p.queue == AutoplayQueue(true, Some(surah), ayah - 1, length)
  }

  lemma {:induction false} RunAppend(p: Player, a: seq<Event>, b: seq<Event>)
    ensures Run(p, a + b) == Run(Run(p, a), b)
    decreases |a|
  {
    if a != [] {
      assert (a + b)[1..] == a[1..] + b;
      RunAppend(Step(p, a[0]), a[1..], b);
    } else {
      assert a + b == b;
    }
  }

  lemma RunPair(p: Player, e1: Event, e2: Event)
    ensures Run(p, [e1, e2]) == Step(Step(p, e1), e2)
  {
    var q := Step(p, e1);
    assert [e1, e2][1..] == [e2];
    assert Run(p, [e1, e2]) == Run(q, [e2]);
    assert [e2][1..] == [];
    assert Run(q, [e2]) == Run(Step(q, e2), []);
  }

  lemma HearKey(p: Player, key: string)
    ensures Run(p, [LoadedData(key), Ended(key)]) == EndedStep(LoadedStep(p, key), key)
  {
    RunPair(p, LoadedData(key), Ended(key));
  }

  /** The events of hearing one verse, and their effect. */
  lemma HearOne(p: Player, surah: int, ayah: int)
    ensures var key := AyahKey(surah, ayah);
      Run(p, ListenThrough(surah, ayah, ayah + 1)) == EndedStep(LoadedStep(p, key), key)
  {
    var key := AyahKey(surah, ayah);
    assert ListenThrough(surah, ayah + 1, ayah + 1) == [];
    assert ListenThrough(surah, ayah, ayah + 1) == [LoadedData(key), Ended(key)];
    HearKey(p, key);
  }

  /** A loaded verse of the queue ends: the queue index moves to it. */
  lemma LoadedThenEnded(p: Player, surah: int, ayah: int, length: int)
    requires LoadingInQueue(p, surah, ayah, length) && ayah < length
    ensures var loaded := LoadedStep(p, AyahKey(surah, ayah));
      EndedStep(loaded, AyahKey(surah, ayah)) == PlayStep(loaded.(queue := loaded.queue.(index := ayah)), surah, ayah + 1)
  {
    EndedAdvances(LoadedStep(p, AyahKey(surah, ayah)), surah, ayah);
  }

  /** ... and the next verse, whose key differs, loads afresh. */
  lemma NextLoads(p: Player, surah: int, ayah: int, length: int)
    requires LoadingInQueue(p, surah, ayah, length) && ayah < length
    ensures var loaded := LoadedStep(p, AyahKey(surah, ayah));
      LoadingInQueue(PlayStep(loaded.(queue := loaded.queue.(index := ayah)), surah, ayah + 1), surah, ayah + 1, length)
  {
    var loaded := LoadedStep(p, AyahKey(surah, ayah));
    AyahKeyInjective(surah, ayah, surah, ayah + 1);
    FreshPlay(loaded.(queue := loaded.queue.(index := ayah)), surah, ayah + 1);
  }

  /** One verse heard to the end while the queue has a next verse: the next verse loads. */
  lemma ListenOne(p: Player, surah: int, ayah: int, length: int)
    requires LoadingInQueue(p, surah, ayah, length) && ayah < length
    ensures LoadingInQueue(Run(p, ListenThrough(surah, ayah, ayah + 1)), surah, ayah + 1, length)
  {
    HearOne(p, surah, ayah);
    LoadedThenEnded(p, surah, ayah, length);
    NextLoads(p, surah, ayah, length);
  }

  /** While the queue lasts, hearing verses `ayah` .. `to - 1` to the end leaves verse `to`
      loading: the queue visits the verses one after another. */
  lemma {:induction false} ListenAdvances(p: Player, surah: int, ayah: int, to: int, length: int)
    requires LoadingInQueue(p, surah, ayah, length) && ayah <= to <= length
    ensures LoadingInQueue(Run(p, ListenThrough(surah, ayah, to)), surah, to, length)
    decreases (to - ayah), 1
  {
    if ayah < to {
      ListenAdvancesStep(p, surah, ayah, to, length);
    } else {
      assert ListenThrough(surah, ayah, to) == [];
    }
  }

  lemma {:induction false} ListenAdvancesStep(p: Player, surah: int, ayah: int, to: int, length: int)
    requires LoadingInQueue(p, surah, ayah, length) && ayah < to <= length
    ensures LoadingInQueue(Run(p, ListenThrough(surah, ayah, to)), surah, to, length)
    decreases (to - ayah), 0
  {
    ListenFirstThenRest(p, surah, ayah, to);
    ListenOne(p, surah, ayah, length);
    var mid := Run(p, ListenThrough(surah, ayah, ayah + 1));
    ListenAdvances(mid, surah, ayah + 1, to, length);
  }

  lemma ListenFirstThenRest(p: Player, surah: int, ayah: int, to: int)
    requires ayah < to
    ensures Run(p, ListenThrough(surah, ayah, to))
         == Run(Run(p, ListenThrough(surah, ayah, ayah + 1)), ListenThrough(surah, ayah + 1, to))
  {
    ListenThroughSplit(surah, ayah, ayah + 1, to);
    RunAppend(p, ListenThrough(surah, ayah, ayah + 1), ListenThrough(surah, ayah + 1, to));
  }

  /** `playWithOptions` with autoplay from the first verse starts loading it with the
      queue at index 0. */
  lemma AutoplayStarts(p: Player, surah: int, n: int)
    requires p.view.currentAyah != Some(AyahKey(surah, 1))
    ensures LoadingInQueue(PlayWithOptionsStep(p, surah, 1, Some(true), Some(n)), surah, 1, n)
  {
    FreshPlay(p.(queue := QueueFor(surah, 1, Some(true), Some(n))), surah, 1);
  }

  /** The last verse of the queue ends: the player goes idle and clears the queue. */
  lemma ListenLast(p: Player, surah: int, n: int)
    requires LoadingInQueue(p, surah, n, n)
    ensures var r := Run(p, ListenThrough(surah, n, n + 1));
      r.view == Idle && r.queue == NoQueue
  {
    HearOne(p, surah, n);
    EndedExhausts(LoadedStep(p, AyahKey(surah, n)), surah, n);
  }

  /** Autoplay from the first verse of a surah of `n` verses: after verses 1 .. k - 1 end,
      verse k is loading (for every k up to n), and when verse n ends the player is idle
      with the queue cleared. */
  lemma AutoplaySurah(p: Player, surah: int, n: int)
    requires n >= 1
    requires p.view.currentAyah != Some(AyahKey(surah, 1))
    ensures var start := PlayWithOptionsStep(p, surah, 1, Some(true), Some(n));
      forall k :: 1 <= k <= n ==> LoadingInQueue(Run(start, ListenThrough(surah, 1, k)), surah, k, n)
    ensures var start := PlayWithOptionsStep(p, surah, 1, Some(true), Some(n));
      var finished := Run(start, ListenThrough(surah, 1, n + 1));
      finished.view == Idle && finished.queue == NoQueue
  {
    var start := PlayWithOptionsStep(p, surah, 1, Some(true), Some(n));
    AutoplayStarts(p, surah, n);
    forall k | 1 <= k <= n
      ensures LoadingInQueue(Run(start, ListenThrough(surah, 1, k)), surah, k, n)
    {
      ListenAdvances(start, surah, 1, k, n);
    }
    var last := Run(start, ListenThrough(surah, 1, n));
    ListenThroughSplit(surah, 1, n, n + 1);
    RunAppend(start, ListenThrough(surah, 1, n), ListenThrough(surah, n, n + 1));
    ListenLast(last, surah, n);
  }

  lemma {:induction false} ListenThroughSplit(surah: int, from: int, mid: int, to: int)
    requires from <= mid <= to
    ensures ListenThrough(surah, from, to) == ListenThrough(surah, from, mid) + ListenThrough(surah, mid, to)
    decreases mid - from
  {
    if from < mid {
      ListenThroughSplit(surah, from + 1, mid, to);
    }
  }

  /** A one-verse queue: the verse's `ended` goes straight to idle. */
  lemma AutoplayBoundary(p: Player, surah: int)
    requires p.view.currentAyah != Some(AyahKey(surah, 1))
    ensures var start := PlayWithOptionsStep(p, surah, 1, Some(true), Some(1));
      var r := EndedStep(LoadedStep(start, AyahKey(surah, 1)), AyahKey(surah, 1));
      r.view == Idle && r.queue == NoQueue
  {
    AyahKeyRoundTrip(surah, 1);
  }

  /** A `loadeddata` arriving after `stop()` shows its verse playing with no resource. */
  lemma LoadedAfterStop(p: Player, key: string)
    ensures Step(Step(p, StopCall), LoadedData(key)) == Player(PlayerView(true, false, Some(key)), None, NoQueue)
  {
  }

  /** An `error` arriving after another verse was started idles the view of the new one. */
  lemma ErrorAfterSwitch(p: Player, surah: int, other: int)
    requires p.view.currentAyah != Some(AyahKey(surah, other))
    ensures var r := Step(Step(p, PlayCall(surah, other, None, None)), Error);
      r.view == Idle && r.audio == Some(Audio(AyahKey(surah, other), AudioUrl(surah, other), false))
  {
    var cleared := p.(queue := NoQueue);
    PlainPlayCall(p, surah, other);
    ErrorEvent(PlayStep(cleared, surah, other));
    FreshPlay(cleared, surah, other);
  }

  /** A call of `play` without options clears the queue and runs the inner `play`. */
  lemma PlainPlayCall(p: Player, surah: int, ayah: int)
    ensures Step(p, PlayCall(surah, ayah, None, None)) == PlayStep(p.(queue := NoQueue), surah, ayah)
  {
  }

  lemma ErrorEvent(p: Player)
    ensures Step(p, Error) == FailStep(p)
  {
  }

  /** Listeners are not removed when a resource is superseded or stopped: a late
      `loadeddata` of a stopped resource shows its verse playing while no resource exists,
      and a late `error` of a superseded resource stops the view of the new one. */
  lemma StaleEventsStillApply(surah: int, ayah: int, other: int)
    requires ayah != other
    ensures var stopped := Run(Initial, [PlayCall(surah, ayah, None, None), StopCall, LoadedData(AyahKey(surah, ayah))]);
      stopped.view == PlayerView(true, false, Some(AyahKey(surah, ayah))) && stopped.audio.None?
    ensures var switched := Run(Initial, [PlayCall(surah, ayah, None, None), PlayCall(surah, other, None, None), Error]);
      switched.view == Idle && switched.audio == Some(Audio(AyahKey(surah, other), AudioUrl(surah, other), false))
  {
    var first := PlayCall(surah, ayah, None, None);
    RunTriple(Initial, first, StopCall, LoadedData(AyahKey(surah, ayah)));
    RunTriple(Initial, first, PlayCall(surah, other, None, None), Error);
    var loading := Step(Initial, first);
    LoadedAfterStop(loading, AyahKey(surah, ayah));
    FreshPlay(Initial, surah, ayah);
    AyahKeyInjective(surah, ayah, surah, other);
    ErrorAfterSwitch(loading, surah, other);
  }

  lemma RunTriple(p: Player, e1: Event, e2: Event, e3: Event)
    ensures Run(p, [e1, e2, e3]) == Step(Step(Step(p, e1), e2), e3)
  {
    assert [e1, e2, e3][1..] == [e2, e3];
    assert Run(p, [e1, e2, e3]) == Run(Step(p, e1), [e2, e3]);
    RunPair(Step(p, e1), e2, e3);
  }

  // ---------------------------------------------------------------------------
  // The hook, with its state held in fields

  /** One `useAudioPlayer()` instance.  Its fields are the state triple, `audioRef.current`
      and the four queue refs; every method performs one entry point or one event. */
  class AudioPlayer {
    var isPlaying: bool
    var isLoading: bool
    var currentAyah: Option<string>
    var audio: Option<Audio>
    var autoplay: bool
    var queueSurah: Option<int>
    var queueIndex: int
    var queueLength: int

    function State(): Player
      reads this
    {
      Player(PlayerView(isPlaying, isLoading, currentAyah), audio,
             AutoplayQueue(autoplay, queueSurah, queueIndex, queueLength))
    }

    ghost predicate Valid()
      reads this
    {
      Consistent(State())
    }

    constructor ()
      ensures State() == Initial && Valid()
    {
      isPlaying, isLoading, currentAyah := false, false, None;
      audio := None;
      autoplay, queueSurah, queueIndex, queueLength := false, None, -1, 0;
    }

    method SetState(v: PlayerView)
      modifies this
      ensures State() == old(State()).(view := v)
    {
      isPlaying, isLoading, currentAyah := v.isPlaying, v.isLoading, v.currentAyah;
    }

    method ClearQueue()
      modifies this
      ensures State() == old(State()).(queue := NoQueue)
    {
      autoplay, queueSurah, queueIndex, queueLength := false, None, -1, 0;
    }

    /** The inner `play`, up to `await audio.play()`; a rejection arrives later as
        `OnPlayRejected`. */
    method Play(surah: int, ayah: int)
      requires Valid()
      modifies this
      ensures Valid()
      ensures State() == PlayStep(old(State()), surah, ayah)
    {
      var key := AyahKey(surah, ayah);
      if currentAyah == Some(key) && audio.Some? {
        audio := Some(audio.value.(paused := true));
        SetState(Idle);
        return;
      }
      // the old resource is paused and dereferenced; its listeners stay attached
      audio := None;
      SetState(PlayerView(false, true, Some(key)));
      audio := Some(Audio(key, AudioUrl(surah, ayah), false));
    }

    /** `playWithOptions`, the hook's exported `play`. */
    method PlayWithOptions(surah: int, ayah: int, autoplayOption: Option<bool>, queueLengthOption: Option<int>)
      requires Valid()
      modifies this
      ensures Valid()
      ensures State() == PlayWithOptionsStep(old(State()), surah, ayah, autoplayOption, queueLengthOption)
    {
      if autoplayOption == Some(true) {
        autoplay := true;
        queueSurah := Some(surah);
        queueIndex := ayah - 1;
        queueLength := if queueLengthOption.Some? then queueLengthOption.value else 0;
      } else {
        ClearQueue();
      }
      Play(surah, ayah);
    }

    method Stop()
      requires Valid()
      modifies this
      ensures Valid()
      ensures State() == StopStep(old(State()))
    {
      if audio.Some? {
        audio := None;
      }
      ClearQueue();
      SetState(Idle);
    }

    /** The `loadeddata` listener of the resource created for `key`. */
    method OnLoadedData(key: string)
      requires Valid()
      modifies this
      ensures Valid()
      ensures State() == LoadedStep(old(State()), key)
    {
      SetState(PlayerView(true, false, Some(key)));
    }

    /** The `ended` listener of the resource created for `key`. */
    method OnEnded(key: string)
      requires Valid()
      modifies this
      ensures Valid()
      ensures State() == EndedStep(old(State()), key)
    {
      var (surah, _) := ParseAyahKey(key);
      Advance(surah);
    }

    /** The rest of the `ended` listener, once the key's surah field has been read. */
    method Advance(surah: Option<int>)
      requires Valid()
      modifies this
      ensures Valid()
      ensures State() == AdvanceQueue(old(State()), surah)
    {
      if autoplay && surah.Some? && queueSurah == surah {
        var nextIndex := queueIndex + 1;
        if nextIndex < queueLength {
          queueIndex := nextIndex;
          Play(surah.value, nextIndex + 1);
          return;
        }
      }
      ClearQueue();
      SetState(Idle);
    }

    /** The `error` listener. */
    method OnError()
      requires Valid()
      modifies this
      ensures Valid()
      ensures State() == FailStep(old(State()))
    {
      SetState(Idle);
    }

    /** The `catch` that a rejected `audio.play()` reaches. */
    method OnPlayRejected()
      requires Valid()
      modifies this
      ensures Valid()
      ensures State() == FailStep(old(State()))
    {
      SetState(Idle);
    }
  }
}
