/** The play/idle state machine of one custom-pattern row: the button that
    starts a pattern, the hardware check, the calls into CoreHaptics and the
    one-shot timer that puts the row back to idle.

    CoreHaptics is an oracle here: whether the hardware supports haptics, whether
    creating and starting the engine succeeded, and whether pattern creation,
    player creation and player start throw are parameters of the methods. The
    deferred reset is a pending delay that fires only when `TimerFires` is
    called. */
module PlaybackSession {
  import opened HapticEvents
  import opened PatternBuilder

  datatype Option<T> = None | Some(value: T)

  /** The two custom patterns a row can play. */
  datatype CustomPattern = Ringing | MaxIntensity

  /** A CHHapticEngine, and whether its `start()` succeeded. */
  datatype HapticEngine = HapticEngine(running: bool)

  /** What CoreHaptics does when the row plays a pattern: whether
      `CHHapticPattern(events:)`, `makePlayer(with:)` and `start(atTime:)`
      return normally (false: the call throws). */
  datatype EngineOutcome = EngineOutcome(patternOk: bool, makePlayerOk: bool, startOk: bool)

  datatype EngineStep = MakePattern | MakePlayer | StartPlayer

  /** One call into CoreHaptics, the events it was given, and whether the row
      showed itself as playing when the call was made. */
  datatype EngineCall = EngineCall(step: EngineStep, events: seq<HapticEvent>, whilePlaying: bool)

  /** The events each pattern plays. */
  function PatternEvents(pattern: CustomPattern): seq<HapticEvent>
  {
    match pattern
    case Ringing => RingingTimeline(NumberOfRings, RingDuration)
    case MaxIntensity => MaxIntensityTimeline()
  }

  /** How long after a successful start each pattern resets the row to idle. */
  function ResetDelay(pattern: CustomPattern): int
  {
    match pattern
    case Ringing => RingingResetDelay(NumberOfRings, RingDuration)
    case MaxIntensity => MaxIntensityResetDelay
  }

  /** Whether the `do` block of a play function ends in its `catch`. With no
      engine, `hapticEngine?.makePlayer` yields nil and `player?.start` is
      skipped, so only pattern creation can throw. */
  predicate Throws(hasEngine: bool, outcome: EngineOutcome)
  {
    !outcome.patternOk || (hasEngine && (!outcome.makePlayerOk || !outcome.startOk))
  }

  /** The CoreHaptics calls a play function makes, in order, up to the first
      one that throws. */
  function EngineTrace(events: seq<HapticEvent>, hasEngine: bool, outcome: EngineOutcome, playing: bool): seq<EngineCall>
  {
    [EngineCall(MakePattern, events, playing)] +
    (if !outcome.patternOk || !hasEngine then []
     else [EngineCall(MakePlayer, events, playing)] +
          (if !outcome.makePlayerOk then [] else [EngineCall(StartPlayer, events, playing)]))
  }

  /** Every pattern the app plays is well formed and is over before its reset
      timer fires. */
  lemma PatternsFitResetDelay(pattern: CustomPattern)
    ensures AllWellFormed(PatternEvents(pattern))
    ensures TimelineEnd(PatternEvents(pattern)) <= ResetDelay(pattern)
  {
    match pattern
    case Ringing =>
      RingingWellFormed(NumberOfRings, RingDuration);
      RingingResetCovers(NumberOfRings, RingDuration);
    case MaxIntensity =>
      MaxIntensityWellFormed();
      MaxIntensityResetCovers();
  }

  /** The calls a play attempt makes: pattern creation first, the player
      started only when there is an engine and nothing before threw, and, with
      no engine, pattern creation alone, so that only it can make the attempt
      fail. Every call carries the playing flag the row showed. */
  lemma EngineTraceShape(events: seq<HapticEvent>, hasEngine: bool, outcome: EngineOutcome, playing: bool)
    ensures var trace := EngineTrace(events, hasEngine, outcome, playing);
            trace[0] == EngineCall(MakePattern, events, playing) &&
            (forall k :: 0 <= k < |trace| ==> trace[k].events == events && trace[k].whilePlaying == playing) &&
            (EngineCall(StartPlayer, events, playing) in trace <==>
               hasEngine && outcome.patternOk && outcome.makePlayerOk) &&
            (!hasEngine ==> |trace| == 1 && (Throws(hasEngine, outcome) <==> !outcome.patternOk))
  {
  }

  /** One `CustomPatternRow`: its pattern, its `@State` fields `isPlaying` and
      `hapticEngine`, the reset scheduled with `asyncAfter` (if any), and the
      calls it has made into CoreHaptics. */
  class CustomPatternRow {
    const pattern: CustomPattern
    var isPlaying: bool
    var hapticEngine: Option<HapticEngine>
    var pendingReset: Option<int>
    var engineCalls: seq<EngineCall>

    /** A reset is pending exactly while the row is playing, and the row was
        shown as playing whenever it called into CoreHaptics. */
    ghost predicate Valid()
      reads this
    {
      (isPlaying <==> pendingReset.Some?) &&
      forall k :: 0 <= k < |engineCalls| ==> engineCalls[k].whilePlaying
    }

    constructor (pattern: CustomPattern)
      ensures Valid()
      ensures this.pattern == pattern
      ensures !isPlaying && hapticEngine == None && pendingReset == None && engineCalls == []
    {
      this.pattern := pattern;
      isPlaying := false;
      hapticEngine := None;
      pendingReset := None;
      engineCalls := [];
    }

    /** `prepareHaptics`, run when the row appears: without haptics hardware
        nothing happens; a failed engine creation leaves `hapticEngine` as it
        was; a failed `start()` keeps the created engine, not running. */
    method PrepareHaptics(supported: bool, createOk: bool, startOk: bool)
      requires Valid()
      modifies this
      ensures Valid()
      ensures hapticEngine == if supported && createOk then Some(HapticEngine(startOk)) else old(hapticEngine)
      ensures isPlaying == old(isPlaying) && pendingReset == old(pendingReset) && engineCalls == old(engineCalls)
    {
      if !supported {
        return;
      }
      if createOk {
        hapticEngine := Some(HapticEngine(startOk));
      }
    }

    /** The `do`/`catch` block shared by both play functions: create the
        pattern, make a player if there is an engine, start it. It runs only
        after the row has set `isPlaying`. */
    method SubmitToEngine(events: seq<HapticEvent>, outcome: EngineOutcome) returns (thrown: bool)
      requires isPlaying
      modifies this
      ensures thrown == Throws(hapticEngine.Some?, outcome)
      ensures engineCalls == old(engineCalls) + EngineTrace(events, hapticEngine.Some?, outcome, isPlaying)
      ensures isPlaying == old(isPlaying) && hapticEngine == old(hapticEngine) && pendingReset == old(pendingReset)
    {
      engineCalls := engineCalls + [EngineCall(MakePattern, events, isPlaying)];
      if !outcome.patternOk {
        return true;
      }
      if hapticEngine.None? {
        return false;
      }
      engineCalls := engineCalls + [EngineCall(MakePlayer, events, isPlaying)];
      if !outcome.makePlayerOk {
        return true;
      }
      engineCalls := engineCalls + [EngineCall(StartPlayer, events, isPlaying)];
      thrown := !outcome.startOk;
    }

    /** `playRingingPattern`: on supported hardware the row shows itself as
        playing, builds the ringing timeline, and hands it to CoreHaptics; it
        goes back to idle at once if a call throws, and otherwise schedules its
        reset after n·(ring length + 0.5 s). */
    method PlayRingingPattern(supported: bool, outcome: EngineOutcome)
      requires Valid() && !isPlaying
      modifies this
      ensures Valid()
      ensures hapticEngine == old(hapticEngine)
      ensures !supported ==> !isPlaying && pendingReset == None && engineCalls == old(engineCalls)
      ensures supported ==>
                engineCalls == old(engineCalls) +
                  EngineTrace(RingingTimeline(NumberOfRings, RingDuration), hapticEngine.Some?, outcome, true) &&
                isPlaying == !Throws(hapticEngine.Some?, outcome) &&
                pendingReset == if isPlaying then Some(RingingResetDelay(NumberOfRings, RingDuration)) else None
    {
      if !supported {
        return;
      }
      isPlaying := true;
      var events := BuildRingingEvents(NumberOfRings, RingDuration);
      var thrown := SubmitToEngine(events, outcome);
      if thrown {
        isPlaying := false;
      } else {
        var totalDuration := NumberOfRings * (RingDuration + RingGap);
        pendingReset := Some(totalDuration);
      }
    }

    /** `playMaxIntensityPattern`: as the ringing pattern, with the 23-event
        timeline and the fixed 2.1 s reset delay. */
    method PlayMaxIntensityPattern(supported: bool, outcome: EngineOutcome)
      requires Valid() && !isPlaying
      modifies this
      ensures Valid()
      ensures hapticEngine == old(hapticEngine)
      ensures !supported ==> !isPlaying && pendingReset == None && engineCalls == old(engineCalls)
      ensures supported ==>
                engineCalls == old(engineCalls) +
                  EngineTrace(MaxIntensityTimeline(), hapticEngine.Some?, outcome, true) &&
                isPlaying == !Throws(hapticEngine.Some?, outcome) &&
                pendingReset == if isPlaying then Some(MaxIntensityResetDelay) else None
    {
      if !supported {
        return;
      }
      isPlaying := true;
      var events := BuildMaxIntensityEvents();
      var thrown := SubmitToEngine(events, outcome);
      if thrown {
        isPlaying := false;
      } else {
        pendingReset := Some(MaxIntensityResetDelay);
      }
    }

    /** The button action: a press while the row is playing is ignored;
        otherwise the row plays its pattern. */
    method Press(supported: bool, outcome: EngineOutcome)
      requires Valid()
      modifies this
      ensures Valid()
      ensures hapticEngine == old(hapticEngine)
      ensures old(isPlaying) || !supported ==>
                isPlaying == old(isPlaying) && pendingReset == old(pendingReset) && engineCalls == old(engineCalls)
      ensures !old(isPlaying) && supported ==>
                engineCalls == old(engineCalls) +
                  EngineTrace(PatternEvents(pattern), hapticEngine.Some?, outcome, true) &&
                isPlaying == !Throws(hapticEngine.Some?, outcome) &&
                pendingReset == if isPlaying then Some(ResetDelay(pattern)) else None
    {
      if !isPlaying {
        match pattern {
          case Ringing => PlayRingingPattern(supported, outcome);
          case MaxIntensity => PlayMaxIntensityPattern(supported, outcome);
        }
      }
    }

    /** The `asyncAfter` callback: the pending reset fires and the row is idle. */
    method TimerFires()
      requires Valid() && pendingReset.Some?
      modifies this
      ensures Valid()
      ensures !isPlaying && pendingReset == None
      ensures hapticEngine == old(hapticEngine) && engineCalls == old(engineCalls)
    {
      isPlaying := false;
      pendingReset := None;
    }
  }

  /** A row that appears on haptics hardware and is pressed: it plays until
      its reset fires exactly when nothing threw (a missing engine included),
      with the pattern's own reset delay pending; a second press while it
      plays makes no engine call, while one after a throw plays again; once the reset fires the row is idle again. */
  method PlayUntilReset(pattern: CustomPattern, engineCreated: bool, outcome: EngineOutcome)
    returns (playingAfterPress: bool, delay: Option<int>, callsAfterPress: nat, callsAfterSecondPress: nat, playingAtEnd: bool)
    ensures playingAfterPress == !Throws(engineCreated, outcome)
    ensures delay == if playingAfterPress then Some(ResetDelay(pattern)) else None
    ensures callsAfterPress > 0
    ensures callsAfterSecondPress == callsAfterPress <==> playingAfterPress
    ensures !playingAtEnd
  {
    var row := new CustomPatternRow(pattern);
    row.PrepareHaptics(true, engineCreated, true);
    row.Press(true, outcome);
    playingAfterPress := row.isPlaying;
    delay := row.pendingReset;
    callsAfterPress := |row.engineCalls|;
    row.Press(true, outcome);
    callsAfterSecondPress := |row.engineCalls|;
    if row.pendingReset.Some? {
      row.TimerFires();
    }
    playingAtEnd := row.isPlaying;
  }
}
