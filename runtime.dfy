/**
 * The logger manager: the Init -> Start -> Finish lifecycle with its guards,
 * the once-only flags of the remote episode, the audio requests and the
 * user-input toggle.
 *
 * Every request the manager makes (to the KnowRob and speech REST clients and
 * to its two sub-loggers) is recorded as a `Call` appended to a log. Each
 * entry point is a step function on `ManagerState`; `Run` applies any sequence
 * of entry points, and the lemmas show what holds after any such sequence
 * (the episode is created and finished at most once, finishing only after
 * creating; started implies initialised; the Finish body runs at most once).
 * The class `LoggerManager` keeps the flags as fields and its methods are
 * proved to move them as the step functions say.
 */
module Runtime {

  /** The two sub-loggers the manager drives. */
  datatype Which = WorldStateLogger | SymbolicLogger

  /**
   * A sub-logger as the manager sees it: whether it is enabled
   * (bLogWorldState / bLogActionsAndEvents), what SetWorldStateLogger /
   * SetSymbolicLogger return, whether it runs independently, and what its
   * IsInit() and IsStarted() report after Init() and Start(). The source's
   * setters return true on every path (a failed spawn is not reported), so
   * `setOk` is always true there; the false case is kept only so that the
   * manager's failure branch has a meaning.
   */
  datatype SubLogger = SubLogger(enabled: bool, setOk: bool, runsIndependently: bool, initOk: bool, startOk: bool)

  /** The manager's settings: bCreateNEEM and the two sub-loggers. */
  datatype Config = Config(createNeem: bool, worldState: SubLogger, symbolic: SubLogger)

  /** A request made by the manager. */
  datatype Call =
    | CreateEpisode          // KnowRob REST client: create the episode
    | FinishEpisode          // KnowRob REST client: finish the episode
    | RecordAudio            // speech REST client: start recording
    | StopAudio              // speech REST client: stop recording
    | RestClientInit         // KnowRob REST client: set address, port and player
    | LoggerInit(w: Which)
    | LoggerStart(w: Which)
    | LoggerFinish(w: Which)
    | SetRestClient          // hand the KnowRob client to the symbolic logger

  /** The manager's flags and the log of the calls it has made. */
  datatype ManagerState = ManagerState(
    isInit: bool,
    isStarted: bool,
    isFinished: bool,
    episodeCreated: bool,
    episodeFinished: bool,
    calls: seq<Call>)

  const Initial := ManagerState(false, false, false, false, false, [])

  function SubLoggerOf(cfg: Config, w: Which): SubLogger {
    match w
    case WorldStateLogger => cfg.worldState
    case SymbolicLogger => cfg.symbolic
  }

  /** Number of times c occurs in the log. */
  function CountOf(calls: seq<Call>, c: Call): nat
    decreases |calls|
  {
    if calls == [] then 0
    else CountOf(calls[..|calls| - 1], c) + (if calls[|calls| - 1] == c then 1 else 0)
  }

  /** A sub-logger the manager initialises and that then reports initialised. */
  predicate InitsUp(l: SubLogger) {
    l.enabled && l.setOk && !l.runsIndependently && l.initOk
  }

  /** A sub-logger does not stop the manager from starting: disabled, or it reports started. */
  predicate StartsUp(l: SubLogger) {
    l.enabled ==> l.startOk
  }

  // ---------------------------------------------------------------------------
  // The entry points as steps

  /**
   * The init chain of one sub-logger: nothing when disabled; a failure to get
   * it or an independently running logger only skips its Init. Getting the
   * symbolic logger hands it the KnowRob client, before the independence
   * check. The flag it reports starts out false (the source leaves it
   * uninitialised).
   */
  function SubInit(l: SubLogger, w: Which): (r: (seq<Call>, bool))
    ensures r.1 <==> InitsUp(l)
    ensures LoggerInit(w) in r.0 <==> l.enabled && l.setOk && !l.runsIndependently
    ensures SetRestClient in r.0 <==> l.enabled && l.setOk && w == SymbolicLogger
    ensures forall c :: c in r.0 ==> c == SetRestClient || c == LoggerInit(w)
    ensures |r.0| <= 2 && (|r.0| == 2 ==> r.0 == [SetRestClient, LoggerInit(w)])
  {
    if !l.enabled then ([], false)
    else if !l.setOk then ([], false)
    else
      var handOver := if w == SymbolicLogger then [SetRestClient] else [];
      if l.runsIndependently then (handOver, false)
      else (handOver + [LoggerInit(w)], l.initOk)
  }

  datatype InitReport = InitReport(state: ManagerState, worldStateInited: bool, symbolicInited: bool)

  /**
   * Init: nothing when already initialised; otherwise the sub-logger failures
   * are only reported and the manager always ends initialised.
   */
  function InitStep(cfg: Config, s: ManagerState): (r: InitReport)
    ensures s.isInit ==> r.state == s
    ensures r.state.isInit
    ensures r.state.isStarted == s.isStarted && r.state.isFinished == s.isFinished
    ensures r.state.episodeCreated == s.episodeCreated && r.state.episodeFinished == s.episodeFinished
    ensures !s.isInit ==> (r.worldStateInited <==> InitsUp(cfg.worldState))
    ensures !s.isInit ==> (r.symbolicInited <==> InitsUp(cfg.symbolic))
  {
    if s.isInit then InitReport(s, false, false)
    else
      var ws := SubInit(cfg.worldState, WorldStateLogger);
      var sy := SubInit(cfg.symbolic, SymbolicLogger);
      InitReport(s.(isInit := true, calls := s.calls + ws.0 + sy.0 + [RestClientInit]), ws.1, sy.1)
  }

  /** The create-episode block shared by Start and AudioStart. */
  function CreateEpisodeOnce(cfg: Config, s: ManagerState): (r: ManagerState)
    ensures r.episodeCreated == (s.episodeCreated || cfg.createNeem)
    ensures r.calls == s.calls + (if cfg.createNeem && !s.episodeCreated then [CreateEpisode] else [])
    ensures r.isInit == s.isInit && r.isStarted == s.isStarted && r.isFinished == s.isFinished
    ensures r.episodeFinished == s.episodeFinished
  {
    if cfg.createNeem && !s.episodeCreated then s.(episodeCreated := true, calls := s.calls + [CreateEpisode])
    else s
  }

  /**
   * Start: the episode is created before the guards; an already started or
   * uninitialised manager stops there; otherwise each enabled sub-logger is
   * started and the manager is started only if every one reports started.
   */
  function StartStep(cfg: Config, s: ManagerState): (r: ManagerState)
    ensures r.isInit == s.isInit && r.isFinished == s.isFinished && r.episodeFinished == s.episodeFinished
    ensures r.episodeCreated == (s.episodeCreated || cfg.createNeem)
    ensures r.isStarted <==> s.isStarted || (s.isInit && StartsUp(cfg.worldState) && StartsUp(cfg.symbolic))
    ensures cfg.createNeem && !s.episodeCreated ==> |s.calls| < |r.calls| && r.calls[|s.calls|] == CreateEpisode
    ensures (s.isStarted || !s.isInit) ==> r == CreateEpisodeOnce(cfg, s)
  {
    var s1 := CreateEpisodeOnce(cfg, s);
    if s1.isStarted || !s1.isInit then s1
    else
      assert cfg.createNeem && !s.episodeCreated ==> (s1.calls + StartCalls(cfg))[|s.calls|] == CreateEpisode;
      s1.(calls := s1.calls + StartCalls(cfg), isStarted := StartsUp(cfg.worldState) && StartsUp(cfg.symbolic))
  }

  /**
   * The sub-logger calls of Start: each enabled sub-logger is started in turn
   * (the symbolic one also receives the KnowRob client), and the first one that
   * does not report started ends the sequence.
   */
  function StartCalls(cfg: Config): (r: seq<Call>)
    ensures CreateEpisode !in r && FinishEpisode !in r
    ensures LoggerFinish(WorldStateLogger) !in r && LoggerFinish(SymbolicLogger) !in r
  {
    if cfg.worldState.enabled && !cfg.worldState.startOk then [LoggerStart(WorldStateLogger)]
    else
      (if cfg.worldState.enabled then [LoggerStart(WorldStateLogger)] else [])
      + (if cfg.symbolic.enabled then [LoggerStart(SymbolicLogger), SetRestClient] else [])
  }

  /** AudioStart: the create-episode block, then the record request. */
  function AudioStartStep(cfg: Config, s: ManagerState): (r: ManagerState)
    ensures r.episodeCreated == (s.episodeCreated || cfg.createNeem)
    ensures r.calls == s.calls + (if cfg.createNeem && !s.episodeCreated then [CreateEpisode] else []) + [RecordAudio]
  {
    var s1 := CreateEpisodeOnce(cfg, s);
    s1.(calls := s1.calls + [RecordAudio])
  }

  /** AudioStop: finishes a created, unfinished episode, then always sends the stop request. */
  function AudioStopStep(s: ManagerState): (r: ManagerState)
    ensures r.episodeFinished == (s.episodeFinished || s.episodeCreated)
    ensures r.calls == s.calls + (if s.episodeCreated && !s.episodeFinished then [FinishEpisode] else []) + [StopAudio]
    ensures r.isInit == s.isInit && r.isStarted == s.isStarted && r.isFinished == s.isFinished
    ensures r.episodeCreated == s.episodeCreated
  {
    var s1 := if s.episodeCreated && !s.episodeFinished then s.(episodeFinished := true, calls := s.calls + [FinishEpisode]) else s;
    s1.(calls := s1.calls + [StopAudio])
  }

  /** The sub-logger finish calls of the Finish body. */
  function FinishCalls(cfg: Config): seq<Call> {
    (if cfg.worldState.enabled then [LoggerFinish(WorldStateLogger)] else [])
    + (if cfg.symbolic.enabled then [LoggerFinish(SymbolicLogger)] else [])
  }

  /**
   * Finish: nothing when finished, or when not both initialised and started;
   * otherwise the sub-loggers are finished and the manager ends finished,
   * neither started nor initialised.
   */
  function FinishStep(cfg: Config, s: ManagerState): (r: ManagerState)
    ensures s.isFinished || !s.isInit || !s.isStarted ==> r == s
    ensures !s.isFinished && s.isInit && s.isStarted ==>
      r.isFinished && !r.isStarted && !r.isInit && r.calls == s.calls + FinishCalls(cfg)
    ensures r.episodeCreated == s.episodeCreated && r.episodeFinished == s.episodeFinished
  {
    if s.isFinished then s
    else if !s.isInit || !s.isStarted then s
    else s.(calls := s.calls + FinishCalls(cfg), isStarted := false, isInit := false, isFinished := true)
  }

  /**
   * EndPlay: when not finished, Finish, AudioStop, and then the manager's own
   * finish-episode check, which AudioStop has always already settled.
   */
  function EndPlayStep(cfg: Config, s: ManagerState): ManagerState {
    if s.isFinished then s
    else
      var s1 := AudioStopStep(FinishStep(cfg, s));
      if s1.episodeCreated && !s1.episodeFinished then s1.(calls := s1.calls + [FinishEpisode]) else s1
  }

  /** The destructor: forces Finish when not finished and not a class template. */
  function DestroyStep(cfg: Config, s: ManagerState, isTemplate: bool): ManagerState {
    if !s.isFinished && !isTemplate then FinishStep(cfg, s) else s
  }

  /** The user-input toggle: start when initialised and not started, finish when started and not finished. */
  function ToggleStep(cfg: Config, s: ManagerState): (r: ManagerState)
    ensures s.isInit && !s.isStarted ==> r == StartStep(cfg, s)
    ensures !(s.isInit && !s.isStarted) && s.isStarted && !s.isFinished ==> r == FinishStep(cfg, s)
    ensures !(s.isInit && !s.isStarted) && !(s.isStarted && !s.isFinished) ==> r == s
  {
    if s.isInit && !s.isStarted then StartStep(cfg, s)
    else if s.isStarted && !s.isFinished then FinishStep(cfg, s)
    else s
  }

  datatype Op = Init | Start | AudioStart | AudioStop | Finish | EndPlay | Destroy(isTemplate: bool) | Toggle

  function Step(cfg: Config, s: ManagerState, op: Op): ManagerState {
    match op
    case Init => InitStep(cfg, s).state
    case Start => StartStep(cfg, s)
    case AudioStart => AudioStartStep(cfg, s)
    case AudioStop => AudioStopStep(s)
    case Finish => FinishStep(cfg, s)
    case EndPlay => EndPlayStep(cfg, s)
    case Destroy(isTemplate) => DestroyStep(cfg, s, isTemplate)
    case Toggle => ToggleStep(cfg, s)
  }

  /** Any sequence of entry points, applied in order. */
  function Run(cfg: Config, s: ManagerState, ops: seq<Op>): ManagerState
    decreases |ops|
  {
    if ops == [] then s else Run(cfg, Step(cfg, s, ops[0]), ops[1..])
  }

  // ---------------------------------------------------------------------------
  // The invariant and its preservation

  /** Every finish-episode request in the log comes after a create-episode request. */
  predicate FinishAfterCreate(calls: seq<Call>) {
    forall i :: 0 <= i < |calls| && calls[i] == FinishEpisode ==> CreateEpisode in calls[..i]
  }

  ghost predicate Inv(cfg: Config, s: ManagerState) {
    && CountOf(s.calls, CreateEpisode) == (if s.episodeCreated then 1 else 0)
    && CountOf(s.calls, FinishEpisode) == (if s.episodeFinished then 1 else 0)
    && (s.episodeFinished ==> s.episodeCreated)
    && FinishAfterCreate(s.calls)
    && (s.isStarted ==> s.isInit)
    && CountOf(s.calls, LoggerFinish(WorldStateLogger)) == (if s.isFinished && cfg.worldState.enabled then 1 else 0)
    && CountOf(s.calls, LoggerFinish(SymbolicLogger)) == (if s.isFinished && cfg.symbolic.enabled then 1 else 0)
  }

  lemma {:induction false} CountAppend(a: seq<Call>, b: seq<Call>, c: Call)
    ensures CountOf(a + b, c) == CountOf(a, c) + CountOf(b, c)
    decreases |b|
  {
    if b == [] {
      assert a + b == a;
    } else {
      var last := b[|b| - 1];
      assert (a + b)[..|a + b| - 1] == a + b[..|b| - 1];
      CountAppend(a, b[..|b| - 1], c);
    }
  }

  lemma {:induction false} CountPositive(calls: seq<Call>, c: Call)
    requires CountOf(calls, c) > 0
    ensures c in calls
    decreases |calls|
  {
    if calls[|calls| - 1] != c {
      CountPositive(calls[..|calls| - 1], c);
    }
  }

  /** Appending calls other than the finish-episode request keeps the ordering property. */
  lemma AppendNoFinish(calls: seq<Call>, extra: seq<Call>)
    requires FinishAfterCreate(calls)
    requires FinishEpisode !in extra
    ensures FinishAfterCreate(calls + extra)
  {
    var all := calls + extra;
    forall i | |calls| <= i < |all| ensures all[i] != FinishEpisode {
      assert all[i] == extra[i - |calls|];
    }
    forall i | 0 <= i < |all| && all[i] == FinishEpisode ensures CreateEpisode in all[..i] {
      assert all[..i] == calls[..i];
    }
  }

  /** Appending a finish-episode request once an episode was created keeps the ordering property. */
  lemma AppendFinishAfterCreate(calls: seq<Call>)
    requires FinishAfterCreate(calls)
    requires CreateEpisode in calls
    ensures FinishAfterCreate(calls + [FinishEpisode])
  {
    var all := calls + [FinishEpisode];
    forall i | 0 <= i < |all| && all[i] == FinishEpisode ensures CreateEpisode in all[..i] {
      if i < |calls| {
        assert all[..i] == calls[..i];
      } else {
        assert all[..i] == calls;
      }
    }
  }

  /** The counts the invariant tracks, after appending calls that contain none of those requests. */
  lemma AppendQuiet(cfg: Config, s: ManagerState, extra: seq<Call>)
    requires Inv(cfg, s)
    requires CreateEpisode !in extra && FinishEpisode !in extra
    requires LoggerFinish(WorldStateLogger) !in extra && LoggerFinish(SymbolicLogger) !in extra
    ensures Inv(cfg, s.(calls := s.calls + extra))
  {
    CountAppend(s.calls, extra, CreateEpisode);
    CountAbsent(extra, CreateEpisode);
    CountAppend(s.calls, extra, FinishEpisode);
    CountAbsent(extra, FinishEpisode);
    CountAppend(s.calls, extra, LoggerFinish(WorldStateLogger));
    CountAbsent(extra, LoggerFinish(WorldStateLogger));
    CountAppend(s.calls, extra, LoggerFinish(SymbolicLogger));
    CountAbsent(extra, LoggerFinish(SymbolicLogger));
    AppendNoFinish(s.calls, extra);
  }

  lemma {:induction false} CountAbsent(calls: seq<Call>, c: Call)
    requires c !in calls
    ensures CountOf(calls, c) == 0
    decreases |calls|
  {
    if calls != [] {
      assert calls[|calls| - 1] in calls;
      assert forall x :: x in calls[..|calls| - 1] ==> x in calls;
      CountAbsent(calls[..|calls| - 1], c);
    }
  }

  /** The calls of Init neither touch the episode nor finish a sub-logger. */
  lemma InitCallsQuiet(ws: seq<Call>, sy: seq<Call>)
    requires forall c :: c in ws ==> c == SetRestClient || c == LoggerInit(WorldStateLogger)
    requires forall c :: c in sy ==> c == SetRestClient || c == LoggerInit(SymbolicLogger)
    ensures var extra := ws + sy + [RestClientInit];
      && CreateEpisode !in extra && FinishEpisode !in extra
      && LoggerFinish(WorldStateLogger) !in extra && LoggerFinish(SymbolicLogger) !in extra
  {
  }

  lemma InitKeepsInv(cfg: Config, s: ManagerState)
    requires Inv(cfg, s)
    ensures Inv(cfg, InitStep(cfg, s).state)
  {
    if !s.isInit {
      var ws := SubInit(cfg.worldState, WorldStateLogger);
      var sy := SubInit(cfg.symbolic, SymbolicLogger);
      assert s.calls + ws.0 + sy.0 + [RestClientInit] == s.calls + (ws.0 + sy.0 + [RestClientInit]);
      InitCallsQuiet(ws.0, sy.0);
      AppendQuiet(cfg, s, ws.0 + sy.0 + [RestClientInit]);
      assert InitStep(cfg, s).state == s.(isInit := true, calls := s.calls + (ws.0 + sy.0 + [RestClientInit]));
    }
  }

  lemma CreateEpisodeOnceKeepsInv(cfg: Config, s: ManagerState)
    requires Inv(cfg, s)
    ensures Inv(cfg, CreateEpisodeOnce(cfg, s))
  {
    if cfg.createNeem && !s.episodeCreated {
      CountAppend(s.calls, [CreateEpisode], CreateEpisode);
      assert CountOf([CreateEpisode], CreateEpisode) == 1;
      CountAppend(s.calls, [CreateEpisode], FinishEpisode);
      CountAppend(s.calls, [CreateEpisode], LoggerFinish(WorldStateLogger));
      CountAppend(s.calls, [CreateEpisode], LoggerFinish(SymbolicLogger));
      AppendNoFinish(s.calls, [CreateEpisode]);
    }
  }

  lemma StartKeepsInv(cfg: Config, s: ManagerState)
    requires Inv(cfg, s)
    ensures Inv(cfg, StartStep(cfg, s))
  {
    var s1 := CreateEpisodeOnce(cfg, s);
    CreateEpisodeOnceKeepsInv(cfg, s);
    if !(s1.isStarted || !s1.isInit) {
      AppendQuiet(cfg, s1, StartCalls(cfg));
    }
  }

  lemma AudioStartKeepsInv(cfg: Config, s: ManagerState)
    requires Inv(cfg, s)
    ensures Inv(cfg, AudioStartStep(cfg, s))
  {
    CreateEpisodeOnceKeepsInv(cfg, s);
    AppendQuiet(cfg, CreateEpisodeOnce(cfg, s), [RecordAudio]);
  }

  /** Sending the finish-episode request for a created, unfinished episode keeps the invariant. */
  lemma SettleEpisodeKeepsInv(cfg: Config, s: ManagerState)
    requires Inv(cfg, s)
    requires s.episodeCreated && !s.episodeFinished
    ensures Inv(cfg, s.(episodeFinished := true, calls := s.calls + [FinishEpisode]))
  {
    CountAppend(s.calls, [FinishEpisode], CreateEpisode);
    CountAppend(s.calls, [FinishEpisode], FinishEpisode);
    assert CountOf([FinishEpisode], FinishEpisode) == 1;
    CountAppend(s.calls, [FinishEpisode], LoggerFinish(WorldStateLogger));
    CountAppend(s.calls, [FinishEpisode], LoggerFinish(SymbolicLogger));
    CountPositive(s.calls, CreateEpisode);
    AppendFinishAfterCreate(s.calls);
  }

  lemma AudioStopKeepsInv(cfg: Config, s: ManagerState)
    requires Inv(cfg, s)
    ensures Inv(cfg, AudioStopStep(s))
  {
    if s.episodeCreated && !s.episodeFinished {
      var s1 := s.(episodeFinished := true, calls := s.calls + [FinishEpisode]);
      SettleEpisodeKeepsInv(cfg, s);
      AppendQuiet(cfg, s1, [StopAudio]);
      assert AudioStopStep(s) == s1.(calls := s1.calls + [StopAudio]);
    } else {
      AppendQuiet(cfg, s, [StopAudio]);
      assert AudioStopStep(s) == s.(calls := s.calls + [StopAudio]);
    }
  }


  /** The Finish body finishes each enabled sub-logger once. */
  lemma {:induction false} CountSingleton(x: Call, c: Call)
    ensures CountOf([x], c) == if x == c then 1 else 0
  {
    assert [x][..0] == [];
  }

  /** A sub-logger's finish call is counted once when it is enabled and not otherwise. */
  lemma {:induction false} CountOptional(enabled: bool, x: Call, c: Call)
    ensures CountOf(if enabled then [x] else [], c) == if enabled && x == c then 1 else 0
  {
    if enabled {
      CountSingleton(x, c);
    }
  }

  lemma FinishCallsCount(cfg: Config)
    ensures CountOf(FinishCalls(cfg), LoggerFinish(WorldStateLogger)) == (if cfg.worldState.enabled then 1 else 0)
    ensures CountOf(FinishCalls(cfg), LoggerFinish(SymbolicLogger)) == (if cfg.symbolic.enabled then 1 else 0)
    ensures CreateEpisode !in FinishCalls(cfg) && FinishEpisode !in FinishCalls(cfg)
  {
    var a: seq<Call> := if cfg.worldState.enabled then [LoggerFinish(WorldStateLogger)] else [];
    var b: seq<Call> := if cfg.symbolic.enabled then [LoggerFinish(SymbolicLogger)] else [];
    assert FinishCalls(cfg) == a + b;
    CountAppend(a, b, LoggerFinish(WorldStateLogger));
    CountAppend(a, b, LoggerFinish(SymbolicLogger));
    CountOptional(cfg.worldState.enabled, LoggerFinish(WorldStateLogger), LoggerFinish(WorldStateLogger));
    CountOptional(cfg.worldState.enabled, LoggerFinish(WorldStateLogger), LoggerFinish(SymbolicLogger));
    CountOptional(cfg.symbolic.enabled, LoggerFinish(SymbolicLogger), LoggerFinish(WorldStateLogger));
    CountOptional(cfg.symbolic.enabled, LoggerFinish(SymbolicLogger), LoggerFinish(SymbolicLogger));
  }


  lemma FinishKeepsInv(cfg: Config, s: ManagerState)
    requires Inv(cfg, s)
    ensures Inv(cfg, FinishStep(cfg, s))
  {
    if !s.isFinished && s.isInit && s.isStarted {
      var extra := FinishCalls(cfg);
      FinishCallsCount(cfg);
      CountAppend(s.calls, extra, CreateEpisode);
      CountAppend(s.calls, extra, FinishEpisode);
      CountAppend(s.calls, extra, LoggerFinish(WorldStateLogger));
      CountAppend(s.calls, extra, LoggerFinish(SymbolicLogger));
      CountAbsent(extra, CreateEpisode);
      CountAbsent(extra, FinishEpisode);
      AppendNoFinish(s.calls, extra);
    }
  }

  /** After AudioStop an episode that was created is also finished. */
  lemma AudioStopSettlesEpisode(s: ManagerState)
    ensures var r := AudioStopStep(s); !(r.episodeCreated && !r.episodeFinished)
  {
  }

  lemma EndPlayKeepsInv(cfg: Config, s: ManagerState)
    requires Inv(cfg, s)
    ensures Inv(cfg, EndPlayStep(cfg, s))
  {
    if !s.isFinished {
      FinishKeepsInv(cfg, s);
      AudioStopKeepsInv(cfg, FinishStep(cfg, s));
      AudioStopSettlesEpisode(FinishStep(cfg, s));
    }
  }

  lemma StepKeepsInv(cfg: Config, s: ManagerState, op: Op)
    requires Inv(cfg, s)
    ensures Inv(cfg, Step(cfg, s, op))
  {
    match op
    case Init => InitKeepsInv(cfg, s);
    case Start => StartKeepsInv(cfg, s);
    case AudioStart => AudioStartKeepsInv(cfg, s);
    case AudioStop => AudioStopKeepsInv(cfg, s);
    case Finish => FinishKeepsInv(cfg, s);
    case EndPlay => EndPlayKeepsInv(cfg, s);
    case Destroy(isTemplate) => FinishKeepsInv(cfg, s);
    case Toggle =>
      StartKeepsInv(cfg, s);
      FinishKeepsInv(cfg, s);
  }

  lemma {:induction false} RunKeepsInv(cfg: Config, s: ManagerState, ops: seq<Op>)
    requires Inv(cfg, s)
    ensures Inv(cfg, Run(cfg, s, ops))
    decreases |ops|
  {
    if ops != [] {
      StepKeepsInv(cfg, s, ops[0]);
      RunKeepsInv(cfg, Step(cfg, s, ops[0]), ops[1..]);
    }
  }

  /**
   * Over any sequence of entry points from a fresh manager: the create- and
   * finish-episode requests are each sent at most once, a finish request only
   * after a create request, the sub-loggers are finished at most once, and a
   * started manager is initialised.
   */
  lemma {:induction false} EpisodeRequestsAtMostOnce(cfg: Config, ops: seq<Op>)
    ensures var s := Run(cfg, Initial, ops);
      && CountOf(s.calls, CreateEpisode) <= 1
      && CountOf(s.calls, FinishEpisode) <= 1
      && FinishAfterCreate(s.calls)
      && CountOf(s.calls, LoggerFinish(WorldStateLogger)) <= 1
      && CountOf(s.calls, LoggerFinish(SymbolicLogger)) <= 1
      && (s.isStarted ==> s.isInit)
  {
    RunKeepsInv(cfg, Initial, ops);
  }

  /** No entry point clears the finished flag. */
  lemma StepKeepsFinished(cfg: Config, s: ManagerState, op: Op)
    requires s.isFinished
    ensures Step(cfg, s, op).isFinished
  {
    match op
    case Init =>
    case Start =>
    case AudioStart =>
    case AudioStop =>
    case Finish =>
    case EndPlay =>
    case Destroy(_) =>
    case Toggle =>
  }

  /**
   * Once finished, a manager stays finished whatever happens next, so the
   * Finish body (guarded by the finished flag) never runs a second time.
   */
  lemma {:induction false} FinishedStaysFinished(cfg: Config, s: ManagerState, ops: seq<Op>)
    requires s.isFinished
    ensures Run(cfg, s, ops).isFinished
    ensures forall i :: 0 <= i < |ops| ==> FinishStep(cfg, Run(cfg, s, ops[..i])) == Run(cfg, s, ops[..i])
    decreases |ops|
  {
    if ops != [] {
      StepKeepsFinished(cfg, s, ops[0]);
      FinishedStaysFinished(cfg, Step(cfg, s, ops[0]), ops[1..]);
      forall i | 0 <= i < |ops| ensures FinishStep(cfg, Run(cfg, s, ops[..i])) == Run(cfg, s, ops[..i]) {
        if i > 0 {
          assert ops[..i][1..] == ops[1..][..i - 1];
        }
      }
    }
  }

  /** Once finished, the toggle cannot start the manager again: it changes nothing. */
  lemma ToggleAfterFinish(cfg: Config, s: ManagerState)
    requires Inv(cfg, s)
    requires s.isFinished && !s.isInit
    ensures ToggleStep(cfg, s) == s
  {
  }

  // ---------------------------------------------------------------------------
  // The manager actor

  class LoggerManager {
    const config: Config
    var isInit: bool
    var isStarted: bool
    var isFinished: bool
    var isEpisodeCreated: bool
    var isEpisodeFinished: bool
    ghost var calls: seq<Call>

    ghost function State(): ManagerState
      reads this
    {
      ManagerState(isInit, isStarted, isFinished, isEpisodeCreated, isEpisodeFinished, calls)
    }

    constructor (cfg: Config)
      ensures config == cfg && State() == Initial
    {
      config := cfg;
      isInit, isStarted, isFinished := false, false, false;
      isEpisodeCreated, isEpisodeFinished := false, false;
      calls := [];
    }

    /**
     * The two reported flags are declared without initialiser in the source;
     * here they start out false.
     */
    method Init() returns (worldStateInited: bool, symbolicInited: bool)
      modifies this
      ensures var r := InitStep(config, old(State()));
        State() == r.state && worldStateInited == r.worldStateInited && symbolicInited == r.symbolicInited
    {
      worldStateInited, symbolicInited := false, false;
      if isInit {
        return;
      }
      ghost var start := calls;
      ghost var ws := SubInit(config.worldState, WorldStateLogger);
      ghost var sy := SubInit(config.symbolic, SymbolicLogger);
      if config.worldState.enabled {
        if !config.worldState.setOk {
        } else if config.worldState.runsIndependently {
        } else {
          calls := calls + [LoggerInit(WorldStateLogger)];
          if config.worldState.initOk {
            worldStateInited := true;
          }
        }
      }
      assert calls == start + ws.0 && worldStateInited == ws.1;
      if config.symbolic.enabled {
        if !config.symbolic.setOk {
        } else if config.symbolic.runsIndependently {
          calls := calls + [SetRestClient];
        } else {
          calls := calls + [SetRestClient, LoggerInit(SymbolicLogger)];
          if config.symbolic.initOk {
            symbolicInited := true;
          }
        }
      }
      assert calls == start + ws.0 + sy.0 && symbolicInited == sy.1;
      calls := calls + [RestClientInit];
      isInit := true;
    }

    /** The create-episode block of Start and AudioStart. */
    method CreateEpisodeIfNeeded()
      modifies this
      ensures State() == CreateEpisodeOnce(config, old(State()))
    {
      if config.createNeem {
        if !isEpisodeCreated {
          calls := calls + [CreateEpisode];
          isEpisodeCreated := true;
        }
      }
    }

    method Start()
      modifies this
      ensures State() == StartStep(config, old(State()))
    {
      CreateEpisodeIfNeeded();
      if isStarted {
        return;
      }
      if !isInit {
        return;
      }
      if config.worldState.enabled {
        calls := calls + [LoggerStart(WorldStateLogger)];
        if !config.worldState.startOk {
          return;
        }
      }
      if config.symbolic.enabled {
        calls := calls + [LoggerStart(SymbolicLogger), SetRestClient];
        if !config.symbolic.startOk {
          return;
        }
      }
      isStarted := true;
    }

    method AudioStart()
      modifies this
      ensures State() == AudioStartStep(config, old(State()))
    {
      CreateEpisodeIfNeeded();
      calls := calls + [RecordAudio];
    }

    method AudioStop()
      modifies this
      ensures State() == AudioStopStep(old(State()))
    {
      if isEpisodeCreated && !isEpisodeFinished {
        calls := calls + [FinishEpisode];
        isEpisodeFinished := true;
      }
      calls := calls + [StopAudio];
    }

    /** The forced flag is not read. */
    method Finish(forced: bool)
      modifies this
      ensures State() == FinishStep(config, old(State()))
    {
      if isFinished {
        return;
      }
      if !isInit || !isStarted {
        return;
      }
      if config.worldState.enabled {
        calls := calls + [LoggerFinish(WorldStateLogger)];
      }
      if config.symbolic.enabled {
        calls := calls + [LoggerFinish(SymbolicLogger)];
      }
      isStarted := false;
      isInit := false;
      isFinished := true;
    }

    method EndPlay()
      modifies this
      ensures State() == EndPlayStep(config, old(State()))
    {
      if !isFinished {
        Finish(false);
        AudioStop();
        // The source checks the episode once more here and would send the
        // finish request; AudioStop has just settled it, so nothing is sent.
        assert !(isEpisodeCreated && !isEpisodeFinished);
      }
    }

    /** The destructor; isTemplate stands for IsTemplate(). */
    method Destroy(isTemplate: bool)
      modifies this
      ensures State() == DestroyStep(config, old(State()), isTemplate)
    {
      if !isFinished && !isTemplate {
        Finish(true);
      }
    }

    method UserInputToggleCallback()
      modifies this
      ensures State() == ToggleStep(config, old(State()))
    {
      if isInit && !isStarted {
        Start();
      } else if isStarted && !isFinished {
        Finish(false);
      }
    }
  }
}
