/**
 * What the bring-up of `main` promises, stated against the answers of the
 * EGL implementation alone: which stage fails first and with which code,
 * which calls are made and in which order, what is logged, and what a
 * successful bring-up leaves in the locals.
 */
module BringupProperties {
  import opened Wrappers
  import opened EglErrors
  import opened Bringup

  /** Whether `stage` gets past its check in `main`; the surface stage has its fallback. */
  predicate StageSucceeds(d: Driver, stage: Stage)
  {
    match stage
    case AcquireDisplay => d.getDisplay.Some?
    case Initialize => d.initialize.Ok?
    case BindApi => d.bindApi.Ok?
    case QueryConfigs => d.getConfigs.Ok?
    case ChooseConfig => d.chooseConfig.Ok?
    case CreateSurface => d.createWindowSurface.Ok? || d.createPixmapSurface.Ok?
    case CreateContext => d.createContext.Ok?
    case MakeCurrent => d.makeCurrent.Ok?
  }

  /**
   * The code a failing stage reports: none for a missing display, the
   * pixmap's code for the surface stage (the window's code is overwritten).
   */
  function StageError(d: Driver, stage: Stage): Option<Int32>
    requires !StageSucceeds(d, stage)
  {
    match stage
    case AcquireDisplay => None
    case Initialize => Some(d.initialize.error)
    case BindApi => Some(d.bindApi.error)
    case QueryConfigs => Some(d.getConfigs.error)
    case ChooseConfig => Some(d.chooseConfig.error)
    case CreateSurface => Some(d.createPixmapSurface.error)
    case CreateContext => Some(d.createContext.error)
    case MakeCurrent => Some(d.makeCurrent.error)
  }

  /** The first stage from the `k`-th on that fails, if any. */
  function FirstFailure(d: Driver, k: nat): (r: Option<Stage>)
    requires k <= |Stages|
    ensures r.Some? ==> k <= Order(r.value) && !StageSucceeds(d, r.value)
    ensures r.Some? ==> forall j :: k <= j < Order(r.value) ==> StageSucceeds(d, Stages[j])
    ensures r.None? <==> forall j :: k <= j < |Stages| ==> StageSucceeds(d, Stages[j])
    decreases |Stages| - k
  {
    if k == |Stages| then None
    else if !StageSucceeds(d, Stages[k]) then Some(Stages[k])
    else FirstFailure(d, k + 1)
  }

  /** The backing of the surface once the surface stage has succeeded. */
  function SurfaceBacking(d: Driver): Backing
  {
    if d.createWindowSurface.Ok? then Window else Pixmap
  }

  /** The backing a run from phase `p` ends with, if it succeeds. */
  function BackingAfter(d: Driver, p: Phase): Backing
  {
    if p.SurfaceBound? || p.ContextCreated? || p.Current? then p.backing else SurfaceBacking(d)
  }

  /** The phase a run that starts at the `k`-th stage ends in. */
  function Outcome(d: Driver, k: nat, backing: Backing): Phase
    requires k <= |Stages|
  {
    match FirstFailure(d, k)
    case Some(stage) => Failed(stage, StageError(d, stage))
    case None => Current(backing)
  }

  /** From any phase, the run ends in the outcome of the stages still to come. */
  lemma {:induction false} DriveOutcome(s: State, d: Driver)
    requires Ready(s) && !s.phase.Terminal()
    ensures Drive(s, d).phase == Outcome(d, s.phase.Rank(), BackingAfter(d, s.phase))
    decreases 8 - s.phase.Rank()
  {
    var t := Next(s, d);
    DriveStep(s, d);
    NextOutcome(s, d);
    if !t.phase.Terminal() {
      DriveOutcome(t, d);
    }
  }

  /** The phase after one stage: the next one if the stage succeeds, its failure otherwise. */
  lemma NextOutcome(s: State, d: Driver)
    requires Ready(s) && !s.phase.Terminal()
    ensures var k, t := s.phase.Rank(), Next(s, d).phase;
      if StageSucceeds(d, Stages[k]) then
        !t.Failed? && t.Rank() == k + 1 && BackingAfter(d, t) == BackingAfter(d, s.phase)
      else
        t == Failed(Stages[k], StageError(d, Stages[k]))
  {
  }

  /**
   * The bring-up ends in the first stage that fails, with that stage's
   * code, or is current on a window surface if the window could be created
   * and on a pixmap surface otherwise.
   */
  lemma RunOutcome(d: Driver)
    ensures Run(d).phase == Outcome(d, 0, SurfaceBacking(d))
  {
    DriveOutcome(Start, d);
  }

  /** `main` reaches its idle loop exactly when every stage succeeds, and returns -1 otherwise. */
  lemma SucceedsIffEveryStageSucceeds(d: Driver)
    ensures Run(d).phase.Current? <==> forall stage :: StageSucceeds(d, stage)
    ensures Run(d).phase.Failed? <==> exists stage :: !StageSucceeds(d, stage)
  {
    RunOutcome(d);
    if exists stage :: !StageSucceeds(d, stage) {
      var stage :| !StageSucceeds(d, stage);
      assert !StageSucceeds(d, Stages[Order(stage)]);
    }
  }

  /** A failed bring-up names the first stage that fails and the code that stage reports. */
  lemma FailureIsFirstFailingStage(d: Driver)
    ensures Run(d).phase.Failed? ==>
      && !StageSucceeds(d, Run(d).phase.stage)
      && Run(d).phase.error == StageError(d, Run(d).phase.stage)
      && forall earlier :: Order(earlier) < Order(Run(d).phase.stage) ==> StageSucceeds(d, earlier)
  {
    RunOutcome(d);
    if Run(d).phase.Failed? {
      forall earlier | Order(earlier) < Order(Run(d).phase.stage)
        ensures StageSucceeds(d, earlier)
      {
        assert Stages[Order(earlier)] == earlier;
      }
    }
  }

  /**
   * Once a configuration is chosen, the surface stage fails exactly when
   * both the window and the pixmap surface fail; a successful bring-up is
   * on the window when it could be created and on the pixmap otherwise.
   */
  lemma SurfaceFallback(d: Driver)
    requires forall j :: 0 <= j < Order(CreateSurface) ==> StageSucceeds(d, Stages[j])
    ensures Run(d).phase.Failed? && Run(d).phase.stage == CreateSurface
        <==> d.createWindowSurface.Err? && d.createPixmapSurface.Err?
    ensures d.createWindowSurface.Err? && d.createPixmapSurface.Err? ==>
      Run(d).phase.error == Some(d.createPixmapSurface.error)
    ensures Run(d).phase.Current? ==>
      Run(d).phase.backing == (if d.createWindowSurface.Ok? then Window else Pixmap)
  {
    RunOutcome(d);
    assert FirstFailure(d, 0) == FirstFailure(d, Order(CreateSurface));
  }

  /** The positions in the text of `main` of the calls of `calls`. */
  function Ranks(calls: seq<Call>): (r: seq<nat>)
    ensures |r| == |calls|
    ensures forall i :: 0 <= i < |calls| ==> r[i] == calls[i].Rank()
  {
    seq(|calls|, i requires 0 <= i < |calls| => calls[i].Rank())
  }

  /** The lowest call rank the `k`-th stage can make. */
  function StageFloor(k: nat): nat
  {
    if k <= 5 then k else k + 1
  }

  /** The ranks of the calls the `k`-th stage makes: the surface stage makes one or two. */
  function StageCallRanks(d: Driver, k: nat): seq<nat>
    requires k < |Stages|
  {
    if k < 5 then [k]
    else if k == 5 then (if d.createWindowSurface.Ok? then [5] else [5, 6])
    else [k + 1]
  }

  /** The ranks of the calls made from the `k`-th stage on: no call follows a failing stage. */
  function CallRanksFrom(d: Driver, k: nat): seq<nat>
    requires k <= |Stages|
    decreases |Stages| - k
  {
    if k == |Stages| then []
    else if StageSucceeds(d, Stages[k]) then StageCallRanks(d, k) + CallRanksFrom(d, k + 1)
    else StageCallRanks(d, k)
  }

  /** Concatenation of rank sequences is associative. */
  lemma AppendAssoc(a: seq<nat>, b: seq<nat>, c: seq<nat>)
    ensures (a + b) + c == a + (b + c)
  {
  }

  /** The ranks of two call sequences joined are the two rank sequences joined. */
  lemma RanksAppend(calls: seq<Call>, more: seq<Call>)
    ensures Ranks(calls + more) == Ranks(calls) + Ranks(more)
  {
  }

  /** From any phase, the calls made are those of the stages up to the first that fails. */
  lemma {:induction false} DriveCalls(s: State, d: Driver)
    requires Ready(s) && !s.phase.Terminal()
    ensures Ranks(Drive(s, d).calls) == Ranks(s.calls) + CallRanksFrom(d, s.phase.Rank())
    decreases 8 - s.phase.Rank()
  {
    var t, k := Next(s, d), s.phase.Rank();
    DriveStep(s, d);
    NextOutcome(s, d);
    assert Ranks(t.calls) == Ranks(s.calls) + StageCallRanks(d, k) by {
      NextCalls(s, d);
      assert t.calls == s.calls + t.calls[|s.calls|..];
      RanksAppend(s.calls, t.calls[|s.calls|..]);
    }
    if !t.phase.Terminal() {
      DriveCalls(t, d);
      AppendAssoc(Ranks(s.calls), StageCallRanks(d, k), CallRanksFrom(d, k + 1));
    } else {
      assert CallRanksFrom(d, k) == StageCallRanks(d, k);
    }
  }

  /** One stage appends the calls it makes to those made before. */
  lemma NextCalls(s: State, d: Driver)
    requires Ready(s) && !s.phase.Terminal()
    ensures |s.calls| <= |Next(s, d).calls| && Next(s, d).calls[..|s.calls|] == s.calls
    ensures Ranks(Next(s, d).calls[|s.calls|..]) == StageCallRanks(d, s.phase.Rank())
  {
  }

  /** The ranks of the calls of the whole bring-up, from the driver alone. */
  lemma RunCalls(d: Driver)
    ensures Ranks(Run(d).calls) == CallRanksFrom(d, 0)
  {
    DriveCalls(Start, d);
  }

  /** The calls from the `k`-th stage on rise strictly and start at that stage's floor. */
  lemma {:induction false} CallRanksIncrease(d: Driver, k: nat)
    requires k <= |Stages|
    ensures forall i :: 0 <= i < |CallRanksFrom(d, k)| ==> StageFloor(k) <= CallRanksFrom(d, k)[i] < 9
    ensures forall i, j :: 0 <= i < j < |CallRanksFrom(d, k)| ==> CallRanksFrom(d, k)[i] < CallRanksFrom(d, k)[j]
    decreases |Stages| - k
  {
    if k < |Stages| && StageSucceeds(d, Stages[k]) {
      CallRanksIncrease(d, k + 1);
    }
  }

  /** The calls are made in the order of the text of `main`, so each at most once. */
  lemma CallsInSourceOrder(d: Driver)
    ensures InSourceOrder(Run(d).calls)
  {
    RunCalls(d);
    CallRanksIncrease(d, 0);
  }

  /** The index in `Stages` of the stage that makes the call of rank `r`. */
  function StageIndex(r: nat): nat
  {
    if r <= 5 then r else r - 1
  }

  /**
   * Whether `main` gets as far as the call of rank `r`: every earlier stage
   * succeeded, and for the pixmap surface the window surface failed.
   */
  predicate Attempted(d: Driver, r: nat)
    requires r < 9
  {
    && (forall j :: 0 <= j < StageIndex(r) ==> StageSucceeds(d, Stages[j]))
    && (r == 6 ==> d.createWindowSurface.Err?)
  }

  /** When the call of rank `r` is among those made from the `k`-th stage on. */
  lemma {:induction false} CallRanksFromContains(d: Driver, k: nat, r: nat)
    requires k <= |Stages| && r < 9
    ensures r in CallRanksFrom(d, k) <==>
      && StageFloor(k) <= r
      && (forall j :: k <= j < StageIndex(r) ==> StageSucceeds(d, Stages[j]))
      && (r == 6 ==> d.createWindowSurface.Err?)
    decreases |Stages| - k
  {
    if k < |Stages| {
      CallRanksFromContains(d, k + 1, r);
    }
  }

  /** A call is made exactly when `main` gets as far as it. */
  lemma CallMadeIff(d: Driver, r: nat)
    requires r < 9
    ensures (exists i :: 0 <= i < |Run(d).calls| && Run(d).calls[i].Rank() == r) <==> Attempted(d, r)
  {
    RunCalls(d);
    CallRanksFromContains(d, 0, r);
    var ranks := Ranks(Run(d).calls);
    if r in ranks {
      var i :| 0 <= i < |ranks| && ranks[i] == r;
      assert Run(d).calls[i].Rank() == r;
    }
  }

  /** From any phase, a failure ends with the diagnostic of the last call made. */
  lemma {:induction false} DriveLogsFailure(s: State, d: Driver)
    requires Ready(s) && !s.phase.Terminal()
    ensures var r := Drive(s, d);
      r.phase.Failed? ==>
        && |r.calls| > 0 && |r.log| > 0
        && r.log[|r.log| - 1] == Diagnostic(r.calls[|r.calls| - 1], r.phase.error)
        && (r.phase.error.Some? ==> r.locals.error == r.phase.error.value)
    decreases 8 - s.phase.Rank()
  {
    var t := Next(s, d);
    DriveStep(s, d);
    if !t.phase.Terminal() {
      DriveLogsFailure(t, d);
    }
  }

  /**
   * A failed bring-up ends with a diagnostic naming the last call made and
   * the code it reported, and leaves that code in `error`.
   */
  lemma FailureIsLogged(d: Driver)
    ensures var r := Run(d);
      r.phase.Failed? ==>
        && |r.calls| > 0 && |r.log| > 0
        && r.log[|r.log| - 1] == Diagnostic(r.calls[|r.calls| - 1], r.phase.error)
        && (r.phase.error.Some? ==> r.locals.error == r.phase.error.value)
  {
    DriveLogsFailure(Start, d);
  }

  /** Every call of the bring-up succeeds, the surface stage by one of its two calls. */
  predicate AllSucceed(d: Driver)
  {
    && d.getDisplay.Some? && d.initialize.Ok? && d.bindApi.Ok? && d.getConfigs.Ok?
    && d.chooseConfig.Ok? && (d.createWindowSurface.Ok? || d.createPixmapSurface.Ok?)
    && d.createContext.Ok? && d.makeCurrent.Ok?
  }

  /** `AllSucceed` is every stage succeeding, spelled out answer by answer. */
  lemma AllSucceedIff(d: Driver)
    ensures AllSucceed(d) <==> forall stage :: StageSucceeds(d, stage)
  {
    if !AllSucceed(d) {
      var failing :| failing in Stages && !StageSucceeds(d, failing);
    }
  }

  /** The surface a successful bring-up is bound to. */
  function BoundSurface(d: Driver): Surface
    requires d.createWindowSurface.Ok? || d.createPixmapSurface.Ok?
  {
    if d.createWindowSurface.Ok? then d.createWindowSurface.value else d.createPixmapSurface.value
  }

  /**
   * The whole state of a successful bring-up: the locals hold the handles
   * and versions returned, `numConfigs` holds the count from
   * `eglChooseConfig` (overwriting the one from `eglGetConfigs`), the context
   * is created with no share context and client version 2 and made current
   * with the one surface for drawing and reading, and the only diagnostic is
   * the window surface's failure, when it failed.
   */
  lemma SuccessfulBringUp(d: Driver)
    requires AllSucceed(d)
    ensures var display, config := d.getDisplay.value, d.chooseConfig.value.config;
      var surface, context := BoundSurface(d), d.createContext.value;
      var window := EglCreateWindowSurface(display, config);
      Run(d) == State(
        Current(SurfaceBacking(d)),
        Locals(Some(display), d.initialize.value.major, d.initialize.value.minor,
               if d.createWindowSurface.Ok? then 0 else d.createWindowSurface.error,
               d.chooseConfig.value.numConfigs, Some(config), Some(surface), Some(context)),
        [EglGetDisplay, EglInitialize(display), EglBindApi, EglGetConfigs(display), EglChooseConfig(display)]
          + (if d.createWindowSurface.Ok? then [window] else [window, EglCreatePixmapSurface(display, config)])
          + [EglCreateContext(display, config, None, ClientVersion), EglMakeCurrent(display, surface, surface, context)],
        if d.createWindowSurface.Ok? then [] else [Diagnostic(window, Some(d.createWindowSurface.error))])
  {
    var display, config := d.getDisplay.value, d.chooseConfig.value.config;
    var v, n := d.initialize.value, d.getConfigs.value;
    var early := [EglGetDisplay, EglInitialize(display), EglBindApi, EglGetConfigs(display), EglChooseConfig(display)];
    var l := InitialLocals.(display := Some(display), major := v.major, minor := v.minor, numConfigs := n);
    var s0 := Start;
    var s1 := Next(s0, d);
    DriveStep(s0, d);
    var s2 := Next(s1, d);
    DriveStep(s1, d);
    var s3 := Next(s2, d);
    DriveStep(s2, d);
    var s4 := Next(s3, d);
    DriveStep(s3, d);
    assert s4 == State(ConfigsQueried, l, early[..4], []);
    var s5 := Next(s4, d);
    DriveStep(s4, d);
    l := l.(config := Some(config), numConfigs := d.chooseConfig.value.numConfigs);
    assert s5 == State(ConfigChosen, l, early, []);
    var s6 := Next(s5, d);
    DriveStep(s5, d);
    var s7 := Next(s6, d);
    DriveStep(s6, d);
    var s8 := Next(s7, d);
    DriveStep(s7, d);
  }

  /**
   * A configuration list with no match is not noticed: the program looks
   * only at the result of `eglChooseConfig`, so with every call succeeding
   * the bring-up is current with `numConfigs` zero.
   */
  lemma NoMatchingConfigGoesUnnoticed(d: Driver)
    requires AllSucceed(d)
    requires d.chooseConfig.value.numConfigs == 0
    ensures Run(d).phase.Current? && Run(d).locals.numConfigs == 0
  {
    SuccessfulBringUp(d);
  }

  /**
   * When `eglMakeCurrent` is the only call to fail, with EGL_BAD_CURRENT_SURFACE,
   * the bring-up fails at that stage and the last diagnostic gives that
   * code's sentence.
   */
  lemma BadCurrentSurfaceIsReported(d: Driver)
    requires forall j :: 0 <= j < Order(MakeCurrent) ==> StageSucceeds(d, Stages[j])
    requires d.makeCurrent == Err(Value(BadCurrentSurface))
    ensures Run(d).phase == Failed(MakeCurrent, Some(0x3007))
    ensures |Run(d).log| > 0 && Run(d).log[|Run(d).log| - 1].Reason() == Message(BadCurrentSurface)
  {
    assert Run(d).phase == Failed(MakeCurrent, Some(0x3007)) by {
      RunOutcome(d);
      assert FirstFailure(d, 0) == Some(MakeCurrent);
    }
    FailureIsLogged(d);
    ErrorStringOfKnownCode(BadCurrentSurface);
  }
}
