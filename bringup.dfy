/**
 * The EGL bring-up sequence of `main` in moving-triangle-x11.cpp: get the
 * default display, initialise it, bind the OpenGL ES API, query and choose a
 * frame buffer configuration, create a window surface (falling back to a
 * pixmap surface), create a context and make it current.
 *
 * The EGL library is foreign code. Its answers are an input, a `Driver`,
 * that says for each call whether it succeeds (and with which out-values)
 * or fails (and which code `eglGetError` then returns). Each call is made at
 * most once, so one answer per call is enough.
 *
 * The sequence is given twice: as the state machine `Next`/`Run` over the
 * phases of the bring-up, and as the method `BringUp`, which follows the
 * straight-line code of `main` with its locals and early returns and is
 * proved to end in the state the machine reaches.
 */
module Bringup {
  import opened Wrappers
  import opened EglErrors

  /** Opaque EGL handles. A null handle (`EGL_NO_SURFACE`, ...) is `None`. */
  datatype Display = Display(id: nat)
  datatype Config = Config(id: nat)
  datatype Surface = Surface(id: nat)
  datatype Context = Context(id: nat)

  /** The answer of one EGL call: its out-values, or the code `eglGetError` reports. */
  datatype Outcome<+T> = Ok(value: T) | Err(error: Int32)

  /** What `eglInitialize` writes through `&major`, `&minor`. */
  datatype Version = Version(major: Int32, minor: Int32)

  /**
   * What `eglChooseConfig` writes through `&config` and `&numConfigs`. The
   * count may be zero: the program looks only at the boolean result. With a
   * zero count nothing is written through `&config`, and `config` then stands
   * for whatever the uninitialised local holds.
   */
  datatype Chosen = Chosen(config: Config, numConfigs: Int32)

  /** The answers of the EGL implementation to the calls `main` makes. */
  datatype Driver = Driver(
    getDisplay: Option<Display>,  // eglGetDisplay(EGL_DEFAULT_DISPLAY); None is EGL_NO_DISPLAY
    initialize: Outcome<Version>,
    bindApi: Outcome<()>,
    getConfigs: Outcome<Int32>,  // the number of configs written through &numConfigs
    chooseConfig: Outcome<Chosen>,
    createWindowSurface: Outcome<Surface>,
    createPixmapSurface: Outcome<Surface>,
    createContext: Outcome<Context>,
    makeCurrent: Outcome<()>)

  /** The client version requested in the context attribute list. */
  const ClientVersion: Int32 := 2

  /** An EGL call as `main` makes it, with the handles it passes. */
  datatype Call =
    | EglGetDisplay
    | EglInitialize(display: Display)
    | EglBindApi  // always with EGL_OPENGL_ES_API
    | EglGetConfigs(display: Display)
    | EglChooseConfig(display: Display)
    | EglCreateWindowSurface(display: Display, config: Config)
    | EglCreatePixmapSurface(display: Display, config: Config)
    | EglCreateContext(display: Display, config: Config, shareContext: Option<Context>, clientVersion: Int32)
    | EglMakeCurrent(display: Display, draw: Surface, read: Surface, context: Context)
  {
    /** The position of the call in the text of `main`. */
    function Rank(): nat
    {
      match this
      case EglGetDisplay => 0
      case EglInitialize(_) => 1
      case EglBindApi => 2
      case EglGetConfigs(_) => 3
      case EglChooseConfig(_) => 4
      case EglCreateWindowSurface(_, _) => 5
      case EglCreatePixmapSurface(_, _) => 6
      case EglCreateContext(_, _, _, _) => 7
      case EglMakeCurrent(_, _, _, _) => 8
    }
  }

  /** The eight stages of the bring-up, each ending the program when it fails. */
  datatype Stage =
    | AcquireDisplay | Initialize | BindApi | QueryConfigs
    | ChooseConfig | CreateSurface | CreateContext | MakeCurrent

  /** The stages in the order `main` runs them. */
  const Stages: seq<Stage> :=
    [AcquireDisplay, Initialize, BindApi, QueryConfigs, ChooseConfig, CreateSurface, CreateContext, MakeCurrent]

  function Order(stage: Stage): (k: nat)
    ensures k < |Stages| && Stages[k] == stage
  {
    match stage
    case AcquireDisplay => 0
    case Initialize => 1
    case BindApi => 2
    case QueryConfigs => 3
    case ChooseConfig => 4
    case CreateSurface => 5
    case CreateContext => 6
    case MakeCurrent => 7
  }

  /** What the surface of a successful bring-up is bound to. */
  datatype Backing = Window | Pixmap

  /**
   * The phases of the bring-up. `Failed` records the stage that failed and
   * the code read from `eglGetError` (none when no display was returned, for
   * which the program reads no code).
   */
  datatype Phase =
    | Uninitialized
    | DisplayAcquired
    | Initialized
    | ApiBound
    | ConfigsQueried
    | ConfigChosen
    | SurfaceBound(backing: Backing)
    | ContextCreated(backing: Backing)
    | Current(backing: Backing)
    | Failed(stage: Stage, error: Option<Int32>)
  {
    predicate Terminal()
    {
      Current? || Failed?
    }

    /** How many stages have succeeded; a terminal phase counts as the end. */
    function Rank(): nat
    {
      match this
      case Uninitialized => 0
      case DisplayAcquired => 1
      case Initialized => 2
      case ApiBound => 3
      case ConfigsQueried => 4
      case ConfigChosen => 5
      case SurfaceBound(_) => 6
      case ContextCreated(_) => 7
      case Current(_) => 8
      case Failed(_, _) => 8
    }
  }

  /** The locals of `main`; an uninitialised or null handle is `None`. */
  datatype Locals = Locals(
    display: Option<Display>,
    major: Int32,
    minor: Int32,
    error: Int32,
    numConfigs: Int32,
    config: Option<Config>,
    surface: Option<Surface>,
    context: Option<Context>)

  const InitialLocals := Locals(None, 0, 0, 0, 0, None, None, None)

  /**
   * One diagnostic line written to stderr: the call that failed and the code
   * read from `eglGetError` (none for `eglGetDisplay`).
   */
  datatype Diagnostic = Diagnostic(call: Call, error: Option<Int32>)
  {
    /** The sentence printed after the call's name. */
    function Reason(): string
    {
      match error
      case Some(code) => ErrorString(code)
      case None => ""
    }
  }

  /** A point of the bring-up: the phase, the locals and what has been observed so far. */
  datatype State = State(phase: Phase, locals: Locals, calls: seq<Call>, log: seq<Diagnostic>)

  const Start := State(Uninitialized, InitialLocals, [], [])

  /** The handles a phase relies on have been assigned. */
  predicate Ready(s: State)
  {
    var l := s.locals;
    match s.phase
    case Uninitialized => true
    case DisplayAcquired | Initialized | ApiBound | ConfigsQueried => l.display.Some?
    case ConfigChosen => l.display.Some? && l.config.Some?
    case SurfaceBound(_) => l.display.Some? && l.config.Some? && l.surface.Some?
    case ContextCreated(_) | Current(_) =>
      l.display.Some? && l.config.Some? && l.surface.Some? && l.context.Some?
    case Failed(_, _) => true
  }

  /** The calls of `calls` are in the order of the text of `main`, each at most once. */
  predicate InSourceOrder(calls: seq<Call>)
  {
    forall i, j :: 0 <= i < j < |calls| ==> calls[i].Rank() < calls[j].Rank()
  }

  /** A failing call ends the bring-up: it is logged and `error` holds its code. */
  function Abort(s: State, stage: Stage, call: Call, error: Int32): State
  {
    State(Failed(stage, Some(error)), s.locals.(error := error),
          s.calls + [call], s.log + [Diagnostic(call, Some(error))])
  }

  /** One stage of the bring-up: the calls it makes and the phase it leads to. */
  function Next(s: State, d: Driver): (t: State)
    requires Ready(s) && !s.phase.Terminal()
    ensures Ready(t)
    ensures t.phase.Rank() > s.phase.Rank()
  {
    var l := s.locals;
    match s.phase
    case Uninitialized =>
      (match d.getDisplay
       case None =>
         State(Failed(AcquireDisplay, None), l.(display := None),
               s.calls + [EglGetDisplay], s.log + [Diagnostic(EglGetDisplay, None)])
       case Some(display) =>
         State(DisplayAcquired, l.(display := Some(display)), s.calls + [EglGetDisplay], s.log))
    case DisplayAcquired =>
      var call := EglInitialize(l.display.value);
      (match d.initialize
       case Err(e) => Abort(s, Initialize, call, e)
       case Ok(v) => State(Initialized, l.(major := v.major, minor := v.minor), s.calls + [call], s.log))
    case Initialized =>
      (match d.bindApi
       case Err(e) => Abort(s, BindApi, EglBindApi, e)
       case Ok(_) => State(ApiBound, l, s.calls + [EglBindApi], s.log))
    case ApiBound =>
      var call := EglGetConfigs(l.display.value);
      (match d.getConfigs
       case Err(e) => Abort(s, QueryConfigs, call, e)
       case Ok(n) => State(ConfigsQueried, l.(numConfigs := n), s.calls + [call], s.log))
    case ConfigsQueried =>
      var call := EglChooseConfig(l.display.value);
      (match d.chooseConfig
       case Err(e) => Abort(s, ChooseConfig, call, e)
       case Ok(c) =>
         State(ConfigChosen, l.(config := Some(c.config), numConfigs := c.numConfigs), s.calls + [call], s.log))
    case ConfigChosen =>
      var window := EglCreateWindowSurface(l.display.value, l.config.value);
      (match d.createWindowSurface
       case Ok(surface) => State(SurfaceBound(Window), l.(surface := Some(surface)), s.calls + [window], s.log)
       case Err(e) =>
         // The window failure is logged, then the pixmap surface is tried once.
         var fallback := State(ConfigChosen, l.(surface := None, error := e),
                               s.calls + [window], s.log + [Diagnostic(window, Some(e))]);
         var pixmap := EglCreatePixmapSurface(l.display.value, l.config.value);
         (match d.createPixmapSurface
          case Err(e') => Abort(fallback, CreateSurface, pixmap, e')
          case Ok(surface) =>
            State(SurfaceBound(Pixmap), fallback.locals.(surface := Some(surface)),
                  fallback.calls + [pixmap], fallback.log)))
    case SurfaceBound(backing) =>
      var call := EglCreateContext(l.display.value, l.config.value, None, ClientVersion);
      (match d.createContext
       case Err(e) => Abort(s, CreateContext, call, e)
       case Ok(context) => State(ContextCreated(backing), l.(context := Some(context)), s.calls + [call], s.log))
    case ContextCreated(backing) =>
      var call := EglMakeCurrent(l.display.value, l.surface.value, l.surface.value, l.context.value);
      (match d.makeCurrent
       case Err(e) => Abort(s, MakeCurrent, call, e)
       case Ok(_) => State(Current(backing), l, s.calls + [call], s.log))
  }

  /** Runs the stages from `s` until the bring-up is current or has failed. */
  function Drive(s: State, d: Driver): (r: State)
    requires Ready(s)
    ensures Ready(r) && r.phase.Terminal()
    decreases 8 - s.phase.Rank()
  {
    if s.phase.Terminal() then s else Drive(Next(s, d), d)
  }

  /** One step of `Drive`, unfolded once. */
  lemma DriveStep(s: State, d: Driver)
    requires Ready(s) && !s.phase.Terminal()
    ensures Drive(s, d) == Drive(Next(s, d), d)
  {
  }

  /** The whole bring-up, from the first call on: it always ends current or failed. */
  function Run(d: Driver): (r: State)
    ensures Ready(r) && r.phase.Terminal()
  {
    Drive(Start, d)
  }

  /** How `main` ends: `return -1`, or the endless idle loop after a successful bring-up. */
  datatype Exit = Returned(code: int) | Idles

  /**
   * `main` up to its idle loop, with its locals, in the order of its text.
   * Every failing call returns -1 at once; only the window surface has a
   * fallback.
   */
  method BringUp(d: Driver) returns (exit: Exit, final: State)
    ensures final == Run(d)
    ensures exit == if final.phase.Failed? then Returned(-1) else Idles
  {
    var display: Option<Display> := None;
    var major: Int32, minor: Int32, error: Int32, numConfigs: Int32 := 0, 0, 0, 0;
    var config: Option<Config> := None;
    var surface: Option<Surface> := None;
    var context: Option<Context> := None;
    var calls: seq<Call> := [];
    var log: seq<Diagnostic> := [];
    // The machine state `main` has reached so far, with Run(d) == Drive(reached, d).
    ghost var reached := Start;

    display := d.getDisplay;
    calls := calls + [EglGetDisplay];
    if display.None? {
      log := log + [Diagnostic(EglGetDisplay, None)];
      final := State(Failed(AcquireDisplay, None),
                     Locals(display, major, minor, error, numConfigs, config, surface, context), calls, log);
      DriveStep(reached, d);
      assert final == Next(reached, d);
      return Returned(-1), final;
    }
    DriveStep(reached, d);
    reached := Next(reached, d);

    var call := EglInitialize(display.value);
    calls := calls + [call];
    if d.initialize.Err? {
      error := d.initialize.error;
      log := log + [Diagnostic(call, Some(error))];
      final := State(Failed(Initialize, Some(error)),
                     Locals(display, major, minor, error, numConfigs, config, surface, context), calls, log);
      DriveStep(reached, d);
      assert final == Next(reached, d);
      return Returned(-1), final;
    }
    major, minor := d.initialize.value.major, d.initialize.value.minor;
    DriveStep(reached, d);
    reached := Next(reached, d);

    calls := calls + [EglBindApi];
    if d.bindApi.Err? {
      error := d.bindApi.error;
      log := log + [Diagnostic(EglBindApi, Some(error))];
      final := State(Failed(BindApi, Some(error)),
                     Locals(display, major, minor, error, numConfigs, config, surface, context), calls, log);
      DriveStep(reached, d);
      assert final == Next(reached, d);
      return Returned(-1), final;
    }
    DriveStep(reached, d);
    reached := Next(reached, d);

    call := EglGetConfigs(display.value);
    calls := calls + [call];
    if d.getConfigs.Err? {
      error := d.getConfigs.error;
      log := log + [Diagnostic(call, Some(error))];
      final := State(Failed(QueryConfigs, Some(error)),
                     Locals(display, major, minor, error, numConfigs, config, surface, context), calls, log);
      DriveStep(reached, d);
      assert final == Next(reached, d);
      return Returned(-1), final;
    }
    numConfigs := d.getConfigs.value;
    DriveStep(reached, d);
    reached := Next(reached, d);

    call := EglChooseConfig(display.value);
    calls := calls + [call];
    if d.chooseConfig.Err? {
      error := d.chooseConfig.error;
      log := log + [Diagnostic(call, Some(error))];
      final := State(Failed(ChooseConfig, Some(error)),
                     Locals(display, major, minor, error, numConfigs, config, surface, context), calls, log);
      DriveStep(reached, d);
      assert final == Next(reached, d);
      return Returned(-1), final;
    }
    config, numConfigs := Some(d.chooseConfig.value.config), d.chooseConfig.value.numConfigs;
    DriveStep(reached, d);
    reached := Next(reached, d);

    var backing := Window;
    call := EglCreateWindowSurface(display.value, config.value);
    calls := calls + [call];
    surface := if d.createWindowSurface.Ok? then Some(d.createWindowSurface.value) else None;
    if surface.None? {
      error := d.createWindowSurface.error;
      log := log + [Diagnostic(call, Some(error))];

      call := EglCreatePixmapSurface(display.value, config.value);
      calls := calls + [call];
      surface := if d.createPixmapSurface.Ok? then Some(d.createPixmapSurface.value) else None;
      if surface.None? {
        error := d.createPixmapSurface.error;
        log := log + [Diagnostic(call, Some(error))];
        final := State(Failed(CreateSurface, Some(error)),
                       Locals(display, major, minor, error, numConfigs, config, surface, context), calls, log);
        DriveStep(reached, d);
      assert final == Next(reached, d);
        return Returned(-1), final;
      }
      backing := Pixmap;
    }
    DriveStep(reached, d);
    reached := Next(reached, d);

    call := EglCreateContext(display.value, config.value, None, ClientVersion);
    calls := calls + [call];
    if d.createContext.Err? {
      error := d.createContext.error;
      log := log + [Diagnostic(call, Some(error))];
      final := State(Failed(CreateContext, Some(error)),
                     Locals(display, major, minor, error, numConfigs, config, surface, context), calls, log);
      DriveStep(reached, d);
      assert final == Next(reached, d);
      return Returned(-1), final;
    }
    context := Some(d.createContext.value);
    DriveStep(reached, d);
    reached := Next(reached, d);

    call := EglMakeCurrent(display.value, surface.value, surface.value, context.value);
    calls := calls + [call];
    if d.makeCurrent.Err? {
      error := d.makeCurrent.error;
      log := log + [Diagnostic(call, Some(error))];
      final := State(Failed(MakeCurrent, Some(error)),
                     Locals(display, major, minor, error, numConfigs, config, surface, context), calls, log);
      DriveStep(reached, d);
      assert final == Next(reached, d);
      return Returned(-1), final;
    }
    final := State(Current(backing),
                   Locals(display, major, minor, error, numConfigs, config, surface, context), calls, log);
    DriveStep(reached, d);
    assert final == Next(reached, d);
    exit := Idles;
  }
}
