/** The push button: a debounced press/release detector on the active-low
    button pin, sampled every 20 ms against the millisecond tick count, and
    the classification of each press by how long it was held.

    The pin level and the uint32 millisecond time of each sample are
    inputs; the logger operations a press triggers are those of the
    DataLogger model. */
module ButtonTask {

  import opened Esp
  import opened LogFormat
  import opened DataLogger

  const ButtonGpioPin := 7
  const DebounceMs := 50
  const ShortPressMs := 200
  const LongPressMs := 3000
  const RebootPressMs := 15000

  /** How a press is treated once it is released. */
  datatype PressKind = TooShort | Short | Long

  /** The duration thresholds: under 200 ms nothing, up to 3 s a short
      press, from 3 s a long one. */
  function Classify(duration: uint32): (k: PressKind)
    ensures k == TooShort <==> duration < ShortPressMs
    ensures k == Short <==> ShortPressMs <= duration < LongPressMs
    ensures k == Long <==> duration >= LongPressMs
  {
    if duration >= ShortPressMs && duration < LongPressMs then Short
    else if duration >= LongPressMs then Long
    else TooShort
  }

  /** button_pressed, button_press_time, button_debounce_active and
      last_button_time. */
  datatype ButtonState = ButtonState(pressed: bool, pressTime: uint32, debounceActive: bool, lastTime: uint32)

  const Boot := ButtonState(false, 0, false, 0)

  /** What one sample did: nothing, an accepted press, or an accepted
      release of the given kind, which also restarts the chip when held for
      15 s or more. */
  datatype Event = Idle | Pressed | Released(kind: PressKind, restart: bool)

  /** One iteration of button_task. The pin reads 0 while the button is
      held; a change is only taken when more than 50 ms (in wrapping uint32
      arithmetic) have passed since the last accepted change. */
  function ButtonStep(s: ButtonState, level: int, now: uint32): (r: (ButtonState, Event))
    ensures var accepted := (level == 0) != s.pressed && Sub32(now, s.lastTime) > DebounceMs;
      (!accepted ==> r == (s, Idle)) &&
      (accepted ==> r.0.pressed == (level == 0) && r.0.lastTime == now)
    ensures r.1 == Pressed <==> r.0 != s && r.0.pressed
    ensures r.0 != s && r.0.pressed ==> r.0.pressTime == now && !r.0.debounceActive
    ensures r.0 != s && !r.0.pressed ==>
      r.0.pressTime == s.pressTime && r.0.debounceActive == s.debounceActive &&
      r.1 == (if s.debounceActive then Idle
              else Released(Classify(Sub32(now, s.pressTime)), Sub32(now, s.pressTime) >= RebootPressMs))
  {
    var current := level == 0;
    if current == s.pressed || Sub32(now, s.lastTime) <= DebounceMs then (s, Idle)
    else if current then (s.(pressed := true, lastTime := now, pressTime := now, debounceActive := false), Pressed)
    else
      var s' := s.(pressed := false, lastTime := now);
      if s.debounceActive then (s', Idle)
      else
        var duration := Sub32(now, s.pressTime);
        (s', Released(Classify(duration), duration >= RebootPressMs))
  }

  /** What a released press does to the logger: a short press flips the
      logging switch, a long one turns logging off and starts a new session
      file. */
  function PressEffect(ls: LoggerState, ev: Event, sdAvailable: bool, switchNow: Tm, now: Tm,
                       lockTaken: bool, switchOpened: bool, openOk: bool): (r: LoggerState)
    ensures !ev.Released? || ev.kind == TooShort ==> r == ls
    ensures ev.Released? && ev.kind == Short ==> r == ls.(enabled := !ls.enabled)
    ensures ev.Released? && ev.kind == Long ==>
      !r.enabled && r == NewLogFile(ls.(enabled := false), sdAvailable, switchNow, now, lockTaken, switchOpened, openOk).0
  {
    if !ev.Released? then ls
    else match ev.kind
      case TooShort => ls
      case Short => ls.(enabled := !ls.enabled)
      case Long => NewLogFile(ls.(enabled := false), sdAvailable, switchNow, now, lockTaken, switchOpened, openOk).0
  }

  /** The button over a run of samples (level, time). */
  function Run(s: ButtonState, samples: seq<(int, uint32)>): ButtonState
    decreases |samples|
  {
    if samples == [] then s
    else Run(ButtonStep(s, samples[0].0, samples[0].1).0, samples[1..])
  }

  // --------------------------------------------------------------- lemmas

  /** A restart only follows a long press. */
  lemma RestartIsLong(s: ButtonState, level: int, now: uint32)
    ensures var ev := ButtonStep(s, level, now).1;
      ev.Released? && ev.restart ==> ev.kind == Long
  {
  }

  /** button_debounce_active is cleared on every press and never set, so
      every accepted release is classified, however long the run. */
  lemma {:induction false} NeverDebounceActive(s: ButtonState, samples: seq<(int, uint32)>)
    requires !s.debounceActive
    ensures !Run(s, samples).debounceActive
    decreases |samples|
  {
    if samples != [] {
      NeverDebounceActive(ButtonStep(s, samples[0].0, samples[0].1).0, samples[1..]);
    }
  }

  /** A release that is accepted while debounce is inactive is always
      classified by the time since the accepted press. */
  lemma ReleaseClassified(s: ButtonState, now: uint32)
    requires s.pressed && !s.debounceActive && Sub32(now, s.lastTime) > DebounceMs
    ensures ButtonStep(s, 1, now).1 == Released(Classify(Sub32(now, s.pressTime)), Sub32(now, s.pressTime) >= RebootPressMs)
  {
  }

  /** A press and its release, both accepted: the release reports the time
      between the two samples, and the button ends up released. */
  lemma PressThenRelease(s: ButtonState, t1: uint32, t2: uint32)
    requires !s.pressed && !s.debounceActive
    requires Sub32(t1, s.lastTime) > DebounceMs && Sub32(t2, t1) > DebounceMs
    ensures var (p, e1) := ButtonStep(s, 0, t1);
      var (q, e2) := ButtonStep(p, 1, t2);
      e1 == Pressed && !q.pressed && q.lastTime == t2 &&
      e2 == Released(Classify(Sub32(t2, t1)), Sub32(t2, t1) >= RebootPressMs)
  {
    var p := ButtonStep(s, 0, t1).0;
    assert p.pressed && p.pressTime == t1 && p.lastTime == t1 && !p.debounceActive;
  }

  /** A change within 50 ms of the last accepted one is ignored, also when
      the millisecond counter wrapped in between. */
  lemma BounceIgnored(s: ButtonState, level: int, now: uint32)
    requires Sub32(now, s.lastTime) <= DebounceMs
    ensures ButtonStep(s, level, now) == (s, Idle)
  {
  }

  /** Example of the wrap: 48 ms across the uint32 boundary is a bounce. */
  lemma BounceAcrossWrap()
    ensures ButtonStep(ButtonState(false, 0, false, 0xFFFF_FFF0), 0, 0x20) == (ButtonState(false, 0, false, 0xFFFF_FFF0), Idle)
  {
    assert Sub32(0x20, 0xFFFF_FFF0) == 0x30;
  }

  /** A short press toggles logging exactly once: two short presses put the
      switch back where it was. */
  lemma ShortPressesToggle(ls: LoggerState, sd: bool, t1: Tm, t2: Tm, a: bool, b: bool, c: bool, r1: bool, r2: bool)
    ensures var once := PressEffect(ls, Released(Short, r1), sd, t1, t2, a, b, c);
      once.enabled == !ls.enabled &&
      PressEffect(once, Released(Short, r2), sd, t1, t2, a, b, c) == ls
  {
  }

  /** The button reports the debounced state: a level change that is not
      accepted leaves it as it was. */
  lemma PressedIsDebounced(s: ButtonState, level: int, now: uint32)
    ensures ButtonStep(s, level, now).0.pressed != s.pressed ==>
      (level == 0) != s.pressed && Sub32(now, s.lastTime) > DebounceMs
  {
  }

  // --------------------------------------------------------------- the task

  /** The statics of button_task.c and the logger its presses act on. */
  class Button {
    var pressed: bool
    var pressTime: uint32
    var debounceActive: bool
    var lastTime: uint32
    const logger: Logger

    function State(): ButtonState
      reads this
    {
      ButtonState(pressed, pressTime, debounceActive, lastTime)
    }

    constructor (logger: Logger)
      ensures this.logger == logger && State() == Boot
    {
      this.logger := logger;
      pressed := false;
      pressTime := 0;
      debounceActive := false;
      lastTime := 0;
    }

    /** One iteration of the polling loop. `switchWall`, `wall`,
        `lockTaken`, `switchOpened` and `openOk` feed create_new_log_file on
        a long press; `restart` reports that esp_restart was called. */
    method Poll(level: int, now: uint32, switchWall: Tm, wall: Tm, lockTaken: bool, switchOpened: bool, openOk: bool)
      returns (restart: bool)
      modifies this, logger, logger.sd`present
      ensures State() == ButtonStep(old(State()), level, now).0
      ensures var ev := ButtonStep(old(State()), level, now).1;
        restart == (ev.Released? && ev.restart) &&
        logger.State() == PressEffect(old(logger.State()), ev, old(logger.sd.available), switchWall, wall, lockTaken, switchOpened, openOk) &&
        logger.sd.State() == Polled(old(logger.sd.State()), ev.Released? && ev.kind == Long && old(logger.mutex) && lockTaken)
    {
      restart := false;
      var current := level == 0;
      if current == pressed || Sub32(now, lastTime) <= DebounceMs {
        return;
      }
      pressed := current;
      lastTime := now;
      if pressed {
        pressTime := now;
        debounceActive := false;
        return;
      }
      if debounceActive {
        return;
      }
      var duration := Sub32(now, pressTime);
      var kind := Classify(duration);
      if kind == Short {
        var on := logger.IsLoggingEnabled();
        logger.SetLoggingEnabled(!on);
      } else if kind == Long {
        logger.SetLoggingEnabled(false);
        var _ := logger.CreateNewLogFile(switchWall, wall, lockTaken, switchOpened, openOk);
      }
      restart := duration >= RebootPressMs;
    }

    /** is_button_pressed: the debounced state, not the raw pin. */
    function IsButtonPressed(): (down: bool)
      reads this
      ensures down <==> State().pressed
    {
      pressed
    }
  }
}
