/**
 The raw-input speed switcher of Program.cs: every WM_INPUT notification is
 resolved to a device path, the path is mapped to one of two configured pointer
 speeds, and the speed is written to the system when it differs from the last one
 written and at least MIN_SWITCH_MS milliseconds have passed since the last write.

 The milliseconds read from the process stopwatch are a parameter (`now`); the
 SystemParametersInfo(SPI_SETMOUSESPEED) write is recorded in a ghost log.
 */
module Switching {
  import opened Text
  import opened RawInput

  const MIN_SWITCH_MS: int := 200
  const MIN_SPEED: int := 1
  const MAX_SPEED: int := 20
  /** The initial value of _lastSpeed, and the target speed of an unknown device. */
  const NO_SPEED: int := -1

  /** The configurable statics: the two device paths and their speeds. */
  datatype Config = Config(x8DevicePath: string, mouseDevicePath: string, x8Speed: int, mouseSpeed: int)

  /** The values the source ships with. The paths are written in three pieces (the HID
      prefix, the vendor/product/instance part and the device interface class GUID). */
  const SourceConfig := Config(
    HID_PREFIX + X8_INSTANCE + MOUSE_INTERFACE_SUFFIX,
    HID_PREFIX + MOUSE_INSTANCE + MOUSE_INTERFACE_SUFFIX,
    20,
    10)

  const HID_PREFIX := @"\\?\HID#VID_"
  const X8_INSTANCE := @"1997&PID_2433&MI_01&Col01#9&354159c2&0&0000"
  const MOUSE_INSTANCE := @"046D&PID_C539&MI_01&Col01#8&10c9e4b2&0&0000"
  const MOUSE_INTERFACE_SUFFIX := @"#{378de44c-56ef-11d1-bc8c-00a0c91405dd}"

  /** The switching state: _lastSpeed and _lastSwitchMs. */
  datatype EngineState = EngineState(lastSpeed: int, lastSwitchMs: int)

  const Initial := EngineState(NO_SPEED, 0)

  function Distance(a: int, b: int): nat
  {
    if a <= b then b - a else a - b
  }

  /** The speed SetMouseSpeed hands to the system: the nearest value in [1, 20]. */
  function ClampSpeed(speed: int): (r: int)
    ensures MIN_SPEED <= r <= MAX_SPEED
    ensures MIN_SPEED <= speed <= MAX_SPEED ==> r == speed
    ensures forall v | MIN_SPEED <= v <= MAX_SPEED :: Distance(r, speed) <= Distance(v, speed)
  {
    if speed < MIN_SPEED then MIN_SPEED else if speed > MAX_SPEED then MAX_SPEED else speed
  }

  /** The speed configured for a device path; the X8 path is compared first. */
  function TargetSpeed(cfg: Config, devicePath: string): (r: int)
    ensures r == cfg.x8Speed || r == cfg.mouseSpeed || r == NO_SPEED
  {
    if EqualsIgnoreCase(devicePath, cfg.x8DevicePath) then cfg.x8Speed
    else if EqualsIgnoreCase(devicePath, cfg.mouseDevicePath) then cfg.mouseSpeed
    else NO_SPEED
  }

  /** A path equal (ignoring case) to both configured paths gets the X8 speed. */
  lemma X8PathComparedFirst(cfg: Config, devicePath: string)
    requires EqualsIgnoreCase(devicePath, cfg.x8DevicePath)
    ensures TargetSpeed(cfg, devicePath) == cfg.x8Speed
  {
  }

  /** A path equal (ignoring case) to the ordinary mouse's path but not to the X8 path
      gets the mouse speed. */
  lemma MousePathGetsMouseSpeed(cfg: Config, devicePath: string)
    requires !EqualsIgnoreCase(devicePath, cfg.x8DevicePath)
    requires EqualsIgnoreCase(devicePath, cfg.mouseDevicePath)
    ensures TargetSpeed(cfg, devicePath) == cfg.mouseSpeed
  {
  }

  /** Paths that differ only in letter case get the same speed. */
  lemma {:induction false} TargetSpeedIgnoresCase(cfg: Config, p: string, q: string)
    requires EqualsIgnoreCase(p, q)
    ensures TargetSpeed(cfg, p) == TargetSpeed(cfg, q)
  {
    EqualsIgnoreCaseSymmetric(p, q);
    if EqualsIgnoreCase(p, cfg.x8DevicePath) {
      EqualsIgnoreCaseTransitive(q, p, cfg.x8DevicePath);
    } else if EqualsIgnoreCase(q, cfg.x8DevicePath) {
      EqualsIgnoreCaseTransitive(p, q, cfg.x8DevicePath);
    } else if EqualsIgnoreCase(p, cfg.mouseDevicePath) {
      EqualsIgnoreCaseTransitive(q, p, cfg.mouseDevicePath);
    } else if EqualsIgnoreCase(q, cfg.mouseDevicePath) {
      EqualsIgnoreCaseTransitive(p, q, cfg.mouseDevicePath);
    }
  }

  /** Why HandleRawInput stopped, or the speed it switched to. */
  datatype Verdict =
    | Unread(read: MotionRead)  // size query, fetch, header type or motion check failed
    | NoDevicePath              // GetDeviceName gave the empty string
    | NotConfigured             // one of the configured paths is empty
    | UnknownDevice             // the target speed is negative
    | Debounced(target: int)    // same speed as last time, or too soon after the last switch
    | Switch(speed: int)

  /** The decision HandleRawInput takes for one notification. */
  function Classify(cfg: Config, st: EngineState, m: RawInputMessage, now: int): (v: Verdict)
    ensures v.Switch? ==> v.speed != st.lastSpeed && now - st.lastSwitchMs >= MIN_SWITCH_MS
    ensures v.Switch? ==> 0 <= v.speed && (v.speed == cfg.x8Speed || v.speed == cfg.mouseSpeed)
  {
    match ReadMotion(m)
    case Motion(device) =>
      var devicePath := GetDeviceName(device);
      if devicePath == [] then NoDevicePath
      else if cfg.x8DevicePath == [] || cfg.mouseDevicePath == [] then NotConfigured
      else
        var target := TargetSpeed(cfg, devicePath);
        if target < 0 then UnknownDevice
        else if target != st.lastSpeed && now - st.lastSwitchMs >= MIN_SWITCH_MS then Switch(target)
        else Debounced(target)
    case read => Unread(read)
  }

  /** The state after one notification. */
  function Next(cfg: Config, st: EngineState, m: RawInputMessage, now: int): EngineState
  {
    match Classify(cfg, st, m, now)
    case Switch(speed) => EngineState(speed, now)
    case _ => st
  }

  /** The speeds written to the system for one notification (none or one). */
  function Written(cfg: Config, st: EngineState, m: RawInputMessage, now: int): seq<int>
  {
    match Classify(cfg, st, m, now)
    case Switch(speed) => [ClampSpeed(speed)]
    case _ => []
  }

  /** One notification, stated through the device path the capture window would report:
      a write happens exactly when the path is known, the speed is new and the
      interval has passed; the write and the new state carry the target speed. */
  lemma {:induction false} WriteExactlyWhen(cfg: Config, st: EngineState, m: RawInputMessage, now: int)
    ensures var path := GetDeviceNameFromMessage(m);
      var target := TargetSpeed(cfg, path);
      var writes :=
        && path != []
        && cfg.x8DevicePath != [] && cfg.mouseDevicePath != []
        && target >= 0
        && target != st.lastSpeed
        && now - st.lastSwitchMs >= MIN_SWITCH_MS;
      && (Written(cfg, st, m, now) != [] <==> writes)
      && (writes ==> Written(cfg, st, m, now) == [ClampSpeed(target)] && Next(cfg, st, m, now) == EngineState(target, now))
      && (!writes ==> Written(cfg, st, m, now) == [] && Next(cfg, st, m, now) == st)
  {
    match ReadMotion(m)
    case Motion(device) =>
      assert GetDeviceNameFromMessage(m) == GetDeviceName(device);
    case _ =>
      assert GetDeviceNameFromMessage(m) == [];
  }

  /** A notification that is not a mouse report with a non-zero delta field, has no path, meets an unconfigured
      path or an unknown device changes nothing and writes nothing, at any time. */
  lemma {:induction false} FilteredNotificationIsIgnored(cfg: Config, st: EngineState, m: RawInputMessage, now: int)
    requires
      || !ReadMotion(m).Motion?
      || GetDeviceNameFromMessage(m) == []
      || cfg.x8DevicePath == [] || cfg.mouseDevicePath == []
      || TargetSpeed(cfg, GetDeviceNameFromMessage(m)) < 0
    ensures Next(cfg, st, m, now) == st && Written(cfg, st, m, now) == []
  {
    WriteExactlyWhen(cfg, st, m, now);
  }

  /** A notification from a device matching neither configured path (ignoring case)
      has the target -1: it changes nothing and writes nothing, at any time. */
  lemma {:induction false} UnknownPathIgnored(cfg: Config, st: EngineState, m: RawInputMessage, now: int)
    requires !EqualsIgnoreCase(GetDeviceNameFromMessage(m), cfg.x8DevicePath)
    requires !EqualsIgnoreCase(GetDeviceNameFromMessage(m), cfg.mouseDevicePath)
    ensures TargetSpeed(cfg, GetDeviceNameFromMessage(m)) == NO_SPEED
    ensures Next(cfg, st, m, now) == st && Written(cfg, st, m, now) == []
  {
    WriteExactlyWhen(cfg, st, m, now);
  }

  /** Idempotence: once a speed is applied, a notification resolving to that same speed
      never writes again, however much time has passed. */
  lemma {:induction false} AppliedSpeedNotRewritten(cfg: Config, st: EngineState, m: RawInputMessage, t1: int, t2: int)
    requires Written(cfg, st, m, t1) != []
    ensures Written(cfg, Next(cfg, st, m, t1), m, t2) == []
    ensures Next(cfg, Next(cfg, st, m, t1), m, t2) == Next(cfg, st, m, t1)
  {
    WriteExactlyWhen(cfg, st, m, t1);
    WriteExactlyWhen(cfg, Next(cfg, st, m, t1), m, t2);
  }

  /** From the initial state nothing is written during the first MIN_SWITCH_MS milliseconds. */
  lemma {:induction false} QuietFirstInterval(cfg: Config, m: RawInputMessage, now: int)
    requires now < MIN_SWITCH_MS
    ensures Written(cfg, Initial, m, now) == [] && Next(cfg, Initial, m, now) == Initial
  {
    WriteExactlyWhen(cfg, Initial, m, now);
  }

  /** A window message delivered to WndProc at a given stopwatch reading. */
  datatype Event = Event(msg: nat, message: RawInputMessage, now: int)

  /** WndProc: only WM_INPUT reaches HandleRawInput. */
  function Step(cfg: Config, st: EngineState, e: Event): EngineState
  {
    if e.msg == WM_INPUT then Next(cfg, st, e.message, e.now) else st
  }

  /** The speeds written while WndProc handles one message. */
  function StepWritten(cfg: Config, st: EngineState, e: Event): seq<int>
  {
    if e.msg == WM_INPUT then Written(cfg, st, e.message, e.now) else []
  }

  /** The state after a sequence of messages. */
  function Run(cfg: Config, st: EngineState, evs: seq<Event>): EngineState
    decreases |evs|
  {
    if evs == [] then st else Run(cfg, Step(cfg, st, evs[0]), evs[1..])
  }

  /** Every speed written during a sequence of messages, in order. */
  function RunWritten(cfg: Config, st: EngineState, evs: seq<Event>): seq<int>
    decreases |evs|
  {
    if evs == [] then [] else StepWritten(cfg, st, evs[0]) + RunWritten(cfg, Step(cfg, st, evs[0]), evs[1..])
  }

  /** The state right after each switch, in order: the speed switched to and when. */
  function Switches(cfg: Config, st: EngineState, evs: seq<Event>): seq<EngineState>
    decreases |evs|
  {
    if evs == [] then []
    else
      var st' := Step(cfg, st, evs[0]);
      (if StepWritten(cfg, st, evs[0]) != [] then [st'] else []) + Switches(cfg, st', evs[1..])
  }

  lemma {:induction false} StepCases(cfg: Config, st: EngineState, e: Event)
    ensures StepWritten(cfg, st, e) == [] ==> Step(cfg, st, e) == st
    ensures StepWritten(cfg, st, e) != [] ==>
      && e.msg == WM_INPUT
      && Classify(cfg, st, e.message, e.now).Switch?
      && Step(cfg, st, e) == EngineState(Classify(cfg, st, e.message, e.now).speed, e.now)
      && StepWritten(cfg, st, e) == [ClampSpeed(Step(cfg, st, e).lastSpeed)]
  {
  }

  /** Each switch in `sw` is at least MIN_SWITCH_MS after, and at a different speed
      from, the one before it. */
  ghost predicate SpacedAndDistinct(sw: seq<EngineState>)
  {
    forall k | 0 <= k < |sw| - 1 ::
      && sw[k + 1].lastSwitchMs - sw[k].lastSwitchMs >= MIN_SWITCH_MS
      && sw[k + 1].lastSpeed != sw[k].lastSpeed
  }

  lemma SpacedAndDistinctCons(st: EngineState, tail: seq<EngineState>)
    requires SpacedAndDistinct(tail)
    requires tail != [] ==> tail[0].lastSwitchMs - st.lastSwitchMs >= MIN_SWITCH_MS && tail[0].lastSpeed != st.lastSpeed
    ensures SpacedAndDistinct([st] + tail)
  {
    var sw := [st] + tail;
    forall k | 0 <= k < |sw| - 1
      ensures sw[k + 1].lastSwitchMs - sw[k].lastSwitchMs >= MIN_SWITCH_MS
      ensures sw[k + 1].lastSpeed != sw[k].lastSpeed
    {
      if k > 0 {
        assert sw[k] == tail[k - 1] && sw[k + 1] == tail[k];
      }
    }
  }

  /** Consecutive switches are at least MIN_SWITCH_MS apart and always change the
      speed; the first is measured against the starting state. Device changes are
      debounced like any other change. */
  lemma {:induction false} SwitchesAreSpacedAndDistinct(cfg: Config, st: EngineState, evs: seq<Event>)
    ensures SpacedAndDistinct([st] + Switches(cfg, st, evs))
    decreases |evs|
  {
    if evs == [] {
      SpacedAndDistinctCons(st, []);
    } else {
      var st' := Step(cfg, st, evs[0]);
      StepCases(cfg, st, evs[0]);
      SwitchesAreSpacedAndDistinct(cfg, st', evs[1..]);
      var rest := Switches(cfg, st', evs[1..]);
      if StepWritten(cfg, st, evs[0]) != [] {
        SpacedAndDistinctCons(st, [st'] + rest);
        assert Switches(cfg, st, evs) == [st'] + rest;
      } else {
        assert st' == st;
        assert Switches(cfg, st, evs) == rest;
      }
    }
  }

  /** The log of written speeds is the clamped speed of each switch, in order. */
  lemma {:induction false} RunWrittenMatchesSwitches(cfg: Config, st: EngineState, evs: seq<Event>)
    ensures |RunWritten(cfg, st, evs)| == |Switches(cfg, st, evs)|
    ensures forall k | 0 <= k < |Switches(cfg, st, evs)| ::
      RunWritten(cfg, st, evs)[k] == ClampSpeed(Switches(cfg, st, evs)[k].lastSpeed)
    decreases |evs|
  {
    if evs != [] {
      var st' := Step(cfg, st, evs[0]);
      StepCases(cfg, st, evs[0]);
      RunWrittenMatchesSwitches(cfg, st', evs[1..]);
      var rest := Switches(cfg, st', evs[1..]);
      var restLog := RunWritten(cfg, st', evs[1..]);
      if StepWritten(cfg, st, evs[0]) != [] {
        var w := ClampSpeed(st'.lastSpeed);
        assert Switches(cfg, st, evs) == [st'] + rest;
        assert RunWritten(cfg, st, evs) == [w] + restLog;
        forall k | 0 <= k < |rest| + 1
          ensures ([w] + restLog)[k] == ClampSpeed(([st'] + rest)[k].lastSpeed)
        {
          if k > 0 {
            assert ([w] + restLog)[k] == restLog[k - 1];
            assert ([st'] + rest)[k] == rest[k - 1];
          }
        }
      } else {
        assert Switches(cfg, st, evs) == rest;
        assert RunWritten(cfg, st, evs) == restLog;
      }
    }
  }

  /** The state after a run is the state after its last switch, or the starting state
      when nothing switched. */
  lemma {:induction false} RunEndsAtLastSwitch(cfg: Config, st: EngineState, evs: seq<Event>)
    ensures Run(cfg, st, evs) == ([st] + Switches(cfg, st, evs))[|Switches(cfg, st, evs)|]
    decreases |evs|
  {
    if evs != [] {
      var st' := Step(cfg, st, evs[0]);
      StepCases(cfg, st, evs[0]);
      RunEndsAtLastSwitch(cfg, st', evs[1..]);
      var rest := Switches(cfg, st', evs[1..]);
      if StepWritten(cfg, st, evs[0]) != [] {
        assert Switches(cfg, st, evs) == [st'] + rest;
        assert ([st] + ([st'] + rest))[|rest| + 1] == ([st'] + rest)[|rest|];
      } else {
        assert Switches(cfg, st, evs) == rest;
      }
    }
  }

  /** Starting from a state whose speed is unset or configured, the speed stays unset
      or configured: every write comes from the configuration. */
  lemma {:induction false} SpeedStaysConfigured(cfg: Config, st: EngineState, evs: seq<Event>)
    requires st.lastSpeed in {NO_SPEED, cfg.x8Speed, cfg.mouseSpeed}
    ensures Run(cfg, st, evs).lastSpeed in {NO_SPEED, cfg.x8Speed, cfg.mouseSpeed}
    ensures forall w | w in RunWritten(cfg, st, evs) :: w == ClampSpeed(cfg.x8Speed) || w == ClampSpeed(cfg.mouseSpeed)
    decreases |evs|
  {
    if evs != [] {
      StepCases(cfg, st, evs[0]);
      SpeedStaysConfigured(cfg, Step(cfg, st, evs[0]), evs[1..]);
    }
  }

  /** From the initial state, messages that all arrive before MIN_SWITCH_MS write
      nothing and leave the state initial. */
  lemma {:induction false} QuietStart(cfg: Config, evs: seq<Event>)
    requires forall k | 0 <= k < |evs| :: evs[k].now < MIN_SWITCH_MS
    ensures Run(cfg, Initial, evs) == Initial && RunWritten(cfg, Initial, evs) == []
    decreases |evs|
  {
    if evs != [] {
      if evs[0].msg == WM_INPUT {
        QuietFirstInterval(cfg, evs[0].message, evs[0].now);
      }
      assert forall k | 0 <= k < |evs[1..]| :: evs[1..][k].now < MIN_SWITCH_MS by {
        forall k | 0 <= k < |evs[1..]| ensures evs[1..][k].now < MIN_SWITCH_MS {
          assert evs[1..][k] == evs[k + 1];
        }
      }
      QuietStart(cfg, evs[1..]);
    }
  }

  /** A notification that did not switch is dropped: the rest of the run behaves
      exactly as if it had never arrived (nothing is queued for later). */
  lemma {:induction false} DroppedNotificationForgotten(cfg: Config, st: EngineState, e: Event, rest: seq<Event>)
    requires StepWritten(cfg, st, e) == []
    ensures Run(cfg, st, [e] + rest) == Run(cfg, st, rest)
    ensures RunWritten(cfg, st, [e] + rest) == RunWritten(cfg, st, rest)
  {
    StepCases(cfg, st, e);
    assert ([e] + rest)[1..] == rest;
  }

  lemma RunUnfold(cfg: Config, st: EngineState, evs: seq<Event>)
    requires evs != []
    ensures Run(cfg, st, evs) == Run(cfg, Step(cfg, st, evs[0]), evs[1..])
    ensures RunWritten(cfg, st, evs) == StepWritten(cfg, st, evs[0]) + RunWritten(cfg, Step(cfg, st, evs[0]), evs[1..])
  {
  }

  /** One turn of SpeedSwitcher.MessageLoop keeps its invariant. */
  lemma MessageLoopStep(cfg: Config, st0: EngineState, log0: seq<int>, evs: seq<Event>, i: nat,
                        st: EngineState, log: seq<int>)
    requires i < |evs|
    requires Run(cfg, st, evs[i..]) == Run(cfg, st0, evs)
    requires log + RunWritten(cfg, st, evs[i..]) == log0 + RunWritten(cfg, st0, evs)
    ensures Run(cfg, Step(cfg, st, evs[i]), evs[i + 1..]) == Run(cfg, st0, evs)
    ensures (log + StepWritten(cfg, st, evs[i])) + RunWritten(cfg, Step(cfg, st, evs[i]), evs[i + 1..])
         == log0 + RunWritten(cfg, st0, evs)
  {
    RunUnfold(cfg, st, evs[i..]);
    assert evs[i..][1..] == evs[i + 1..];
    var a, b := StepWritten(cfg, st, evs[i]), RunWritten(cfg, Step(cfg, st, evs[i]), evs[i + 1..]);
    assert (log + a) + b == log + (a + b);
  }

  /** A complete mouse report with a non-zero delta field, from a device whose name query succeeds
      with `path` (any fetch result other than uint.MaxValue is a success). */
  function MotionFrom(path: string): RawInputMessage
  {
    RawInputMessage(48, 48, RIM_TYPEMOUSE, 3, -1, DeviceNameQuery(|path| + 1, 1, path))
  }

  /** Two devices with different speeds: a movement of the X8 device at 0 ms is ignored
      (too early), one at 1000 ms switches to its speed, the other device at 1050 ms is
      ignored (too soon, although the device changed), and the other device at 1300 ms
      switches to its speed. */
  lemma DeviceChangeIsDebounced(cfg: Config)
    requires cfg.x8DevicePath != [] && cfg.mouseDevicePath != []
    requires !EqualsIgnoreCase(cfg.mouseDevicePath, cfg.x8DevicePath)
    requires 0 <= cfg.x8Speed && 0 <= cfg.mouseSpeed && cfg.x8Speed != cfg.mouseSpeed
    ensures
      var x8 := MotionFrom(cfg.x8DevicePath);
      var mouse := MotionFrom(cfg.mouseDevicePath);
      var evs := [Event(WM_INPUT, x8, 0), Event(WM_INPUT, x8, 1000),
                  Event(WM_INPUT, mouse, 1050), Event(WM_INPUT, mouse, 1300)];
      && RunWritten(cfg, Initial, evs) == [ClampSpeed(cfg.x8Speed), ClampSpeed(cfg.mouseSpeed)]
      && Run(cfg, Initial, evs) == EngineState(cfg.mouseSpeed, 1300)
  {
    var x8 := MotionFrom(cfg.x8DevicePath);
    var mouse := MotionFrom(cfg.mouseDevicePath);
    EqualsIgnoreCaseReflexive(cfg.x8DevicePath);
    EqualsIgnoreCaseReflexive(cfg.mouseDevicePath);
    assert GetDeviceNameFromMessage(x8) == cfg.x8DevicePath;
    assert GetDeviceNameFromMessage(mouse) == cfg.mouseDevicePath;
    assert TargetSpeed(cfg, cfg.x8DevicePath) == cfg.x8Speed;
    assert TargetSpeed(cfg, cfg.mouseDevicePath) == cfg.mouseSpeed;
    var st1 := EngineState(cfg.x8Speed, 1000);
    var st2 := EngineState(cfg.mouseSpeed, 1300);
    WriteExactlyWhen(cfg, Initial, x8, 0);
    WriteExactlyWhen(cfg, Initial, x8, 1000);
    WriteExactlyWhen(cfg, st1, mouse, 1050);
    WriteExactlyWhen(cfg, st1, mouse, 1300);
    var evs := [Event(WM_INPUT, x8, 0), Event(WM_INPUT, x8, 1000),
                Event(WM_INPUT, mouse, 1050), Event(WM_INPUT, mouse, 1300)];
    RunUnfold(cfg, Initial, evs);
    RunUnfold(cfg, Initial, evs[1..]);
    RunUnfold(cfg, st1, evs[2..]);
    RunUnfold(cfg, st1, evs[3..]);
    assert evs[1..][1..] == evs[2..] && evs[2..][1..] == evs[3..] && evs[3..][1..] == [];
  }

  /** The two shipped device paths differ (at the first vendor-id digit). */
  lemma SourcePathsDiffer()
    ensures !EqualsIgnoreCase(SourceConfig.mouseDevicePath, SourceConfig.x8DevicePath)
  {
    assert |HID_PREFIX| == 12 && X8_INSTANCE[0] == '1' && MOUSE_INSTANCE[0] == '0';
    assert (HID_PREFIX + X8_INSTANCE)[12] == '1';
    assert (HID_PREFIX + MOUSE_INSTANCE)[12] == '0';
    assert SourceConfig.x8DevicePath[12] == '1';
    assert SourceConfig.mouseDevicePath[12] == '0';
  }

  /** Program's statics and the ghost log of SystemParametersInfo(SPI_SETMOUSESPEED) writes. */
  class SpeedSwitcher {
    const cfg: Config
    var lastSpeed: int
    var lastSwitchMs: int
    ghost var written: seq<int>

    function State(): EngineState
      reads this
    {
      EngineState(lastSpeed, lastSwitchMs)
    }

    constructor (cfg: Config)
      ensures this.cfg == cfg && State() == Initial && written == []
    {
      this.cfg := cfg;
      lastSpeed := NO_SPEED;
      lastSwitchMs := 0;
      written := [];
    }

    /** Clamps to [1, 20], then writes. */
    method SetMouseSpeed(speed: int)
      modifies this`written
      ensures written == old(written) + [ClampSpeed(speed)]
    {
      var s := speed;
      if s < MIN_SPEED { s := MIN_SPEED; }
      if s > MAX_SPEED { s := MAX_SPEED; }
      written := written + [s];
    }

    method HandleRawInput(m: RawInputMessage, now: int)
      modifies this
      ensures State() == Next(cfg, old(State()), m, now)
      ensures written == old(written) + Written(cfg, old(State()), m, now)
    {
      if m.requiredSize == 0 { return; }
      if m.fetchResult != m.requiredSize { return; }
      if m.dwType != RIM_TYPEMOUSE { return; }
      if m.lastX == 0 && m.lastY == 0 { return; }

      var devicePath := GetDeviceName(m.device);
      if devicePath == [] { return; }

      if cfg.x8DevicePath == [] || cfg.mouseDevicePath == [] { return; }

      var targetSpeed :=
        if EqualsIgnoreCase(devicePath, cfg.x8DevicePath) then cfg.x8Speed
        else if EqualsIgnoreCase(devicePath, cfg.mouseDevicePath) then cfg.mouseSpeed
        else NO_SPEED;
      if targetSpeed < 0 { return; }

      if targetSpeed != lastSpeed && now - lastSwitchMs >= MIN_SWITCH_MS {
        SetMouseSpeed(targetSpeed);
        lastSpeed := targetSpeed;
        lastSwitchMs := now;
      }
    }

    /** WndProc: WM_INPUT goes to HandleRawInput, everything else only to DefWindowProc. */
    method WndProc(e: Event)
      modifies this
      ensures State() == Step(cfg, old(State()), e)
      ensures written == old(written) + StepWritten(cfg, old(State()), e)
    {
      if e.msg == WM_INPUT {
        HandleRawInput(e.message, e.now);
      }
    }

    /** The GetMessage/DispatchMessage loop over a given sequence of messages. */
    method MessageLoop(evs: seq<Event>)
      modifies this
      ensures State() == Run(cfg, old(State()), evs)
      ensures written == old(written) + RunWritten(cfg, old(State()), evs)
    {
      ghost var st0, log0 := State(), written;
      var i := 0;
      while i < |evs|
        invariant 0 <= i <= |evs|
        invariant Run(cfg, State(), evs[i..]) == Run(cfg, st0, evs)
        invariant written + RunWritten(cfg, State(), evs[i..]) == log0 + RunWritten(cfg, st0, evs)
      {
        ghost var st, log := State(), written;
        WndProc(evs[i]);
        MessageLoopStep(cfg, st0, log0, evs, i, st, log);
        i := i + 1;
      }
      assert evs[i..] == [];
    }
  }
}
