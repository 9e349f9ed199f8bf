/** The two-way mirror between the time-sync setting and systemd's NTP flag (manager.cpp).

    Both stores are external. The manager learns of their changes by signals and changes them by messages;
    signals and messages are queued, and the stores signal only real changes. */
module NtpMirror {
  import opened Common

  datatype Mode = NTP | Manual

  /** A value of the setting: one of the two mode strings, or a string that names no mode. */
  datatype Setting = NtpSync | ManualSync | Other(text: string)

  function SettingOf(m: Mode): Setting {
    if m.NTP? then NtpSync else ManualSync
  }

  predicate IsNtp(v: Setting) {
    v == NtpSync
  }

  /** What the manager remembers and the messages it has sent: the mode strings for the settings store and the
      flags for systemd. `writes` counts them. */
  datatype Manager = Manager(timeMode: Mode, settingWrites: seq<Setting>, flagWrites: seq<bool>, writes: nat)

  /** The conversion of a string that names no mode throws; the mode is then left as it is. */
  function ModeSet(m: Manager, v: Setting): Manager {
    match v
    case NtpSync => m.(timeMode := NTP)
    case ManualSync => m.(timeMode := Manual)
    case Other(_) => m
  }

  function PropertyChanged(m: Manager, v: Setting, forceSet: bool): Manager {
    if forceSet || IsNtp(v) != m.timeMode.NTP?
    then ModeSet(m.(flagWrites := m.flagWrites + [IsNtp(v)], writes := m.writes + 1), v)
    else m
  }

  function TimedateChanged(m: Manager, ntp: bool): Manager {
    if ntp != m.timeMode.NTP? then
      var v := if ntp then NtpSync else ManualSync;
      ModeSet(m.(settingWrites := m.settingWrites + [v], writes := m.writes + 1), v)
    else m
  }

  /** The manager object; D-Bus writes succeed. */
  class TimeManager {
    var timeMode: Mode
    var settingWrites: seq<Setting>
    var flagWrites: seq<bool>
    ghost var writes: nat

    ghost function Value(): Manager
      reads this
    {
      Manager(timeMode, settingWrites, flagWrites, writes)
    }

    /** Reads the stored setting once and forces it on systemd. */
    constructor (default: Mode, stored: Setting)
      ensures Value() == PropertyChanged(Manager(default, [], [], 0), stored, true)
    {
      timeMode, settingWrites, flagWrites, writes := default, [], [], 0;
      new;
      OnPropertyChanged(stored, true);
    }

    method OnPropertyChanged(value: Setting, forceSet: bool)
      modifies this
      ensures Value() == PropertyChanged(old(Value()), value, forceSet)
    {
      var newNtpMode := value == NtpSync;
      var oldNtpMode := timeMode == NTP;
      if forceSet || newNtpMode != oldNtpMode {
        UpdateNtpSetting(value);
        var changed := SetCurrentTimeMode(value);
      }
    }

    /** The properties that a settings signal carries, one after the other. */
    method OnSettingsChanged(values: seq<Setting>)
      modifies this
      ensures Value() == AllChanged(old(Value()), values)
    {
      for i := 0 to |values|
        invariant Value() == AllChanged(old(Value()), values[..i])
      {
        assert values[..i + 1][..i] == values[..i];
        OnPropertyChanged(values[i], false);
      }
      assert values[..|values|] == values;
    }

    /** A signal without the flag is rejected. */
    method OnTimedateChanged(flag: Option<bool>) returns (rc: int)
      modifies this
      ensures rc == if flag.Some? then 0 else -1
      ensures Value() == if flag.Some? then TimedateChanged(old(Value()), flag.value) else old(Value())
    {
      if flag.None? {
        return -1;
      }
      var newNtpMode := flag.value;
      var oldNtpMode := timeMode == NTP;
      if newNtpMode != oldNtpMode {
        var mode := if newNtpMode then NtpSync else ManualSync;
        settingWrites := settingWrites + [mode];
        writes := writes + 1;
        var changed := SetCurrentTimeMode(mode);
      }
      return 0;
    }

    method UpdateNtpSetting(value: Setting)
      modifies this`flagWrites, this`writes
      ensures flagWrites == old(flagWrites) + [IsNtp(value)] && writes == old(writes) + 1
    {
      flagWrites := flagWrites + [value == NtpSync];
      writes := writes + 1;
    }

    method SetCurrentTimeMode(value: Setting) returns (changed: bool)
      modifies this`timeMode
      ensures Value() == ModeSet(old(Value()), value)
      ensures changed <==> timeMode != old(timeMode)
    {
      if value.Other? {
        return false;
      }
      var newMode := if value == NtpSync then NTP else Manual;
      if newMode != timeMode {
        timeMode := newMode;
        return true;
      }
      return false;
    }
  }

  function AllChanged(m: Manager, values: seq<Setting>): Manager
    decreases |values|
  {
    if values == [] then m
    else PropertyChanged(AllChanged(m, values[..|values|-1]), values[|values|-1], false)
  }

  // ---------------------------------------------------------------- what a settings signal does

  /** The mode held after these values: that of the last one that names a mode. */
  function ModeHeld(mode: Mode, values: seq<Setting>): Mode
    decreases |values|
  {
    if values == [] then mode
    else match values[|values|-1]
         case NtpSync => NTP
         case ManualSync => Manual
         case Other(_) => ModeHeld(mode, values[..|values|-1])
  }

  /** How many of the values differ from the mode held when their turn comes. */
  function Differing(mode: Mode, values: seq<Setting>): nat
    decreases |values|
  {
    if values == [] then 0 else
    var before, last := values[..|values|-1], values[|values|-1];
    Differing(mode, before) + if last.NtpSync? == ModeHeld(mode, before).NTP? then 0 else 1
  }

  /** A signal leaves the manager with the mode of its last value that names one, and with one write of the flag
      for each value that differs from the mode held by then, and none to the setting. */
  lemma {:induction false} SignalExactly(m: Manager, values: seq<Setting>)
    ensures var m' := AllChanged(m, values);
            && m'.timeMode == ModeHeld(m.timeMode, values)
            && m'.writes == m.writes + Differing(m.timeMode, values)
            && |m'.flagWrites| == |m.flagWrites| + Differing(m.timeMode, values)
            && m'.settingWrites == m.settingWrites
    decreases |values|
  {
    if values != [] {
      SignalExactly(m, values[..|values|-1]);
    }
  }

  lemma OneValue(m: Manager, v: Setting)
    ensures AllChanged(m, [v]) == PropertyChanged(m, v, false)
  {
    assert [v][..0] == [] && AllChanged(m, []) == m;
  }

  /** A signal of one value changes nothing if and only if the value agrees with the mode; otherwise the flag is
      written with what the value says. */
  lemma EchoIsIgnored(m: Manager, v: Setting)
    ensures AllChanged(m, [v]) == m <==> (v == NtpSync <==> m.timeMode == NTP)
    ensures AllChanged(m, [v]) != m ==> AllChanged(m, [v]).flagWrites == m.flagWrites + [v == NtpSync]
  {
    OneValue(m, v);
  }

  // ---------------------------------------------------------------- the mirror with its stores

  /** `external` counts the changes made by others; `spoiled` says that one of them stored a string that names
      no mode. */
  datatype World = World(
    manager: Manager,
    setting: Setting,
    flag: bool,
    settingSignals: seq<Setting>,
    flagSignals: seq<bool>,
    external: nat,
    spoiled: nat)

  predicate Quiet(w: World) {
    w.settingSignals == [] && w.flagSignals == [] && w.manager.settingWrites == [] && w.manager.flagWrites == []
  }

  datatype Event =
    | SetSetting(value: Setting)
    | SetFlag(ntp: bool)
    | ApplySettingWrite
    | ApplyFlagWrite
    | DeliverSetting
    | DeliverFlag

  predicate IsExternal(e: Event) {
    e.SetSetting? || e.SetFlag?
  }

  /** Others change a store only when nothing is queued. */
  predicate Enabled(w: World, e: Event) {
    match e
    case SetSetting(_) => Quiet(w)
    case SetFlag(_) => Quiet(w)
    case ApplySettingWrite => w.manager.settingWrites != []
    case ApplyFlagWrite => w.manager.flagWrites != []
    case DeliverSetting => w.settingSignals != []
    case DeliverFlag => w.flagSignals != []
  }

  function StoreSetting(w: World, v: Setting): World {
    if v == w.setting then w else w.(setting := v, settingSignals := w.settingSignals + [v])
  }

  function StoreFlag(w: World, ntp: bool): World {
    if ntp == w.flag then w else w.(flag := ntp, flagSignals := w.flagSignals + [ntp])
  }

  function Next(w: World, e: Event): World
    requires Enabled(w, e)
  {
    match e
    case SetSetting(v) =>
      StoreSetting(w.(external := w.external + 1, spoiled := w.spoiled + if v.Other? then 1 else 0), v)
    case SetFlag(ntp) => StoreFlag(w.(external := w.external + 1), ntp)
    case ApplySettingWrite =>
      StoreSetting(w.(manager := w.manager.(settingWrites := w.manager.settingWrites[1..])), w.manager.settingWrites[0])
    case ApplyFlagWrite =>
      StoreFlag(w.(manager := w.manager.(flagWrites := w.manager.flagWrites[1..])), w.manager.flagWrites[0])
    case DeliverSetting =>
      w.(settingSignals := w.settingSignals[1..], manager := AllChanged(w.manager, [w.settingSignals[0]]))
    case DeliverFlag =>
      w.(flagSignals := w.flagSignals[1..], manager := TimedateChanged(w.manager, w.flagSignals[0]))
  }

  function After(w: World, events: seq<Event>): World
    decreases |events|
  {
    if events == [] then w else
    var before := After(w, events[..|events|-1]);
    if Enabled(before, events[|events|-1]) then Next(before, events[|events|-1]) else before
  }

  predicate IsRun(w: World, events: seq<Event>)
    decreases |events|
  {
    events == [] ||
    (IsRun(w, events[..|events|-1]) && Enabled(After(w, events[..|events|-1]), events[|events|-1]))
  }

  /** The three agree on whether the time comes from NTP. */
  predicate Agrees(w: World) {
    IsNtp(w.setting) == w.flag == w.manager.timeMode.NTP?
  }

  /** At most one message or signal is in flight; what the three values are meanwhile. */
  predicate Settling(w: World) {
    var m, mode := w.manager, w.manager.timeMode.NTP?;
    || (Quiet(w) && Agrees(w))
       // the setting has changed, or echoes a write
    || (w.settingSignals == [w.setting] && m.settingWrites == [] && w.flagSignals == [] && m.flagWrites == []
        && w.flag == mode)
       // the new setting is on its way to systemd
    || (m.flagWrites == [IsNtp(w.setting)] && m.settingWrites == [] && w.settingSignals == [] && w.flagSignals == []
        && if w.setting.Other? then mode ==> w.flag else mode == IsNtp(w.setting))
       // systemd's flag has changed, or echoes a write
    || (w.flagSignals == [w.flag] && m.settingWrites == [] && w.settingSignals == [] && m.flagWrites == []
        && (IsNtp(w.setting) == mode || (w.setting.Other? && !w.flag)))
       // the new flag is on its way to the settings store
    || (m.settingWrites == [SettingOf(m.timeMode)] && m.flagWrites == [] && w.settingSignals == []
        && w.flagSignals == []
        && w.flag == mode)
  }

  /** An upper bound on the deliveries and applications that are left. */
  function StepsLeft(w: World): nat {
    var mode := w.manager.timeMode.NTP?;
    if w.settingSignals != [] then if IsNtp(w.setting) == mode then 1 else if w.setting.Other? then 5 else 3
    else if w.manager.flagWrites != [] then if w.setting.Other? && mode then 4 else 2
    else if w.flagSignals != [] then if w.flag == mode then 1 else 3
    else if w.manager.settingWrites != [] then 2
    else 0
  }

  /** The writes that the manager has still to make for what is in flight. */
  function WritesLeft(w: World): nat {
    var mode := w.manager.timeMode.NTP?;
    if w.settingSignals != [] then if IsNtp(w.setting) == mode then 0 else if w.setting.Other? then 2 else 1
    else if w.manager.flagWrites != [] then if w.setting.Other? && mode then 1 else 0
    else if w.flagSignals != [] then if w.flag == mode then 0 else 1
    else 0
  }

  lemma StepSettles(w: World, e: Event)
    requires Settling(w) && Enabled(w, e)
    ensures var w' := Next(w, e);
            && Settling(w')
            && (!IsExternal(e) ==> StepsLeft(w') < StepsLeft(w))
            && w'.manager.writes + WritesLeft(w') - w'.external - w'.spoiled
               <= w.manager.writes + WritesLeft(w) - w.external - w.spoiled
  {
    if e.DeliverSetting? {
      OneValueDelivered(w);
    }
  }

  /** A signal of one value does what its property does. */
  lemma OneValueDelivered(w: World)
    requires Enabled(w, DeliverSetting)
    ensures Next(w, DeliverSetting) ==
            w.(settingSignals := w.settingSignals[1..],
               manager := PropertyChanged(w.manager, w.settingSignals[0], false))
  {
    OneValue(w.manager, w.settingSignals[0]);
  }

  /** Over every run in which others change a store only when nothing is queued, whatever strings they store:
      every quiet state has the setting, systemd's flag and the manager's mode in agreement, and the manager
      has made no more than one write per change, and one more for each string that names no mode. */
  lemma {:induction false} Convergence(w: World, events: seq<Event>)
    requires Quiet(w) && Agrees(w) && IsRun(w, events)
    ensures var w' := After(w, events);
            && Settling(w')
            && (Quiet(w') ==> Agrees(w') && (w'.setting.Other? || w'.setting == SettingOf(w'.manager.timeMode)))
            && w'.manager.writes + WritesLeft(w') - w.manager.writes
               <= w'.external - w.external + w'.spoiled - w.spoiled
    decreases |events|
  {
    if events != [] {
      var before := events[..|events|-1];
      Convergence(w, before);
      StepSettles(After(w, before), events[|events|-1]);
    }
  }

  /** A change settles: without further changes no run is longer than the steps left, which are at most five. */
  lemma {:induction false} Settles(w: World, events: seq<Event>)
    requires Settling(w) && IsRun(w, events) && forall e :: e in events ==> !IsExternal(e)
    ensures Settling(After(w, events)) && |events| + StepsLeft(After(w, events)) <= StepsLeft(w) <= 5
    ensures StepsLeft(After(w, events)) == 0 <==> Quiet(After(w, events))
    ensures !Quiet(After(w, events)) ==> exists e :: !IsExternal(e) && Enabled(After(w, events), e)
    decreases |events|
  {
    if events != [] {
      var before := events[..|events|-1];
      Settles(w, before);
      StepSettles(After(w, before), events[|events|-1]);
    }
    var w' := After(w, events);
    if !Quiet(w') {
      assert Enabled(w', DeliverSetting) || Enabled(w', DeliverFlag) ||
             Enabled(w', ApplySettingWrite) || Enabled(w', ApplyFlagWrite);
    }
  }

  /** The world in which the manager has just started, with nothing queued before. */
  function Started(default: Mode, stored: Setting, flag: bool): World {
    World(PropertyChanged(Manager(default, [], [], 0), stored, true), stored, flag, [], [], 0, 0)
  }

  /** Starting forces agreement from any state of the stores, unless the stored string names no mode while the
      manager assumes NTP and systemd has it off: then the first quiet state is not in agreement. */
  lemma StartupExactly(default: Mode, stored: Setting, flag: bool)
    ensures Settling(Started(default, stored, flag)) <==> !(stored.Other? && default.NTP? && !flag)
    ensures stored.Other? && default.NTP? && !flag ==>
              var w := Started(default, stored, flag);
              Enabled(w, ApplyFlagWrite) && Quiet(Next(w, ApplyFlagWrite)) && !Agrees(Next(w, ApplyFlagWrite))
  {
    var w := Started(default, stored, flag);
    assert w.manager.flagWrites == [IsNtp(stored)];
    if stored.Other? && default.NTP? && !flag {
      assert Next(w, ApplyFlagWrite).manager.flagWrites == [];
    }
  }

  /** Two changes of the setting in a row are outside the hypothesis: their signals come back as the same two
      signals, four writes later, so that the mirror need not come to rest. */
  lemma OverlappingChangesEcho(writes: nat, external: nat)
    ensures var w := World(Manager(Manual, [], [], writes), ManualSync, false, [NtpSync, ManualSync], [], external, 0);
            var events := [DeliverSetting, DeliverSetting, ApplyFlagWrite, ApplyFlagWrite,
                           DeliverFlag, DeliverFlag, ApplySettingWrite, ApplySettingWrite];
            IsRun(w, events) && After(w, events) == w.(manager := w.manager.(writes := writes + 4))
  {
    var w0 := World(Manager(Manual, [], [], writes), ManualSync, false, [NtpSync, ManualSync], [], external, 0);
    var run, at := SettingsBecomeFlags(w0);
    run, at := FlagsBecomeSettings(w0, run, at);
    assert run == [DeliverSetting, DeliverSetting, ApplyFlagWrite, ApplyFlagWrite,
                   DeliverFlag, DeliverFlag, ApplySettingWrite, ApplySettingWrite];
  }

  lemma SettingsBecomeFlags(w: World) returns (run: seq<Event>, at: World)
    requires w.manager.timeMode.Manual? && w.setting == ManualSync && !w.flag
    requires w.settingSignals == [NtpSync, ManualSync] && w.flagSignals == []
    requires w.manager.settingWrites == [] && w.manager.flagWrites == []
    ensures run == [DeliverSetting, DeliverSetting, ApplyFlagWrite, ApplyFlagWrite]
    ensures IsRun(w, run) && After(w, run) == at
    ensures at == w.(settingSignals := [], flagSignals := [true, false],
                     manager := w.manager.(writes := w.manager.writes + 2))
  {
    run, at := [], w;
    OneValueDelivered(at);
    run, at := Extended(w, run, at, DeliverSetting);
    OneValueDelivered(at);
    run, at := Extended(w, run, at, DeliverSetting);
    assert at.manager.flagWrites == [true, false] && at.settingSignals == [];
    run, at := Extended(w, run, at, ApplyFlagWrite);
    run, at := Extended(w, run, at, ApplyFlagWrite);
    assert at.flagSignals == [true, false] && at.manager.flagWrites == [];
  }

  lemma FlagsBecomeSettings(w: World, events: seq<Event>, before: World) returns (run: seq<Event>, at: World)
    requires IsRun(w, events) && After(w, events) == before
    requires before.manager.timeMode.Manual? && before.setting == ManualSync && !before.flag
    requires before.settingSignals == [] && before.flagSignals == [true, false]
    requires before.manager.settingWrites == [] && before.manager.flagWrites == []
    ensures run == events + [DeliverFlag, DeliverFlag, ApplySettingWrite, ApplySettingWrite]
    ensures IsRun(w, run) && After(w, run) == at
    ensures at == before.(flagSignals := [], settingSignals := [NtpSync, ManualSync],
                          manager := before.manager.(writes := before.manager.writes + 2))
  {
    run, at := Extended(w, events, before, DeliverFlag);
    run, at := Extended(w, run, at, DeliverFlag);
    assert at.manager.settingWrites == [NtpSync, ManualSync] && at.flagSignals == [];
    run, at := Extended(w, run, at, ApplySettingWrite);
    run, at := Extended(w, run, at, ApplySettingWrite);
    assert at.settingSignals == [NtpSync, ManualSync] && at.manager.settingWrites == [];
  }

  /** One more event of a run. */
  lemma Extended(w: World, events: seq<Event>, at: World, e: Event) returns (longer: seq<Event>, next: World)
    requires IsRun(w, events) && After(w, events) == at && Enabled(at, e)
    ensures longer == events + [e] && next == Next(at, e) && IsRun(w, longer) && After(w, longer) == next
  {
    longer, next := events + [e], Next(at, e);
    assert longer[..|events|] == events;
  }
}
