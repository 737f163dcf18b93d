/**
 * The gesture classifier of main.js as a state machine over values: the
 * `last` record (main.js:83-87), the two timer slots (main.js:193-194) and
 * the log of device writes. `UpEvent` and `OnData` follow the statements of
 * `upEvent` (main.js:196-214) and `onData` (main.js:216-242) in order;
 * `FireDown` and `FireUp` are the two timer callbacks (main.js:219-221,
 * 201-204) run by the environment while their slot is occupied.
 */
module Gesture {
  import opened Wrappers
  import opened Channels
  import opened Timers
  import opened Numbers

  /** The normalized adapter settings the classifier reads. */
  datatype Config = Config(keyUpTimeout: int, mappings: map<string, string>)

  /**
   * `data`, `cnt`, `keyup` are the fields of `last`; `downTimer` is the
   * key-up debounce, `upTimer` the single/double window; `log` is every
   * `dev.set` so far, oldest first.
   */
  datatype Machine = Machine(
    data: string,
    cnt: nat,
    keyup: string,
    downTimer: Option<Pending>,
    upTimer: Option<Pending>,
    log: seq<Write>)

  /** The state at start-up: `last = {data: '', cnt: 0, keyup: ''}`, no timer pending, nothing written. */
  const Initial := Machine("", 0, "", None, None, [])

  /** A release of `code` completes a double click: no long press yet and the previous release was of the same code. */
  predicate IsDouble(m: Machine, code: string)
  {
    m.cnt <= 2 && m.keyup == code
  }

  /**
   * `upEvent(code)`: the key `code` is taken to be released. The writes are
   * `action = code.up`, then a double when the previous release was of the
   * same code; the window timer is (re)started for `code` unless a long press
   * was seen, and cancelled again on a double.
   */
  function UpEvent(m: Machine, cfg: Config, code: string): (r: Machine)
    ensures code == "" ==> r == m
    ensures code != "" ==> r.data == "" && r.cnt == 0 && r.downTimer == None
    ensures code != "" ==> r.log == m.log + Set(cfg.mappings, Action, code, ".up")
                                    + (if IsDouble(m, code) then SetDsl(cfg.mappings, Double, code) else [])
    ensures code != "" && IsDouble(m, code) ==> r.keyup == "" && r.upTimer == None
    ensures code != "" && !IsDouble(m, code) ==> r.keyup == code
    ensures code != "" && !IsDouble(m, code) && m.cnt <= 2 ==> r.upTimer == Some(Pending(code, cfg.keyUpTimeout * 2))
    ensures code != "" && m.cnt > 2 ==> r.upTimer == m.upTimer
  {
    if code == "" then m
    else
      var m1 := m.(downTimer := None);
      var m2 := m1.(log := m1.log + Set(cfg.mappings, Action, code, ".up"));
      var m3 := if m2.cnt <= 2 then m2.(upTimer := Some(Pending(code, cfg.keyUpTimeout * 2))) else m2;
      var m4 := if m3.cnt <= 2 && m3.keyup == code
                then
                  var c := m3.(upTimer := None);
                  var d := c.(log := c.log + SetDsl(cfg.mappings, Double, c.keyup));
                  d.(keyup := "")
                else m3.(keyup := code);
      m4.(data := "", cnt := 0)
  }

  /**
   * `onData(sample)`: one report from the device. The debounce timer is
   * restarted first; a sample equal to `last.data` counts as a repeat (a
   * long press on the count reaching 3), any other sample releases the old
   * code and presses the new one; the action and, from a count of 2 on, the
   * repeat count are written last.
   */
  function OnData(m: Machine, cfg: Config, sample: string): (r: Machine)
    ensures |m.log| < |r.log| && r.log[..|m.log|] == m.log
    // A repeat: the count goes up by exactly one; reaching 3 cancels the window.
    ensures m.data == sample ==> r.data == sample && r.cnt == m.cnt + 1 && r.keyup == m.keyup
    ensures m.data == sample ==> r.upTimer == (if r.cnt == 3 then None else m.upTimer)
    ensures m.data == sample || m.data == "" ==>
      r.downTimer == if cfg.keyUpTimeout != 0 then Some(Pending(sample, cfg.keyUpTimeout)) else m.downTimer
    // A new key while another is held: the old key is released, which also
    // cancels the debounce timer just scheduled for the new key.
    ensures m.data != sample ==> r.data == sample
    ensures m.data != sample && m.data != "" ==>
      r.cnt == 0 && r.downTimer == None
      && r.keyup == (if IsDouble(m, m.data) then "" else m.data)
      && r.upTimer == (if IsDouble(m, m.data) then None
                       else if m.cnt <= 2 then Some(Pending(m.data, cfg.keyUpTimeout * 2)) else m.upTimer)
    // A new key from idle: nothing to release.
    ensures m.data != sample && m.data == "" ==> r.cnt == m.cnt && r.keyup == m.keyup && r.upTimer == m.upTimer
  {
    var m1 := if cfg.keyUpTimeout != 0 then m.(downTimer := Some(Pending(sample, cfg.keyUpTimeout))) else m;
    if m1.data == sample then Report(Repeat(m1, cfg, sample), cfg, sample, ".repeat")
    else Report(Press(m1, cfg, sample), cfg, sample, ".down")
  }

  /** The repeat branch of `onData`: the count goes up, and on reaching 3 the window is cancelled and a long press written. */
  function Repeat(m: Machine, cfg: Config, sample: string): (r: Machine)
    ensures r.(log := m.log, cnt := m.cnt, upTimer := m.upTimer) == m
    ensures r.cnt == m.cnt + 1 && r.upTimer == (if r.cnt == 3 then None else m.upTimer)
    ensures |m.log| <= |r.log| && r.log[..|m.log|] == m.log
  {
    var c := m.(cnt := m.cnt + 1);
    if c.cnt == 3 then
      var d := c.(upTimer := None);
      d.(log := d.log + SetDsl(cfg.mappings, Long, sample))
    else c
  }

  /** The new-key branch of `onData`: release the old code, write the new one to the base channel, remember it. */
  function Press(m: Machine, cfg: Config, sample: string): (r: Machine)
    ensures r.data == sample
    ensures m.data == "" ==> r.(log := m.log, data := m.data) == m
    ensures m.data != "" ==> r.(log := m.log, data := m.data) == UpEvent(m, cfg, m.data).(log := m.log, data := m.data)
    ensures |m.log| <= |r.log| && r.log[..|m.log|] == m.log
  {
    var u := UpEvent(m, cfg, m.data);
    var w := u.(log := u.log + Set(cfg.mappings, Wo, sample, ""));
    w.(data := sample)
  }

  /** The last writes of `onData`: the action with its suffix, and the repeat count from 2 on. */
  function Report(m: Machine, cfg: Config, sample: string, ext: string): (r: Machine)
    ensures r.(log := m.log) == m
    ensures |m.log| < |r.log| && r.log[..|m.log|] == m.log
  {
    var m3 := m.(log := m.log + Set(cfg.mappings, Action, sample, ext));
    if m3.cnt > 1 then m3.(log := m3.log + Set(cfg.mappings, Repcnt, sample, "." + DecimalString(m3.cnt)))
    else m3
  }

  /**
   * The writes of a repeat: a long press first when the count reaches 3,
   * then `action = sample.repeat`, then the repeat count from 2 on.
   */
  lemma RepeatWrites(m: Machine, cfg: Config, sample: string)
    requires m.data == sample
    ensures var r := OnData(m, cfg, sample);
      r.log == m.log + (if r.cnt == 3 then SetDsl(cfg.mappings, Long, sample) else [])
                     + Set(cfg.mappings, Action, sample, ".repeat")
                     + (if r.cnt > 1 then Set(cfg.mappings, Repcnt, sample, "." + DecimalString(r.cnt)) else [])
  {
  }

  /**
   * The writes of a new key while another is held, in this order: the
   * release of the old key (its up action, then a double if it completes
   * one), the new code on the base channel, then `action = sample.down`.
   */
  lemma KeyChangeWrites(m: Machine, cfg: Config, sample: string)
    requires m.data != sample && m.data != ""
    ensures OnData(m, cfg, sample).log
      == m.log + Set(cfg.mappings, Action, m.data, ".up")
               + (if IsDouble(m, m.data) then SetDsl(cfg.mappings, Double, m.data) else [])
               + Set(cfg.mappings, Wo, sample, "")
               + Set(cfg.mappings, Action, sample, ".down")
  {
  }

  /** The writes of a new key from idle: the base channel, `action = sample.down`, and the count if above 1. */
  lemma PressWrites(m: Machine, cfg: Config, sample: string)
    requires m.data != sample && m.data == ""
    ensures var r := OnData(m, cfg, sample);
      r.log == m.log + Set(cfg.mappings, Wo, sample, "") + Set(cfg.mappings, Action, sample, ".down")
                     + (if r.cnt > 1 then Set(cfg.mappings, Repcnt, sample, "." + DecimalString(r.cnt)) else [])
  {
  }

  /** The debounce timer fires: its slot empties, then `upEvent` runs on the captured sample. */
  function FireDown(m: Machine, cfg: Config): (r: Machine)
    requires m.downTimer.Some?
    ensures r.downTimer == None
    ensures m.downTimer.value.arg == "" ==> r == m.(downTimer := None)
    ensures m.downTimer.value.arg != "" ==>
      r.data == "" && r.cnt == 0
      && r.log == m.log + Set(cfg.mappings, Action, m.downTimer.value.arg, ".up")
                        + (if IsDouble(m, m.downTimer.value.arg)
                           then SetDsl(cfg.mappings, Double, m.downTimer.value.arg) else [])
    ensures m.downTimer.value.arg != "" ==>
      var code := m.downTimer.value.arg;
      && r.keyup == (if IsDouble(m, code) then "" else code)
      && r.upTimer == (if IsDouble(m, code) then None
                       else if m.cnt <= 2 then Some(Pending(code, cfg.keyUpTimeout * 2)) else m.upTimer)
  {
    UpEvent(m.(downTimer := None), cfg, m.downTimer.value.arg)
  }

  /**
   * The window timer fires: its slot empties, a single is written for the
   * captured code only if no long press is counted at this moment, and
   * `keyup` is cleared either way.
   */
  function FireUp(m: Machine, cfg: Config): (r: Machine)
    requires m.upTimer.Some?
    ensures r.upTimer == None && r.keyup == ""
    ensures r.data == m.data && r.cnt == m.cnt && r.downTimer == m.downTimer
    ensures r.log == m.log + (if m.cnt <= 2 then SetDsl(cfg.mappings, Single, m.upTimer.value.arg) else [])
  {
    var arg := m.upTimer.value.arg;
    var m1 := m.(upTimer := None);
    var m2 := if m1.cnt <= 2 then m1.(log := m1.log + SetDsl(cfg.mappings, Single, arg)) else m1;
    m2.(keyup := "")
  }

  /** What can happen next: a report arrives, or one of the two pending callbacks runs. */
  datatype Event = Sample(code: string) | DownTimerFires | UpTimerFires

  /** One event; a timer with an empty slot has nothing to run. */
  function Step(m: Machine, cfg: Config, e: Event): (r: Machine)
    ensures |m.log| <= |r.log| && r.log[..|m.log|] == m.log
  {
    match e
    case Sample(c) => OnData(m, cfg, c)
    case DownTimerFires => if m.downTimer.Some? then FireDown(m, cfg) else m
    case UpTimerFires => if m.upTimer.Some? then FireUp(m, cfg) else m
  }

  /** A sequence of events, in order. The log only ever grows at its end. */
  function Run(m: Machine, cfg: Config, events: seq<Event>): (r: Machine)
    ensures |m.log| <= |r.log| && r.log[..|m.log|] == m.log
    decreases |events|
  {
    if events == [] then m else Run(Step(m, cfg, events[0]), cfg, events[1..])
  }
}
