/**
 * Properties of event sequences: runs of identical reports, click
 * scenarios, the timeout switch and the channel names written. Events are
 * reports from the device and the two timer callbacks, in the order the
 * event loop runs them.
 */
module Runs {
  import opened Wrappers
  import opened Channels
  import opened Timers
  import opened Gesture
  import Numbers

  /** `n` identical reports `c`. */
  function Samples(c: string, n: nat): (s: seq<Event>)
    ensures |s| == n
    ensures forall i :: 0 <= i < n ==> s[i] == Sample(c)
  {
    if n == 0 then [] else [Sample(c)] + Samples(c, n - 1)
  }

  /** The three click kinds, by channel suffix. */
  predicate IsClickKind(kind: string)
  {
    kind == Single || kind == Double || kind == Long
  }

  /** How many clicks of `kind` have been reported so far (writes of its raw channel). */
  function Reported(m: Machine, kind: string): nat
  {
    CountTo(m.log, Raw + kind)
  }

  // ------------------------------------------------------------ one step at a time

  /**
   * One report adds a long exactly when a repeat brings the count to 3, and
   * a double exactly when it releases a held key whose release completes a
   * double click; it never adds a single.
   */
  lemma OnDataReported(m: Machine, cfg: Config, sample: string, kind: string)
    requires IsClickKind(kind)
    ensures Reported(OnData(m, cfg, sample), kind) == Reported(m, kind)
      + (if kind == Long && m.data == sample && m.cnt + 1 == 3 then 1 else 0)
      + (if kind == Double && m.data != sample && m.data != "" && IsDouble(m, m.data) then 1 else 0)
  {
    if m.data == sample {
      RepeatReported(m, cfg, sample, kind);
    } else if m.data != "" {
      KeyChangeReported(m, cfg, sample, kind);
    } else {
      PressFromIdleReported(m, cfg, sample, kind);
    }
  }

  lemma RepeatReported(m: Machine, cfg: Config, sample: string, kind: string)
    requires IsClickKind(kind) && m.data == sample
    ensures Reported(OnData(m, cfg, sample), kind)
      == Reported(m, kind) + (if kind == Long && m.cnt + 1 == 3 then 1 else 0)
  {
    var r := OnData(m, cfg, sample);
    RepeatWrites(m, cfg, sample);
    var maps := cfg.mappings;
    var ch := Raw + kind;
    var a := if r.cnt == 3 then SetDsl(maps, Long, sample) else [];
    var b := Set(maps, Action, sample, ".repeat");
    var c := if r.cnt > 1 then Set(maps, Repcnt, sample, "." + Numbers.DecimalString(r.cnt)) else [];
    assert r.log == m.log + a + b + c;
    CountToAppend(m.log + a + b, c, ch);
    CountToAppend(m.log + a, b, ch);
    CountToAppend(m.log, a, ch);
    SetChannels(maps, Action, sample, ".repeat", kind);
    if r.cnt > 1 { SetChannels(maps, Repcnt, sample, "." + Numbers.DecimalString(r.cnt), kind); }
    if r.cnt == 3 { SetDslChannels(maps, Long, sample, kind); }
  }

  lemma KeyChangeReported(m: Machine, cfg: Config, sample: string, kind: string)
    requires IsClickKind(kind) && m.data != sample && m.data != ""
    ensures Reported(OnData(m, cfg, sample), kind)
      == Reported(m, kind) + (if kind == Double && IsDouble(m, m.data) then 1 else 0)
  {
    var r := OnData(m, cfg, sample);
    KeyChangeWrites(m, cfg, sample);
    var maps := cfg.mappings;
    var ch := Raw + kind;
    var a := Set(maps, Action, m.data, ".up");
    var d := if IsDouble(m, m.data) then SetDsl(maps, Double, m.data) else [];
    var b := Set(maps, Wo, sample, "");
    var e := Set(maps, Action, sample, ".down");
    assert r.log == m.log + a + d + b + e;
    CountToAppend(m.log + a + d + b, e, ch);
    CountToAppend(m.log + a + d, b, ch);
    CountToAppend(m.log + a, d, ch);
    CountToAppend(m.log, a, ch);
    SetChannels(maps, Action, m.data, ".up", kind);
    SetChannels(maps, Wo, sample, "", kind);
    SetChannels(maps, Action, sample, ".down", kind);
    if IsDouble(m, m.data) { SetDslChannels(maps, Double, m.data, kind); }
  }

  lemma PressFromIdleReported(m: Machine, cfg: Config, sample: string, kind: string)
    requires IsClickKind(kind) && m.data != sample && m.data == ""
    ensures Reported(OnData(m, cfg, sample), kind) == Reported(m, kind)
  {
    var r := OnData(m, cfg, sample);
    PressWrites(m, cfg, sample);
    var maps := cfg.mappings;
    var ch := Raw + kind;
    var b := Set(maps, Wo, sample, "");
    var e := Set(maps, Action, sample, ".down");
    var c := if r.cnt > 1 then Set(maps, Repcnt, sample, "." + Numbers.DecimalString(r.cnt)) else [];
    assert r.log == m.log + b + e + c;
    CountToAppend(m.log + b + e, c, ch);
    CountToAppend(m.log + b, e, ch);
    CountToAppend(m.log, b, ch);
    SetChannels(maps, Wo, sample, "", kind);
    SetChannels(maps, Action, sample, ".down", kind);
    if r.cnt > 1 { SetChannels(maps, Repcnt, sample, "." + Numbers.DecimalString(r.cnt), kind); }
  }

  /** `upEvent` on a non-empty code adds a double exactly when the release completes one, and nothing else. */
  lemma UpEventReported(m: Machine, cfg: Config, code: string, kind: string)
    requires IsClickKind(kind)
    ensures Reported(UpEvent(m, cfg, code), kind)
      == Reported(m, kind) + (if kind == Double && code != "" && IsDouble(m, code) then 1 else 0)
  {
    if code != "" {
      var maps := cfg.mappings;
      var a := Set(maps, Action, code, ".up");
      var d := if IsDouble(m, code) then SetDsl(maps, Double, code) else [];
      CountToAppend(m.log + a, d, Raw + kind);
      CountToAppend(m.log, a, Raw + kind);
      SetChannels(maps, Action, code, ".up", kind);
      if IsDouble(m, code) { SetDslChannels(maps, Double, code, kind); }
    }
  }

  /** The single-click callback adds a single exactly when the count is at most 2 when it runs. */
  lemma FireUpReported(m: Machine, cfg: Config, kind: string)
    requires IsClickKind(kind) && m.upTimer.Some?
    ensures Reported(FireUp(m, cfg), kind) == Reported(m, kind) + (if kind == Single && m.cnt <= 2 then 1 else 0)
  {
    if m.cnt <= 2 {
      CountToAppend(m.log, SetDsl(cfg.mappings, Single, m.upTimer.value.arg), Raw + kind);
      SetDslChannels(cfg.mappings, Single, m.upTimer.value.arg, kind);
    }
  }

  /** How many clicks of `kind` one event reports. */
  function StepAdds(m: Machine, e: Event, kind: string): nat
  {
    match e
    case Sample(s) =>
      (if kind == Long && m.data == s && m.cnt + 1 == 3 then 1 else 0)
      + (if kind == Double && m.data != s && m.data != "" && IsDouble(m, m.data) then 1 else 0)
    case DownTimerFires =>
      if kind == Double && m.downTimer.Some? && m.downTimer.value.arg != "" && IsDouble(m, m.downTimer.value.arg)
      then 1 else 0
    case UpTimerFires =>
      if kind == Single && m.upTimer.Some? && m.cnt <= 2 then 1 else 0
  }

  /**
   * Where clicks are reported: a long only by a repeat that brings the
   * count to 3, a double only by a release that completes one (through a
   * key change or the debounce callback), a single only by the window
   * callback while the count is at most 2.
   */
  lemma StepReported(m: Machine, cfg: Config, e: Event, kind: string)
    requires IsClickKind(kind)
    ensures Reported(Step(m, cfg, e), kind) == Reported(m, kind) + StepAdds(m, e, kind)
  {
    match e
    case Sample(s) => OnDataReported(m, cfg, s, kind);
    case DownTimerFires =>
      if m.downTimer.Some? {
        UpEventReported(m.(downTimer := None), cfg, m.downTimer.value.arg, kind);
      }
    case UpTimerFires =>
      if m.upTimer.Some? {
        FireUpReported(m, cfg, kind);
      }
  }

  lemma {:induction false} RunAppend(m: Machine, cfg: Config, a: seq<Event>, b: seq<Event>)
    ensures Run(m, cfg, a + b) == Run(Run(m, cfg, a), cfg, b)
    decreases |a|
  {
    if a != [] {
      assert (a + b)[1..] == a[1..] + b;
      RunAppend(Step(m, cfg, a[0]), cfg, a[1..], b);
    } else {
      assert a + b == b;
    }
  }

  // The effect of each kind of event on everything but the log.

  lemma PressStep(m: Machine, cfg: Config, c: string)
    requires m.data == "" && c != ""
    ensures var r := Step(m, cfg, Sample(c));
      r.data == c && r.cnt == m.cnt && r.keyup == m.keyup && r.upTimer == m.upTimer
      && r.downTimer == if cfg.keyUpTimeout != 0 then Some(Pending(c, cfg.keyUpTimeout)) else m.downTimer
  {
  }

  lemma RepeatStep(m: Machine, cfg: Config, c: string)
    requires m.data == c
    ensures var r := Step(m, cfg, Sample(c));
      r.data == c && r.cnt == m.cnt + 1 && r.keyup == m.keyup
      && r.upTimer == (if m.cnt + 1 == 3 then None else m.upTimer)
      && r.downTimer == if cfg.keyUpTimeout != 0 then Some(Pending(c, cfg.keyUpTimeout)) else m.downTimer
  {
  }

  lemma DownFiresStep(m: Machine, cfg: Config)
    requires m.downTimer.Some? && m.downTimer.value.arg != ""
    ensures var code := m.downTimer.value.arg; var r := Step(m, cfg, DownTimerFires);
      r.data == "" && r.cnt == 0 && r.downTimer == None
      && r.keyup == (if IsDouble(m, code) then "" else code)
      && r.upTimer == (if IsDouble(m, code) then None
                       else if m.cnt <= 2 then Some(Pending(code, cfg.keyUpTimeout * 2)) else m.upTimer)
  {
  }

  lemma UpFiresStep(m: Machine, cfg: Config)
    requires m.upTimer.Some?
    ensures var r := Step(m, cfg, UpTimerFires);
      r.data == m.data && r.cnt == m.cnt && r.keyup == "" && r.upTimer == None && r.downTimer == m.downTimer
  {
  }

  lemma RunCons(m: Machine, cfg: Config, e: Event, rest: seq<Event>)
    ensures Run(m, cfg, [e] + rest) == Run(Step(m, cfg, e), cfg, rest)
  {
    assert ([e] + rest)[1..] == rest;
  }

  // ---------------------------------------------------------------- long press

  /** `n` identical reports are the first one followed by the other `n - 1`. */
  lemma RunSamples(m: Machine, cfg: Config, c: string, n: nat)
    requires n > 0
    ensures Run(m, cfg, Samples(c, n)) == Run(Step(m, cfg, Sample(c)), cfg, Samples(c, n - 1))
  {
    assert Samples(c, n) == [Sample(c)] + Samples(c, n - 1);
    RunCons(m, cfg, Sample(c), Samples(c, n - 1));
  }

  /** One repeat raises the count by one and reports a long exactly when the count becomes 3. */
  lemma RepeatStepReported(m: Machine, cfg: Config, c: string, kind: string)
    requires m.data == c && IsClickKind(kind)
    ensures Step(m, cfg, Sample(c)).data == c && Step(m, cfg, Sample(c)).cnt == m.cnt + 1
    ensures Reported(Step(m, cfg, Sample(c)), kind) == Reported(m, kind) + (if kind == Long && m.cnt + 1 == 3 then 1 else 0)
  {
    RepeatStep(m, cfg, c);
    StepReported(m, cfg, Sample(c), kind);
  }

  /**
   * While a key is held (every report equals `last.data`), the count rises
   * by one per report, `keyup` is left alone, and the single/double window
   * is cancelled by the report that brings the count to 3 and not touched
   * after it.
   */
  lemma {:induction false} HeldKey(m: Machine, cfg: Config, c: string, n: nat)
    requires m.data == c
    ensures var r := Run(m, cfg, Samples(c, n));
      r.data == c && r.cnt == m.cnt + n && r.keyup == m.keyup
      && (m.cnt < 3 <= m.cnt + n ==> r.upTimer == None)
      && (m.cnt >= 3 ==> r.upTimer == m.upTimer)
      && (n > 0 && cfg.keyUpTimeout != 0 ==> r.downTimer == Some(Pending(c, cfg.keyUpTimeout)))
    decreases n
  {
    if n > 0 {
      var m' := Step(m, cfg, Sample(c));
      RepeatStep(m, cfg, c);
      assert m'.data == c && m'.cnt == m.cnt + 1 && m'.keyup == m.keyup;
      HeldKey(m', cfg, c, n - 1);
      RunSamples(m, cfg, c, n);
    }
  }

  /**
   * While a key is held exactly one long press is reported, on the report
   * that brings the count to 3, and no single or double.
   */
  lemma {:induction false} HeldKeyReported(m: Machine, cfg: Config, c: string, n: nat, kind: string)
    requires m.data == c && IsClickKind(kind)
    ensures Reported(Run(m, cfg, Samples(c, n)), kind)
      == Reported(m, kind) + (if kind == Long && m.cnt < 3 <= m.cnt + n then 1 else 0)
    decreases n
  {
    if n > 0 {
      var m' := Step(m, cfg, Sample(c));
      RepeatStepReported(m, cfg, c, kind);
      HeldKeyReported(m', cfg, c, n - 1, kind);
      RunSamples(m, cfg, c, n);
    }
  }

  /**
   * A key pressed from idle and then held: `n + 1` identical reports of a
   * new code leave the count at `n` and report one long press exactly when
   * `n >= 3`, that is from the fourth report on, and nothing else. No timer
   * setting is involved.
   */
  lemma PressAndHold(m: Machine, cfg: Config, c: string, n: nat, kind: string)
    requires m.data == "" && m.cnt == 0 && c != "" && IsClickKind(kind)
    ensures var r := Run(m, cfg, Samples(c, n + 1));
      r.data == c && r.cnt == n && r.keyup == m.keyup
      && (n >= 3 ==> r.upTimer == None)
      && (cfg.keyUpTimeout != 0 ==> r.downTimer == Some(Pending(c, cfg.keyUpTimeout)))
      && Reported(r, kind) == Reported(m, kind) + (if kind == Long && n >= 3 then 1 else 0)
  {
    var m' := Step(m, cfg, Sample(c));
    PressStep(m, cfg, c);
    StepReported(m, cfg, Sample(c), kind);
    assert Samples(c, n + 1) == [Sample(c)] + Samples(c, n);
    RunCons(m, cfg, Sample(c), Samples(c, n));
    HeldKey(m', cfg, c, n);
    HeldKeyReported(m', cfg, c, n, kind);
  }

  /**
   * At most one long press per unbroken run: a sequence of identical
   * reports `c`, interleaved with single-click callbacks, reports at most
   * one long press, and none if the count had already passed 3 for `c`.
   */
  lemma {:induction false} UnbrokenRunAtMostOneLong(m: Machine, cfg: Config, c: string, events: seq<Event>)
    requires forall i :: 0 <= i < |events| ==> events[i] == Sample(c) || events[i] == UpTimerFires
    ensures Reported(Run(m, cfg, events), Long) <= Reported(m, Long) + (if m.data == c && m.cnt >= 3 then 0 else 1)
    decreases |events|
  {
    if events != [] {
      var m' := Step(m, cfg, events[0]);
      if events[0] == Sample(c) {
        OnDataReported(m, cfg, c, Long);
      } else if m.upTimer.Some? {
        FireUpReported(m, cfg, Long);
      }
      UnbrokenRunAtMostOneLong(m', cfg, c, events[1..]);
    }
  }

  // ---------------------------------------------------------------- invariants of runs

  /** With a key-up timeout of 0 the debounce timer is never scheduled. */
  lemma {:induction false} ZeroTimeoutNeverDebounces(m: Machine, cfg: Config, events: seq<Event>)
    requires cfg.keyUpTimeout == 0 && m.downTimer == None
    ensures Run(m, cfg, events).downTimer == None
    decreases |events|
  {
    if events != [] {
      ZeroTimeoutNeverDebounces(Step(m, cfg, events[0]), cfg, events[1..]);
    }
  }

  /**
   * Nothing can complete a double: no debounce is pending, and the code
   * last released (`keyup`) is never the code being held.
   */
  predicate NoDoublePending(m: Machine)
  {
    && m.downTimer == None
    && (m.data == "" ==> m.keyup == "")
    && (m.data != "" ==> m.keyup != m.data)
  }

  /**
   * With a zero timeout a held key is released only by a different
   * non-empty report, and that report becomes the held key, so the release
   * is never of the code released last time.
   */
  lemma ZeroTimeoutStep(m: Machine, cfg: Config, e: Event)
    requires cfg.keyUpTimeout == 0 && NoDoublePending(m)
    requires e.Sample? ==> e.code != ""
    ensures NoDoublePending(Step(m, cfg, e))
    ensures StepAdds(m, e, Double) == 0
  {
  }

  lemma {:induction false} ZeroTimeoutRunNoDoubles(m: Machine, cfg: Config, events: seq<Event>)
    requires cfg.keyUpTimeout == 0 && NoDoublePending(m)
    requires forall i :: 0 <= i < |events| ==> events[i].Sample? ==> events[i].code != ""
    ensures NoDoublePending(Run(m, cfg, events))
    ensures Reported(Run(m, cfg, events), Double) == Reported(m, Double)
    decreases |events|
  {
    if events != [] {
      var m' := Step(m, cfg, events[0]);
      ZeroTimeoutStep(m, cfg, events[0]);
      StepReported(m, cfg, events[0], Double);
      ZeroTimeoutRunNoDoubles(m', cfg, events[1..]);
    }
  }

  /**
   * With a zero timeout and only non-empty reports, no double click is
   * ever reported from start-up: singles, long presses and releases still are.
   */
  lemma ZeroTimeoutNoDoubles(cfg: Config, events: seq<Event>)
    requires cfg.keyUpTimeout == 0
    requires forall i :: 0 <= i < |events| ==> events[i].Sample? ==> events[i].code != ""
    ensures Reported(Run(Initial, cfg, events), Double) == 0
  {
    ZeroTimeoutRunNoDoubles(Initial, cfg, events);
  }

  /** `cnt` is 0 whenever `last.data` is empty. */
  predicate IdleCountZero(m: Machine)
  {
    m.data == "" ==> m.cnt == 0
  }

  /** As long as every report is non-empty, an empty `last.data` comes with a zero count. */
  lemma {:induction false} RunKeepsIdleCountZero(m: Machine, cfg: Config, events: seq<Event>)
    requires IdleCountZero(m)
    requires forall i :: 0 <= i < |events| ==> events[i].Sample? ==> events[i].code != ""
    ensures IdleCountZero(Run(m, cfg, events))
    decreases |events|
  {
    if events != [] {
      RunKeepsIdleCountZero(Step(m, cfg, events[0]), cfg, events[1..]);
    }
  }

  /** Every write of the log goes to one of the fourteen created channels. */
  predicate AllKnown(log: seq<Write>)
  {
    forall i :: 0 <= i < |log| ==> KnownChannel(log[i].channel)
  }

  lemma SetKnown(mappings: map<string, string>, name: string, val: string, ext: string)
    requires name in Suffixes
    ensures AllKnown(Set(mappings, name, val, ext))
  {
    var i :| 0 <= i < |Suffixes| && Suffixes[i] == name;
    assert KnownChannel(Raw + Suffixes[i]);
    assert KnownChannel(Key + Suffixes[i]);
  }

  lemma SetDslKnown(mappings: map<string, string>, name: string, val: string)
    requires name in Suffixes && |name| >= 1
    ensures AllKnown(SetDsl(mappings, name, val))
  {
    SetKnown(mappings, name, val, "");
    SetKnown(mappings, Dsl, val + "." + name[1..], "");
  }

  lemma KnownConcat(a: seq<Write>, b: seq<Write>)
    requires AllKnown(a) && AllKnown(b)
    ensures AllKnown(a + b)
  {
    forall i | 0 <= i < |a + b| ensures KnownChannel((a + b)[i].channel) {
      if i >= |a| { assert (a + b)[i] == b[i - |a|]; }
    }
  }

  lemma UpEventKnown(m: Machine, cfg: Config, code: string)
    requires AllKnown(m.log)
    ensures AllKnown(UpEvent(m, cfg, code).log)
  {
    if code != "" {
      var a := Set(cfg.mappings, Action, code, ".up");
      var d := if IsDouble(m, code) then SetDsl(cfg.mappings, Double, code) else [];
      SetKnown(cfg.mappings, Action, code, ".up");
      if IsDouble(m, code) { SetDslKnown(cfg.mappings, Double, code); }
      KnownConcat(m.log, a);
      KnownConcat(m.log + a, d);
    }
  }

  lemma OnDataKnown(m: Machine, cfg: Config, s: string)
    requires AllKnown(m.log)
    ensures AllKnown(OnData(m, cfg, s).log)
  {
    var maps := cfg.mappings;
    var r := OnData(m, cfg, s);
    var c := if r.cnt > 1 then Set(maps, Repcnt, s, "." + Numbers.DecimalString(r.cnt)) else [];
    SetKnown(maps, Repcnt, s, "." + Numbers.DecimalString(r.cnt));
    if m.data == s {
      var a := if r.cnt == 3 then SetDsl(maps, Long, s) else [];
      var b := Set(maps, Action, s, ".repeat");
      SetDslKnown(maps, Long, s);
      SetKnown(maps, Action, s, ".repeat");
      KnownConcat(m.log, a);
      KnownConcat(m.log + a, b);
      KnownConcat(m.log + a + b, c);
    } else {
      var m1 := if cfg.keyUpTimeout != 0 then m.(downTimer := Some(Pending(s, cfg.keyUpTimeout))) else m;
      var u := UpEvent(m1, cfg, m.data);
      UpEventKnown(m1, cfg, m.data);
      var w := Set(maps, Wo, s, "");
      var b := Set(maps, Action, s, ".down");
      SetKnown(maps, Wo, s, "");
      SetKnown(maps, Action, s, ".down");
      assert r.log == u.log + w + b + c;
      KnownConcat(u.log, w);
      KnownConcat(u.log + w, b);
      KnownConcat(u.log + w + b, c);
    }
  }

  lemma StepKnown(m: Machine, cfg: Config, e: Event)
    requires AllKnown(m.log)
    ensures AllKnown(Step(m, cfg, e).log)
  {
    match e
    case Sample(s) => OnDataKnown(m, cfg, s);
    case DownTimerFires =>
      if m.downTimer.Some? {
        UpEventKnown(m.(downTimer := None), cfg, m.downTimer.value.arg);
      }
    case UpTimerFires =>
      if m.upTimer.Some? {
        SetDslKnown(cfg.mappings, Single, m.upTimer.value.arg);
        KnownConcat(m.log, SetDsl(cfg.mappings, Single, m.upTimer.value.arg));
      }
  }

  /** No event writes to a channel the adapter did not create. */
  lemma {:induction false} RunWritesKnownChannels(m: Machine, cfg: Config, events: seq<Event>)
    requires AllKnown(m.log)
    ensures AllKnown(Run(m, cfg, events).log)
    decreases |events|
  {
    if events != [] {
      StepKnown(m, cfg, events[0]);
      RunWritesKnownChannels(Step(m, cfg, events[0]), cfg, events[1..]);
    }
  }
}
