/**
 * Click scenarios from the start-up state, with a non-zero key-up timeout.
 * Each one runs a fixed sequence of reports and timer callbacks and states
 * which clicks are reported and what is left pending.
 */
module Scenarios {
  import opened Wrappers
  import opened Channels
  import opened Timers
  import opened Gesture
  import opened Runs

  /**
   * Two reports of `c`, the debounce expires, the window expires: one
   * single click and nothing else; both timers end empty.
   */
  lemma SingleClick(cfg: Config, c: string)
    requires c != "" && cfg.keyUpTimeout != 0
    ensures var r := Run(Initial, cfg, [Sample(c), Sample(c), DownTimerFires, UpTimerFires]);
      Reported(r, Single) == 1 && Reported(r, Double) == 0 && Reported(r, Long) == 0
      && r.downTimer == None && r.upTimer == None && r.data == "" && r.keyup == ""
  {
    var m1 := Step(Initial, cfg, Sample(c));
    var m2 := Step(m1, cfg, Sample(c));
    var m3 := Step(m2, cfg, DownTimerFires);
    var m4 := Step(m3, cfg, UpTimerFires);
    RunCons(Initial, cfg, Sample(c), [Sample(c), DownTimerFires, UpTimerFires]);
    RunCons(m1, cfg, Sample(c), [DownTimerFires, UpTimerFires]);
    RunCons(m2, cfg, DownTimerFires, [UpTimerFires]);
    RunCons(m3, cfg, UpTimerFires, []);
    PressStep(Initial, cfg, c);
    RepeatStep(m1, cfg, c);
    DownFiresStep(m2, cfg);
    UpFiresStep(m3, cfg);
    CountClicks4(Initial, cfg, Sample(c), Sample(c), DownTimerFires, UpTimerFires, Single);
    CountClicks4(Initial, cfg, Sample(c), Sample(c), DownTimerFires, UpTimerFires, Double);
    CountClicks4(Initial, cfg, Sample(c), Sample(c), DownTimerFires, UpTimerFires, Long);
  }

  /** The clicks of `kind` reported by four events, one event at a time. */
  lemma CountClicks4(m0: Machine, cfg: Config, e1: Event, e2: Event, e3: Event, e4: Event, kind: string)
    requires IsClickKind(kind)
    ensures var m1 := Step(m0, cfg, e1); var m2 := Step(m1, cfg, e2); var m3 := Step(m2, cfg, e3);
      Reported(Step(m3, cfg, e4), kind)
      == Reported(m0, kind) + StepAdds(m0, e1, kind) + StepAdds(m1, e2, kind) + StepAdds(m2, e3, kind) + StepAdds(m3, e4, kind)
  {
    var m1 := Step(m0, cfg, e1);
    var m2 := Step(m1, cfg, e2);
    var m3 := Step(m2, cfg, e3);
    StepReported(m0, cfg, e1, kind);
    StepReported(m1, cfg, e2, kind);
    StepReported(m2, cfg, e3, kind);
    StepReported(m3, cfg, e4, kind);
  }

  /**
   * Press, debounce expires, press again, debounce expires, all inside the
   * window: one double click and no single; the window is cancelled, so no
   * single can follow.
   */
  lemma DoubleClick(cfg: Config, c: string)
    requires c != "" && cfg.keyUpTimeout != 0
    ensures var r := Run(Initial, cfg, [Sample(c), DownTimerFires, Sample(c), DownTimerFires]);
      Reported(r, Double) == 1 && Reported(r, Single) == 0 && Reported(r, Long) == 0
      && r.downTimer == None && r.upTimer == None && r.data == "" && r.keyup == ""
  {
    var tap := [Sample(c), DownTimerFires];
    var h := Run(Initial, cfg, tap);
    TapState(Initial, cfg, c);
    TapState(h, cfg, c);
    TapReported(Initial, cfg, c, Double);
    TapReported(h, cfg, c, Double);
    TapReported(Initial, cfg, c, Single);
    TapReported(h, cfg, c, Single);
    TapReported(Initial, cfg, c, Long);
    TapReported(h, cfg, c, Long);
    assert [Sample(c), DownTimerFires, Sample(c), DownTimerFires] == tap + tap;
    RunAppend(Initial, cfg, tap, tap);
  }

  /**
   * A tap from idle, a report of `c` and then the debounce expiry, releases
   * `c`: a double when `c` was the code released last, otherwise the window
   * starts for `c`.
   */
  lemma TapState(m: Machine, cfg: Config, c: string)
    requires c != "" && cfg.keyUpTimeout != 0
    requires m.data == "" && m.cnt == 0
    ensures var r := Run(m, cfg, [Sample(c), DownTimerFires]);
      && r.data == "" && r.cnt == 0 && r.downTimer == None
      && r.keyup == (if m.keyup == c then "" else c)
      && r.upTimer == (if m.keyup == c then None else Some(Pending(c, cfg.keyUpTimeout * 2)))
  {
    var m1 := Step(m, cfg, Sample(c));
    RunCons(m, cfg, Sample(c), [DownTimerFires]);
    RunCons(m1, cfg, DownTimerFires, []);
    PressStep(m, cfg, c);
    DownFiresStep(m1, cfg);
  }

  /** A tap from idle reports a double exactly when `c` was the code released last, and nothing else. */
  lemma TapReported(m: Machine, cfg: Config, c: string, kind: string)
    requires c != "" && cfg.keyUpTimeout != 0 && IsClickKind(kind)
    requires m.data == "" && m.cnt == 0
    ensures Reported(Run(m, cfg, [Sample(c), DownTimerFires]), kind)
      == Reported(m, kind) + (if kind == Double && m.keyup == c then 1 else 0)
  {
    var m1 := Step(m, cfg, Sample(c));
    RunCons(m, cfg, Sample(c), [DownTimerFires]);
    RunCons(m1, cfg, DownTimerFires, []);
    PressStep(m, cfg, c);
    StepReported(m, cfg, Sample(c), kind);
    StepReported(m1, cfg, DownTimerFires, kind);
  }

  /**
   * Four reports of `c` and the debounce expires: one long press and no
   * single or double. The window is not restarted, and `keyup` is left set
   * to `c`.
   */
  lemma LongPress(cfg: Config, c: string)
    requires c != "" && cfg.keyUpTimeout != 0
    ensures var r := Run(Initial, cfg, Samples(c, 4) + [DownTimerFires]);
      Reported(r, Long) == 1 && Reported(r, Single) == 0 && Reported(r, Double) == 0
      && r.downTimer == None && r.upTimer == None && r.data == "" && r.cnt == 0 && r.keyup == c
  {
    var h := Run(Initial, cfg, Samples(c, 4));
    PressAndHold(Initial, cfg, c, 3, Long);
    PressAndHold(Initial, cfg, c, 3, Single);
    PressAndHold(Initial, cfg, c, 3, Double);
    RunAppend(Initial, cfg, Samples(c, 4), [DownTimerFires]);
    RunCons(h, cfg, DownTimerFires, []);
    ReleaseAfterLong(h, cfg, c);
  }

  /** The debounce expiry after a long press releases the key without reporting any click, and leaves `keyup` set. */
  lemma ReleaseAfterLong(h: Machine, cfg: Config, c: string)
    requires c != "" && h.downTimer == Some(Pending(c, cfg.keyUpTimeout)) && h.cnt >= 3
    ensures var r := Step(h, cfg, DownTimerFires);
      && Reported(r, Long) == Reported(h, Long) && Reported(r, Single) == Reported(h, Single)
      && Reported(r, Double) == Reported(h, Double)
      && r.downTimer == None && r.upTimer == h.upTimer && r.data == "" && r.cnt == 0 && r.keyup == c
  {
    DownFiresStep(h, cfg);
    StepReported(h, cfg, DownTimerFires, Long);
    StepReported(h, cfg, DownTimerFires, Single);
    StepReported(h, cfg, DownTimerFires, Double);
  }

  /**
   * After a long press is released, `keyup` still holds the code and no
   * window is pending to clear it, so the next short press of the same key,
   * however late, is reported as a double click.
   */
  lemma TapAfterLongPressIsDouble(m: Machine, cfg: Config, c: string)
    requires c != "" && cfg.keyUpTimeout != 0
    requires m.data == "" && m.cnt == 0 && m.keyup == c
    ensures var r := Run(m, cfg, [Sample(c), DownTimerFires]);
      Reported(r, Double) == Reported(m, Double) + 1 && Reported(r, Single) == Reported(m, Single)
  {
    TapReported(m, cfg, c, Double);
    TapReported(m, cfg, c, Single);
  }

  /**
   * There is one window for all codes: when `b` is released while the
   * single of `a` is still pending, the window is restarted for `b`, so the
   * single for `a` is never reported.
   */
  lemma OtherKeyTakesOverWindow(cfg: Config, a: string, b: string)
    requires a != "" && b != "" && a != b && cfg.keyUpTimeout != 0
    ensures var r := Run(Initial, cfg, [Sample(a), DownTimerFires, Sample(b), DownTimerFires]);
      r.upTimer == Some(Pending(b, cfg.keyUpTimeout * 2)) && r.keyup == b
      && Reported(r, Single) == 0 && Reported(r, Double) == 0
  {
    var m1 := Step(Initial, cfg, Sample(a));
    var m2 := Step(m1, cfg, DownTimerFires);
    var m3 := Step(m2, cfg, Sample(b));
    RunCons(Initial, cfg, Sample(a), [DownTimerFires, Sample(b), DownTimerFires]);
    RunCons(m1, cfg, DownTimerFires, [Sample(b), DownTimerFires]);
    RunCons(m2, cfg, Sample(b), [DownTimerFires]);
    RunCons(m3, cfg, DownTimerFires, []);
    PressStep(Initial, cfg, a);
    DownFiresStep(m1, cfg);
    PressStep(m2, cfg, b);
    DownFiresStep(m3, cfg);
    CountClicks4(Initial, cfg, Sample(a), DownTimerFires, Sample(b), DownTimerFires, Single);
    CountClicks4(Initial, cfg, Sample(a), DownTimerFires, Sample(b), DownTimerFires, Double);
  }
}
