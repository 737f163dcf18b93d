/**
 * The classifier as the adapter runs it: the module-level `last` record
 * and the two `Timer` objects updated in place, and every output an
 * in-place write to the device. Each method follows the statements of
 * main.js in order and is proved to leave exactly the state that the
 * corresponding function of `Gesture` describes.
 */
module Classification {
  import opened Wrappers
  import opened Timers
  import Channels
  import Numbers
  import Gesture

  class Classifier {
    // The fields of `last` (main.js:83-87).
    var data: string
    var cnt: nat
    var keyup: string
    /** Every `dev.set(channel, value)` so far, oldest first. */
    var log: seq<Channels.Write>
    /** Key-up debounce and single/double window (main.js:193-194). */
    const downTimer: Timer
    const upTimer: Timer
    /** `adapter.config.keyUpTimeout` after `normalizeConfig`, and `mappings`. */
    const config: Gesture.Config

    ghost predicate Valid()
    {
      downTimer != upTimer
    }

    /** The whole observable state as a `Gesture.Machine`. */
    ghost function Abs(): Gesture.Machine
      reads this, downTimer, upTimer
    {
      Gesture.Machine(data, cnt, keyup, downTimer.slot, upTimer.slot, log)
    }

    /**
     * Start-up: `normalizeConfig` on the configured timeout text, the mapping
     * table, `last` in its initial state and two idle timers (main.js:83-87,
     * 193-194, 250-251).
     */
    constructor (keyUpTimeoutSetting: string, mappings: map<string, string>)
      ensures Valid() && fresh(downTimer) && fresh(upTimer)
      ensures config == Gesture.Config(Numbers.NormalizeTimeout(keyUpTimeoutSetting), mappings)
      ensures Abs() == Gesture.Initial
    {
      data, cnt, keyup, log := "", 0, "", [];
      downTimer := new Timer();
      upTimer := new Timer();
      config := Gesture.Config(Numbers.NormalizeTimeout(keyUpTimeoutSetting), mappings);
    }

    /** `set(name, val, ext)` (main.js:144-152). */
    method Set(name: string, val: string, ext: string)
      modifies this`log
      ensures log == old(log) + Channels.Set(config.mappings, name, val, ext)
    {
      log := log + [Channels.Write(Channels.Raw + name, val + ext)];
      if val in config.mappings && config.mappings[val] != "" {
        log := log + [Channels.Write(Channels.Key + name, config.mappings[val] + ext)];
      }
    }

    /** `setDSL(name, val)` (main.js:154-157). */
    method SetDsl(name: string, val: string)
      requires |name| >= 1
      modifies this`log
      ensures log == old(log) + Channels.SetDsl(config.mappings, name, val)
    {
      Set(name, val, "");
      Set(Channels.Dsl, val + "." + name[1..], "");
    }

    /** `upEvent(dev, code)` (main.js:196-214). */
    method UpEvent(code: string)
      requires Valid()
      modifies this, downTimer, upTimer
      ensures Valid()
      ensures Abs() == Gesture.UpEvent(old(Abs()), config, code)
    {
      if code == "" {
        return;
      }
      downTimer.Clear();
      Set(Channels.Action, code, ".up");
      if cnt <= 2 {
        upTimer.Set(code, config.keyUpTimeout * 2);
      }
      if cnt <= 2 && keyup == code {
        upTimer.Clear();
        SetDsl(Channels.Double, keyup);
        keyup := "";
      } else {
        keyup := code;
      }
      data := "";
      cnt := 0;
    }

    /** `onData(sample)` (main.js:216-242), without the final `dev.update()` flush. */
    method OnData(sample: string)
      requires Valid()
      modifies this, downTimer, upTimer
      ensures Valid()
      ensures Abs() == Gesture.OnData(old(Abs()), config, sample)
    {
      var ext: string;
      if config.keyUpTimeout != 0 {
        downTimer.Set(sample, config.keyUpTimeout);
      }
      if data == sample {
        cnt := cnt + 1;
        if cnt == 3 {
          upTimer.Clear();
          SetDsl(Channels.Long, sample);
        }
        ext := ".repeat";
      } else {
        UpEvent(data);
        Set(Channels.Wo, sample, "");
        ext := ".down";
        data := sample;
      }
      Set(Channels.Action, sample, ext);
      if cnt > 1 {
        Set(Channels.Repcnt, sample, "." + Numbers.DecimalString(cnt));
      }
    }

    /** The debounce callback (main.js:219-221): the timer empties its slot, then `upEvent` on its sample. */
    method FireDownTimer()
      requires Valid() && downTimer.slot.Some?
      modifies this, downTimer, upTimer
      ensures Valid()
      ensures Abs() == Gesture.FireDown(old(Abs()), config)
    {
      var sample := downTimer.Fire();
      UpEvent(sample);
    }

    /** The single-click callback (main.js:201-204): tests `last.cnt` when it runs. */
    method FireUpTimer()
      requires Valid() && upTimer.slot.Some?
      modifies this, upTimer
      ensures Valid()
      ensures Abs() == Gesture.FireUp(old(Abs()), config)
    {
      var lastKeyUp := upTimer.Fire();
      if cnt <= 2 {
        SetDsl(Channels.Single, lastKeyUp);
      }
      keyup := "";
    }
  }
}
