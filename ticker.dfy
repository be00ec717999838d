/** The periodic tick driver (bot.js lines 27-31 and 158-193).

    Two module-level countdowns, `sunTicker` and `helpTicker`, are updated
    on every tick the chat session emits; the code counts a tick as one
    second, multiplying its minute timers by 60. On a tick where
    the engine has finished initializing, each countdown whose settings are
    present either fires its engine action and is reset to its timer (in
    minutes) times 60, when it stands at 0, or is decremented by one. */
module Ticker {
  import opened Wrappers
  import Config

  /** What the tick handler reads from the engine and the options. */
  datatype TickEnv = TickEnv(
    initializing: bool,      // tipbot.initializing
    sunThresholdSet: bool,   // tipbot.OPTIONS.SUN_THRESHOLD !== undefined
    sunTimer: Option<int>,   // tipbot.OPTIONS.SUN_TIMER, in minutes
    sunUserSet: bool,        // tipbot.sunUser !== undefined
    helpTimer: Option<int>)  // OPTIONS.SHOW_RANDOM_HELP_TIMER, in minutes

  /** The reset value of the sun countdown, when all its settings are present. */
  function SunPeriod(e: TickEnv): Option<int>
  {
    if e.sunThresholdSet && e.sunTimer.Some? && e.sunUserSet then Some(e.sunTimer.value * 60) else None
  }

  /** The reset value of the help countdown, when its timer is present. */
  function HelpPeriod(e: TickEnv): Option<int>
  {
    match e.helpTimer
    case None => None
    case Some(minutes) => Some(minutes * 60)
  }

  /** The value of a countdown after one tick, and whether its action fired. */
  datatype Step = Step(counter: int, fired: bool)

  /** One ready tick of an active countdown that is reset to `period`. */
  function Countdown(c: int, period: int): Step {
    if c == 0 then Step(period, true) else Step(c - 1, false)
  }

  /** One tick of a countdown that is active when `period` is present and
      the engine is `ready`; otherwise the countdown is left alone. */
  function Advance(c: int, period: Option<int>, ready: bool): Step {
    if ready && period.Some? then Countdown(c, period.value) else Step(c, false)
  }

  datatype Counters = Counters(sun: int, help: int)

  /** Which engine actions a tick called: `sunCheckThreshold()` and
      `showRandomHelp()`. When both fire, the code calls `sunCheckThreshold()`
      first; this record does not keep that order. */
  datatype Actions = Actions(sunCheckThreshold: bool, showRandomHelp: bool)

  datatype TickResult = TickResult(after: Counters, actions: Actions)

  /** The tick handler as a function of the counters and what it reads. */
  function TickSpec(s: Counters, e: TickEnv): TickResult {
    var sun := Advance(s.sun, SunPeriod(e), !e.initializing);
    var help := Advance(s.help, HelpPeriod(e), !e.initializing);
    TickResult(Counters(sun.counter, help.counter), Actions(sun.fired, help.fired))
  }

  /** The two counters as the bot holds them, updated in place by `Tick`. */
  class TickDriver {
    var sunTicker: int
    var helpTicker: int

    /** The sun countdown starts at 0, so it fires on the first ready tick;
        the help countdown starts at its full timer. */
    constructor (opts: Config.Options)
      ensures sunTicker == 0
      ensures helpTicker == Config.InitialHelpTicker(opts)
    {
      sunTicker := 0;
      helpTicker := Config.InitialHelpTicker(opts);
    }

    function State(): Counters
      reads this
    {
      Counters(sunTicker, helpTicker)
    }

    /** The handler of the `tick` event. */
    method Tick(e: TickEnv) returns (actions: Actions)
      modifies this
      ensures TickResult(State(), actions) == TickSpec(old(State()), e)
      ensures e.initializing ==> State() == old(State()) && actions == Actions(false, false)
      ensures SunPeriod(e).None? ==> sunTicker == old(sunTicker) && !actions.sunCheckThreshold
      ensures HelpPeriod(e).None? ==> helpTicker == old(helpTicker) && !actions.showRandomHelp
    {
      var sunFired, helpFired := false, false;
      if !e.initializing {
        if e.sunThresholdSet && e.sunTimer.Some? && e.sunUserSet {
          if sunTicker == 0 {
            sunFired := true;
            sunTicker := e.sunTimer.value * 60;
          } else {
            sunTicker := sunTicker - 1;
          }
        }
        if e.helpTimer.Some? {
          if helpTicker == 0 {
            helpFired := true;
            helpTicker := e.helpTimer.value * 60;
          } else {
            helpTicker := helpTicker - 1;
          }
        }
      }
      actions := Actions(sunFired, helpFired);
    }
  }

  // ----- Properties of a single tick -----

  /** While the engine is initializing, a tick changes nothing and fires nothing. */
  lemma InitializingTickIsNoOp(s: Counters, e: TickEnv)
    requires e.initializing
    ensures TickSpec(s, e) == TickResult(s, Actions(false, false))
  {
  }

  /** Without its threshold, timer and monitored user the sun countdown is
      untouched and never fires; without its timer the help countdown is. */
  lemma InactiveCounterUntouched(s: Counters, e: TickEnv)
    ensures !(e.sunThresholdSet && e.sunTimer.Some? && e.sunUserSet) ==>
      TickSpec(s, e).after.sun == s.sun && !TickSpec(s, e).actions.sunCheckThreshold
    ensures e.helpTimer.None? ==>
      TickSpec(s, e).after.help == s.help && !TickSpec(s, e).actions.showRandomHelp
  {
  }

  /** On a ready tick of an active countdown: at 0 it fires once and is reset
      to its timer times 60; otherwise it fires nothing and drops by one. */
  lemma ReadyTickFiresOrDecrements(s: Counters, e: TickEnv)
    requires !e.initializing
    ensures SunPeriod(e).Some? && s.sun == 0 ==>
      TickSpec(s, e).actions.sunCheckThreshold && TickSpec(s, e).after.sun == e.sunTimer.value * 60
    ensures SunPeriod(e).Some? && s.sun != 0 ==>
      !TickSpec(s, e).actions.sunCheckThreshold && TickSpec(s, e).after.sun == s.sun - 1
    ensures e.helpTimer.Some? && s.help == 0 ==>
      TickSpec(s, e).actions.showRandomHelp && TickSpec(s, e).after.help == e.helpTimer.value * 60
    ensures e.helpTimer.Some? && s.help != 0 ==>
      !TickSpec(s, e).actions.showRandomHelp && TickSpec(s, e).after.help == s.help - 1
  {
  }

  /** A tick's effect on one countdown does not depend on the other one. */
  lemma CountersIndependent(s: Counters, t: Counters, e: TickEnv)
    ensures s.sun == t.sun ==>
      TickSpec(s, e).after.sun == TickSpec(t, e).after.sun &&
      TickSpec(s, e).actions.sunCheckThreshold == TickSpec(t, e).actions.sunCheckThreshold
    ensures s.help == t.help ==>
      TickSpec(s, e).after.help == TickSpec(t, e).after.help &&
      TickSpec(s, e).actions.showRandomHelp == TickSpec(t, e).actions.showRandomHelp
  {
  }

  /** Both actions can fire on the same tick. */
  lemma BothMayFire(e: TickEnv)
    requires !e.initializing && SunPeriod(e).Some? && HelpPeriod(e).Some?
    ensures TickSpec(Counters(0, 0), e).actions == Actions(true, true)
  {
  }

  // ----- A countdown over many ready ticks -----

  /** The counter after some ticks, and how many times its action fired. */
  datatype Tally = Tally(counter: int, fires: nat)

  /** `n` consecutive ready ticks of an active countdown. */
  function Ticks(c: int, period: int, n: nat): Tally
    decreases n
  {
    if n == 0 then Tally(c, 0)
    else
      var first := Countdown(c, period);
      var rest := Ticks(first.counter, period, n - 1);
      Tally(rest.counter, rest.fires + if first.fired then 1 else 0)
  }

  /** A countdown that starts within [0, period] stays there: it never goes negative. */
  lemma {:induction false} TicksStayInRange(c: int, period: int, n: nat)
    requires 0 <= c <= period
    ensures 0 <= Ticks(c, period, n).counter <= period
    decreases n
  {
    if n > 0 {
      TicksStayInRange(Countdown(c, period).counter, period, n - 1);
    }
  }

  /** For its first `c` ticks a countdown at `c >= 0` only counts down. */
  lemma {:induction false} CountingDown(c: int, period: int, k: nat)
    requires k <= c
    ensures Ticks(c, period, k) == Tally(c - k, 0)
    decreases k
  {
    if k > 0 {
      CountingDown(c - 1, period, k - 1);
    }
  }

  /** Ticks compose: `a + b` ticks are `a` ticks followed by `b` ticks. */
  lemma {:induction false} TicksSplit(c: int, period: int, a: nat, b: nat)
    ensures Ticks(c, period, a + b) ==
      Tally(Ticks(Ticks(c, period, a).counter, period, b).counter,
            Ticks(c, period, a).fires + Ticks(Ticks(c, period, a).counter, period, b).fires)
    decreases a
  {
    if a > 0 {
      TicksSplit(Countdown(c, period).counter, period, a - 1, b);
    }
  }

  /** Once a countdown fires, it fires again exactly `period + 1` ready ticks
      later and not in between. */
  lemma FiresAgainAfterPeriod(period: int)
    requires period >= 0
    ensures Ticks(0, period, 1) == Tally(period, 1)
    ensures forall j :: 1 <= j <= period ==> Ticks(0, period, j).fires == 1
    ensures Ticks(0, period, period + 1) == Tally(0, 1)
    ensures Ticks(0, period, period + 2) == Tally(period, 2)
  {
    forall j | 1 <= j <= period
      ensures Ticks(0, period, j).fires == 1
    {
      CountingDown(period, period, j - 1);
      TicksSplit(0, period, 1, j - 1);
    }
    CountingDown(period, period, period);
    TicksSplit(0, period, 1, period);
    TicksSplit(0, period, period + 1, 1);
  }

  /** A countdown started at 0 goes back to 0 after every `period + 1` ticks,
      having fired once in each such round. */
  lemma {:induction false} WholeRounds(period: int, k: nat)
    requires period >= 0
    ensures Ticks(0, period, k * (period + 1)) == Tally(0, k)
    decreases k
  {
    if k > 0 {
      CountingDown(period, period, period);
      TicksSplit(0, period, 1, period);
      assert Ticks(0, period, period + 1) == Tally(0, 1);
      WholeRounds(period, k - 1);
      assert k * (period + 1) == (k - 1) * (period + 1) + (period + 1);
      TicksSplit(0, period, (k - 1) * (period + 1), period + 1);
    }
  }

  /** Closed form of a countdown started at 0: after `k` whole rounds of
      `period + 1` ticks and `r` more, it has fired once per started round. */
  lemma TicksFromZero(period: int, k: nat, r: nat)
    requires period >= 0 && r <= period
    ensures Ticks(0, period, k * (period + 1) + r) ==
      if r == 0 then Tally(0, k) else Tally(period + 1 - r, k + 1)
  {
    WholeRounds(period, k);
    TicksSplit(0, period, k * (period + 1), r);
    if r > 0 {
      CountingDown(period, period, r - 1);
      TicksSplit(0, period, 1, r - 1);
    }
  }

  /** A countdown whose reset value is 0 fires on every ready tick. */
  lemma {:induction false} ZeroTimerFiresEveryTick(n: nat)
    ensures Ticks(0, 0, n) == Tally(0, n)
  {
    WholeRounds(0, n);
    assert n * (0 + 1) == n;
  }

  /** With a two-tick timer and five ready ticks from the initial 0, the
      action fires on ticks 1 and 4 and the counter ends at 1. */
  lemma TwoTickScenario()
    ensures Ticks(0, 2, 1).fires == 1 && Ticks(0, 2, 3).fires == 1
    ensures Ticks(0, 2, 4).fires == 2
    ensures Ticks(0, 2, 5) == Tally(1, 2)
  {
  }

  // ----- The whole handler over many ticks -----

  datatype RunResult = RunResult(after: Counters, sunFires: nat, helpFires: nat)

  /** `n` ticks of the handler with the same settings throughout. */
  function Run(s: Counters, e: TickEnv, n: nat): RunResult
    decreases n
  {
    if n == 0 then RunResult(s, 0, 0)
    else
      var t := TickSpec(s, e);
      var rest := Run(t.after, e, n - 1);
      RunResult(rest.after,
                rest.sunFires + (if t.actions.sunCheckThreshold then 1 else 0),
                rest.helpFires + (if t.actions.showRandomHelp then 1 else 0))
  }

  /** Over many ticks, each counter evolves as its own countdown when it is
      active and the engine is ready, and otherwise never changes or fires. */
  lemma {:induction false} RunIsTwoCountdowns(s: Counters, e: TickEnv, n: nat)
    ensures !e.initializing && SunPeriod(e).Some? ==>
      Run(s, e, n).after.sun == Ticks(s.sun, SunPeriod(e).value, n).counter &&
      Run(s, e, n).sunFires == Ticks(s.sun, SunPeriod(e).value, n).fires
    ensures (e.initializing || SunPeriod(e).None?) ==>
      Run(s, e, n).after.sun == s.sun && Run(s, e, n).sunFires == 0
    ensures !e.initializing && HelpPeriod(e).Some? ==>
      Run(s, e, n).after.help == Ticks(s.help, HelpPeriod(e).value, n).counter &&
      Run(s, e, n).helpFires == Ticks(s.help, HelpPeriod(e).value, n).fires
    ensures (e.initializing || HelpPeriod(e).None?) ==>
      Run(s, e, n).after.help == s.help && Run(s, e, n).helpFires == 0
    decreases n
  {
    if n > 0 {
      RunIsTwoCountdowns(TickSpec(s, e).after, e, n - 1);
    }
  }

  /** From the start-up values and a ready engine: an active sun countdown
      fires on the very first tick, and the help countdown stays within
      [0, timer * 60], fires nothing for timer * 60 ticks and fires on the
      next one. */
  lemma {:induction false} CountdownsFromStartup(opts: Config.Options, e: TickEnv, n: nat)
    requires !e.initializing && e.helpTimer == opts.showRandomHelpTimer
    requires opts.showRandomHelpTimer.Some? && opts.showRandomHelpTimer.value >= 0
    ensures SunPeriod(e).Some? ==> Run(Counters(0, Config.InitialHelpTicker(opts)), e, 1).sunFires == 1
    ensures 0 <= Run(Counters(0, Config.InitialHelpTicker(opts)), e, n).after.help <= Config.InitialHelpTicker(opts)
    ensures Run(Counters(0, Config.InitialHelpTicker(opts)), e, Config.InitialHelpTicker(opts)).helpFires == 0
    ensures Run(Counters(0, Config.InitialHelpTicker(opts)), e, Config.InitialHelpTicker(opts) + 1).helpFires == 1
  {
    var p := Config.InitialHelpTicker(opts);
    var s := Counters(0, p);
    assert HelpPeriod(e) == Some(p);
    RunIsTwoCountdowns(s, e, 1);
    RunIsTwoCountdowns(s, e, n);
    TicksStayInRange(p, p, n);
    RunIsTwoCountdowns(s, e, p);
    CountingDown(p, p, p);
    RunIsTwoCountdowns(s, e, p + 1);
    TicksSplit(p, p, p, 1);
  }
}
