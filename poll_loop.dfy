/** The daemon's main loop (jni/main.c, lines 117-196). Each tick detects
    the game in the foreground (at most every other tick once one is known),
    drops a game whose process has died, and switches between the
    performance, powersave and normal profiles, applying a profile only when
    the mode changes or a new game asks for a fresh performance profile.
    Everything the loop learns from the system arrives as a per-tick input;
    everything it does to the system leaves as an effect. */
module PollLoop {
  import opened Text

  /** ProfileMode. PerfCommon is only the mode the daemon starts in. */
  datatype ProfileMode = PerfCommon | Performance | Normal | Powersave

  /** MLBBState: what handle_mlbb reports about the one title it tracks. */
  datatype MlbbState = MlbbNotRunning | MlbbRunning | MlbbRunBackground

  /** An action of the loop on the system: run_profiler, set_priority and
      NusantaraPreload. */
  datatype Effect = ApplyProfile(mode: ProfileMode) | SetPriority(pid: int) | Preload(package: string)

  /** The answers of the system during one tick, each used only where the
      loop asks for it. */
  datatype TickInput = TickInput(
    updatePending: bool,       // the module-update marker file exists
    detected: Option<string>,  // get_gamestart()
    pidAlive: bool,            // kill(game_pid, 0) succeeds
    mlbb: MlbbState,           // handle_mlbb(gamestart)
    screenOn: bool,            // get_screenstate()
    lowPower: bool,            // get_low_power_state()
    mlbbPid: int,              // mlbb_pid
    pidOf: int)                // pidof(gamestart)

  /** The globals gamestart and game_pid and the loop's locals. */
  datatype DaemonState = DaemonState(
    gamestart: Option<string>,
    gamePid: int,
    mode: ProfileMode,
    needCheckup: bool,
    pollTick: int,
    mlbb: MlbbState)

  /** The state on entry to the loop. */
  const Initial := DaemonState(None, 0, PerfCommon, false, 0, MlbbNotRunning)

  /** The outcome of one or more ticks: the new state, the effects in the
      order they happen, and whether the loop was left. */
  datatype TickResult = TickResult(state: DaemonState, effects: seq<Effect>, exit: bool)

  /** What holds between ticks: the poll counter is 0 or 1, and a tracked
      pid always belongs to a known game. */
  predicate Valid(s: DaemonState) {
    0 <= s.pollTick <= 1 && (s.gamePid != 0 ==> s.gamestart.Some?)
  }

  /** Whether the tick runs the (costly) game detection. */
  predicate DetectsThisTick(s: DaemonState) {
    s.gamestart.None? || s.pollTick + 1 >= 2
  }

  /** Lines 134-146: debounced game detection. It touches only the game,
      the counter and the checkup flag; the game changes only to the one
      detected, and a change always asks for a checkup. */
  function Detect(s: DaemonState, input: TickInput): (r: DaemonState)
    ensures r.gamePid == s.gamePid && r.mode == s.mode && r.mlbb == s.mlbb
    ensures r.gamestart != s.gamestart ==> r.gamestart == input.detected && input.detected.Some?
    ensures r.needCheckup == (s.needCheckup || r.gamestart != s.gamestart)
    ensures r.pollTick == 0 || r.gamestart == s.gamestart
  {
    if DetectsThisTick(s) then
      if input.detected.Some? && input.detected != s.gamestart then
        s.(gamestart := input.detected, pollTick := 0, needCheckup := true)
      else
        s.(pollTick := 0)
    else
      s.(pollTick := s.pollTick + 1)
  }

  /** Lines 147-153: a tracked process that has gone away resets the game;
      otherwise nothing changes. */
  function CheckLiveness(s: DaemonState, input: TickInput): (r: DaemonState)
    ensures r != s <==> s.gamePid != 0 && !input.pidAlive
    ensures r != s ==> r.gamePid == 0 && r.gamestart.None? && r.needCheckup
    ensures r.mode == s.mode && r.pollTick == s.pollTick && r.mlbb == s.mlbb
  {
    if s.gamePid != 0 && !input.pidAlive then
      s.(gamePid := 0, gamestart := None, needCheckup := true)
    else s
  }

  /** Lines 154-155: handle_mlbb is asked only when a game is known, and
      only the recorded MLBB state can change. */
  function Classify(s: DaemonState, input: TickInput): (r: DaemonState)
    ensures r == s.(mlbb := r.mlbb)
    ensures r.mlbb == (if s.gamestart.Some? then input.mlbb else s.mlbb)
  {
    if s.gamestart.Some? then s.(mlbb := input.mlbb) else s
  }

  /** The state when the profile decision is taken. */
  function Prepared(s: DaemonState, input: TickInput): DaemonState {
    Classify(CheckLiveness(Detect(s, input), input), input)
  }

  /** The condition of the performance branch (line 158). */
  predicate WantsPerformance(u: DaemonState, input: TickInput) {
    u.gamestart.Some? && input.screenOn && u.mlbb != MlbbRunBackground
  }

  /** Lines 157-195: the profile decision. It never leaves the loop, leaves
      the counter and the MLBB state alone, applies a profile only as the
      first effect and makes it the current mode, and keeps a tracked pid
      tied to a known game. */
  function Decide(u: DaemonState, input: TickInput): (r: TickResult)
    ensures !r.exit && r.state.pollTick == u.pollTick && r.state.mlbb == u.mlbb
    ensures r.effects != [] ==> r.effects[0] == ApplyProfile(r.state.mode) && !r.state.needCheckup
    ensures r.effects == [] ==> r.state.mode == u.mode && r.state.needCheckup == u.needCheckup
    ensures r.state.mode == Performance && r.state.mode != u.mode ==> WantsPerformance(u, input)
    ensures (u.gamePid != 0 ==> u.gamestart.Some?) ==> (r.state.gamePid != 0 ==> r.state.gamestart.Some?)
  {
    if WantsPerformance(u, input) then
      if !u.needCheckup && u.mode == Performance then TickResult(u, [], false)
      else
        var pid := if u.mlbb == MlbbRunning then input.mlbbPid else input.pidOf;
        if pid == 0 then TickResult(u.(gamePid := 0, gamestart := None), [], false)
        else
          TickResult(u.(gamePid := pid, mode := Performance, needCheckup := false),
                     [ApplyProfile(Performance), SetPriority(pid), Preload(u.gamestart.value)], false)
    else if input.lowPower then
      if u.mode == Powersave then TickResult(u, [], false)
      else TickResult(u.(mode := Powersave, needCheckup := false), [ApplyProfile(Powersave)], false)
    else
      if u.mode == Normal then TickResult(u, [], false)
      else TickResult(u.(mode := Normal, needCheckup := false), [ApplyProfile(Normal)], false)
  }

  /** One tick of the loop (lines 126-195). The update marker leaves the
      loop before anything changes or is applied; every other tick keeps
      the poll counter at 0 or 1 between ticks (so it never exceeds 2 when
      it is compared) and a tracked pid tied to a known game. */
  function Step(s: DaemonState, input: TickInput): (r: TickResult)
    ensures r.exit <==> input.updatePending
    ensures r.exit ==> r.state == s && r.effects == []
    ensures Valid(s) ==> Valid(r.state)
  {
    if input.updatePending then TickResult(s, [], true)
    else Decide(Prepared(s, input), input)
  }

  /** The loop over a finite sequence of ticks, until an update marker
      makes it exit. */
  function Run(s: DaemonState, inputs: seq<TickInput>): (r: TickResult)
    decreases |inputs|
    ensures Valid(s) ==> Valid(r.state)
  {
    if inputs == [] then TickResult(s, [], false)
    else
      var first := Step(s, inputs[0]);
      if first.exit then first
      else After(first.effects, Run(first.state, inputs[1..]))
  }

  /** `r`, preceded by some earlier effects. */
  function After(earlier: seq<Effect>, r: TickResult): TickResult {
    TickResult(r.state, earlier + r.effects, r.exit)
  }

  /** A run is its first tick, then the rest unless the first tick exits. */
  lemma RunFirstTick(s: DaemonState, inputs: seq<TickInput>)
    requires inputs != []
    ensures Run(s, inputs)
         == if Step(s, inputs[0]).exit then Step(s, inputs[0])
            else After(Step(s, inputs[0]).effects, Run(Step(s, inputs[0]).state, inputs[1..]))
  {
  }

  lemma AfterAfter(a: seq<Effect>, b: seq<Effect>, r: TickResult)
    ensures After(a, After(b, r)) == After(a + b, r)
  {
    assert a + (b + r.effects) == (a + b) + r.effects;
  }

  /** The daemon's state, as the object that runs the loop holds it. */
  class Daemon {
    var gamestart: Option<string>
    var gamePid: int
    var mode: ProfileMode
    var needCheckup: bool
    var pollTick: int
    var mlbb: MlbbState

    function State(): DaemonState
      reads this
    {
      DaemonState(gamestart, gamePid, mode, needCheckup, pollTick, mlbb)
    }

    /** Lines 117-123 and the globals' initial values. */
    constructor ()
      ensures State() == Initial
    {
      gamestart := None;
      gamePid := 0;
      needCheckup := false;
      mlbb := MlbbNotRunning;
      mode := PerfCommon;
      pollTick := 0;
    }

    /** One pass of the body of `while (1)`; `exit` plays the part of the
        source's `break`, the early returns of Decision its `continue`s. */
    method Tick(input: TickInput) returns (effects: seq<Effect>, exit: bool)
      modifies this
      ensures TickResult(State(), effects, exit) == Step(old(State()), input)
    {
      effects, exit := [], false;
      if input.updatePending {
        exit := true;
        return;
      }

      ghost var start := State();
      pollTick := pollTick + 1;
      if gamestart.None? || pollTick >= 2 {
        var newGame := input.detected;
        pollTick := 0;
        if newGame.Some? && (gamestart.None? || newGame.value != gamestart.value) {
          gamestart := newGame;
          needCheckup := true;
        }
      }
      assert State() == Detect(start, input);
      if gamePid != 0 && !input.pidAlive {
        gamePid := 0;
        gamestart := None;
        needCheckup := true;
      }
      if gamestart.Some? {
        mlbb := input.mlbb;
      }
      assert State() == Prepared(start, input);
      effects := Decision(input);
    }

    /** Lines 157-195 on the fields: the profile decision and its effects. */
    method Decision(input: TickInput) returns (effects: seq<Effect>)
      modifies this
      ensures TickResult(State(), effects, false) == Decide(old(State()), input)
    {
      effects := [];
      if gamestart.Some? && input.screenOn && mlbb != MlbbRunBackground {
        if !needCheckup && mode == Performance {
          return;
        }
        gamePid := if mlbb == MlbbRunning then input.mlbbPid else input.pidOf;
        if gamePid == 0 {
          gamestart := None;
          return;
        }
        mode := Performance;
        needCheckup := false;
        effects := [ApplyProfile(Performance), SetPriority(gamePid), Preload(gamestart.value)];
      } else if input.lowPower {
        if mode == Powersave {
          return;
        }
        mode := Powersave;
        needCheckup := false;
        effects := [ApplyProfile(Powersave)];
      } else {
        if mode == Normal {
          return;
        }
        mode := Normal;
        needCheckup := false;
        effects := [ApplyProfile(Normal)];
      }
    }
  }

  /** main from line 117 on: the start-up profile, then the loop over the
      given ticks until they run out or an update marker appears. */
  method RunDaemon(inputs: seq<TickInput>) returns (effects: seq<Effect>, final: DaemonState, exited: bool)
    ensures effects == [ApplyProfile(PerfCommon)] + Run(Initial, inputs).effects
    ensures final == Run(Initial, inputs).state && exited == Run(Initial, inputs).exit
    ensures Valid(final)
  {
    var daemon := new Daemon();
    var trace: seq<Effect> := [];
    exited := false;
    var i := 0;
    while i < |inputs| && !exited
      invariant 0 <= i <= |inputs|
      invariant !exited ==> Run(Initial, inputs) == After(trace, Run(daemon.State(), inputs[i..]))
      invariant exited ==> Run(Initial, inputs) == TickResult(daemon.State(), trace, true)
    {
      ghost var before := daemon.State();
      RunFirstTick(before, inputs[i..]);
      assert inputs[i..][0] == inputs[i] && inputs[i..][1..] == inputs[i + 1..];
      var tickEffects, stop := daemon.Tick(inputs[i]);
      assert TickResult(daemon.State(), tickEffects, stop) == Step(before, inputs[i]);
      if !stop {
        AfterAfter(trace, tickEffects, Run(daemon.State(), inputs[i + 1..]));
      }
      trace := trace + tickEffects;
      exited := stop;
      i := i + 1;
    }
    effects := [ApplyProfile(PerfCommon)] + trace;
    final := daemon.State();
  }

  // ---------------------------------------------------------------------
  // Properties of one tick

  /** Debounce: detection runs exactly when no game is known or the
      counter reaches 2; running it resets the counter, skipping it leaves
      the known game alone whatever get_gamestart would have said. */
  lemma DebounceRule(s: DaemonState, input: TickInput)
    requires Valid(s)
    ensures Detect(s, input).pollTick == 0 <==> DetectsThisTick(s)
    ensures !DetectsThisTick(s) ==> Detect(s, input) == s.(pollTick := s.pollTick + 1)
  {
  }

  /** The known game is replaced, and a checkup requested, only when
      detection runs and reports a game different from the known one; a
      detection that finds nothing keeps the known game. */
  lemma GameReplacedOnlyOnChange(s: DaemonState, input: TickInput)
    ensures Detect(s, input).gamestart != s.gamestart
        <==> DetectsThisTick(s) && input.detected.Some? && input.detected != s.gamestart
    ensures Detect(s, input).gamestart != s.gamestart
        ==> Detect(s, input).gamestart == input.detected && Detect(s, input).needCheckup
    ensures input.detected.None? ==> Detect(s, input).gamestart == s.gamestart
    ensures Detect(s, input).needCheckup != s.needCheckup ==> Detect(s, input).gamestart != s.gamestart
  {
  }

  /** A dead tracked process clears the game and the pid within the tick,
      even one detected earlier in the same tick, and the profile is decided
      again at once: powersave or normal, applied only if it differs from
      the current mode, and the checkup stays pending otherwise. */
  lemma DeadProcessResets(s: DaemonState, input: TickInput)
    requires !input.updatePending
    requires s.gamePid != 0 && !input.pidAlive
    ensures Step(s, input).state.gamestart == None && Step(s, input).state.gamePid == 0
    ensures var target := if input.lowPower then Powersave else Normal;
            Step(s, input).state.mode == target &&
            Step(s, input).effects == (if s.mode == target then [] else [ApplyProfile(target)]) &&
            Step(s, input).state.needCheckup == (s.mode == target)
  {
  }

  /** Each tick applies at most one profile: it does nothing, applies
      powersave or normal, or applies performance and then raises the
      priority of, and preloads, the game it now tracks by a non-zero pid.
      An applied profile becomes the current mode and settles the checkup. */
  lemma EffectsOfATick(s: DaemonState, input: TickInput)
    ensures var r := Step(s, input);
            r.effects == [] ||
            r.effects == [ApplyProfile(Powersave)] ||
            r.effects == [ApplyProfile(Normal)] ||
            (r.state.gamestart.Some? && r.state.gamePid != 0 &&
             r.effects == [ApplyProfile(Performance), SetPriority(r.state.gamePid), Preload(r.state.gamestart.value)])
    ensures var r := Step(s, input);
            r.effects != [] ==> r.effects[0] == ApplyProfile(r.state.mode) && !r.state.needCheckup
    ensures var r := Step(s, input);
            r.effects == [] ==> r.state.mode == s.mode
  {
  }

  /** A profile is applied only on a change of mode or, for performance,
      when a checkup is pending; and whenever the decided mode differs from
      the current one it is applied, unless no pid can be found for the game. */
  lemma ApplyOnlyOnChange(s: DaemonState, input: TickInput)
    requires !input.updatePending
    ensures var r := Step(s, input);
            r.effects != [] ==>
              r.state.mode != s.mode || (r.state.mode == Performance && Prepared(s, input).needCheckup)
    ensures var u := Prepared(s, input);
            var target := if WantsPerformance(u, input) then Performance
                          else if input.lowPower then Powersave else Normal;
            var pid := if u.mlbb == MlbbRunning then input.mlbbPid else input.pidOf;
            (target != u.mode && (target == Performance ==> pid != 0)
             ==> Step(s, input).effects != [] && Step(s, input).state.mode == target)
  {
  }

  /** When the performance branch cannot resolve a pid, the game is
      forgotten and nothing else changes: no profile, same mode, same
      checkup. */
  lemma MissingPidForgetsGame(s: DaemonState, input: TickInput)
    requires !input.updatePending
    requires var u := Prepared(s, input);
             WantsPerformance(u, input) && (u.needCheckup || u.mode != Performance)
             && (if u.mlbb == MlbbRunning then input.mlbbPid else input.pidOf) == 0
    ensures var u := Prepared(s, input);
            Step(s, input) == TickResult(u.(gamestart := None, gamePid := 0), [], false)
            && Step(s, input).state.mode == u.mode
            && Step(s, input).state.needCheckup == u.needCheckup
  {
  }

  /** Once performance is applied, a following tick with the same game in
      the foreground, its process alive and no checkup pending changes
      nothing and applies nothing. */
  lemma PerformanceIsSticky(s: DaemonState, first: TickInput, second: TickInput)
    requires Valid(s)
    requires ApplyProfile(Performance) in Step(s, first).effects
    requires !second.updatePending && second.pidAlive && second.screenOn
    requires second.mlbb != MlbbRunBackground
    requires second.detected.None? || second.detected == Step(s, first).state.gamestart
    ensures var t := Step(s, first).state;
            Step(t, second).effects == [] &&
            Step(t, second).state == Detect(t, second).(mlbb := second.mlbb)
  {
    EffectsOfATick(s, first);
  }

  /** Powersave and normal ignore the checkup flag: when the mode already
      matches, nothing is applied and a pending checkup stays pending. */
  lemma LowPowerAndNormalIgnoreCheckup(s: DaemonState, input: TickInput)
    requires !input.updatePending
    requires !WantsPerformance(Prepared(s, input), input)
    requires Prepared(s, input).mode == (if input.lowPower then Powersave else Normal)
    ensures Step(s, input) == TickResult(Prepared(s, input), [], false)
  {
  }

  // ---------------------------------------------------------------------
  // End-to-end scenarios

  /** Screen off, no game, no low power, already normal: nothing happens. */
  lemma ScenarioIdleScreenOff(s: DaemonState, input: TickInput)
    requires Valid(s) && s.gamestart.None? && s.mode == Normal
    requires !input.updatePending && input.detected.None? && !input.screenOn && !input.lowPower
    ensures Step(s, input).effects == []
  {
  }

  /** A newly detected game in the foreground with the screen on switches
      a normal daemon to performance, once, with priority and preload. */
  lemma ScenarioGameStarts(s: DaemonState, input: TickInput, game: string)
    requires Valid(s) && s.gamestart.None? && s.gamePid == 0 && s.mode == Normal
    requires !input.updatePending && input.detected == Some(game)
    requires input.screenOn && input.mlbb == MlbbNotRunning && input.pidOf != 0
    ensures Step(s, input).effects
         == [ApplyProfile(Performance), SetPriority(input.pidOf), Preload(game)]
    ensures Step(s, input).state.mode == Performance && !Step(s, input).state.needCheckup
  {
  }

  /** The game's process dies while the device is in low power: the game
      is dropped and powersave is applied in the same tick. */
  lemma ScenarioGameDiesOnLowPower(s: DaemonState, input: TickInput)
    requires Valid(s) && s.gamePid != 0 && s.mode == Performance
    requires !input.updatePending && !input.pidAlive && input.lowPower
    ensures Step(s, input).effects == [ApplyProfile(Powersave)]
    ensures Step(s, input).state.gamestart.None? && Step(s, input).state.mode == Powersave
  {
    DeadProcessResets(s, input);
  }

  // ---------------------------------------------------------------------
  // Properties of a run

  /** Over any run, every set_priority comes right after the performance
      profile, and every preload right after that set_priority. */
  lemma {:induction false} RunEffectsFollowPerformance(s: DaemonState, inputs: seq<TickInput>, k: nat)
    requires k < |Run(s, inputs).effects|
    ensures var e := Run(s, inputs).effects;
            e[k].SetPriority? ==> k >= 1 && e[k - 1] == ApplyProfile(Performance)
    ensures var e := Run(s, inputs).effects;
            e[k].Preload? ==> k >= 2 && e[k - 1].SetPriority? && e[k - 2] == ApplyProfile(Performance)
    decreases |inputs|
  {
    var first := Step(s, inputs[0]);
    EffectsOfATick(s, inputs[0]);
    if !first.exit {
      var rest := Run(first.state, inputs[1..]);
      var e := Run(s, inputs).effects;
      assert e == first.effects + rest.effects;
      if k >= |first.effects| {
        var j := k - |first.effects|;
        RunEffectsFollowPerformance(first.state, inputs[1..], j);
        assert e[k] == rest.effects[j];
        if j >= 1 {
          assert e[k - 1] == rest.effects[j - 1];
        }
        if j >= 2 {
          assert e[k - 2] == rest.effects[j - 2];
        }
      }
    }
  }
}
