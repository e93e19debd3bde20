/**
  A model of `CustomLunarLander_v1`, a placeholder lunar-lander environment for
  reinforcement-learning experiments.  The environment keeps a fuel counter and an
  8-dimensional observation; `Reset` starts an episode, `Step` applies one action
  under a fixed fuel/reward/termination policy, and `Render` yields a blank frame.

  The physics are a random placeholder in the original: the observation drawn at
  each step is passed to `Step` as a parameter and only its length is constrained.
 */
module LunarLander {

  // ---------------------------------------------------------------------------
  // Declared constants
  // ---------------------------------------------------------------------------

  /** Number of discrete actions: no-op, fire left, fire main, fire right. */
  const ActionCount: nat := 4
  /** Length of an observation: x, y, vx, vy, angle, angular velocity, two leg contacts. */
  const ObservationDim: nat := 8
  /** Fuel allotment when the environment is built without one. */
  const DefaultFuel: int := 100
  /** The one render mode that produces an image. */
  const RgbArray: string := "rgb_array"
  /** Shape of the blank frame returned by `Render`. */
  const FrameHeight: nat := 400
  const FrameWidth: nat := 600
  const FrameChannels: nat := 3

  // ---------------------------------------------------------------------------
  // Values exchanged with the training loop
  // ---------------------------------------------------------------------------

  /** An observation vector: always exactly `ObservationDim` reals. */
  type Observation = s: seq<real> | |s| == ObservationDim
    witness seq(8, _ => 0.0)

  /** The all-zero observation that starts every episode. */
  const ZeroObservation: Observation := seq(ObservationDim, _ => 0.0)

  /** The auxiliary information mapping returned by `Reset` and `Step`. */
  type Info = map<string, string>

  /** The information attached to a step that ends the episode for lack of fuel. */
  const OutOfFuelInfo: Info := map["reason" := "out_of_fuel"]

  /** An all-zero image, represented by its shape (height x width x channels). */
  datatype Frame = Frame(height: nat, width: nat, channels: nat)

  /** The fault raised when `Step` finds the fuel counter already negative. */
  datatype Fault = FuelBelowZero

  datatype Option<T> = None | Some(value: T)

  datatype Result<T> = Success(value: T) | Failure(fault: Fault)

  /** What one call of `Step` hands back to the training loop. */
  datatype StepResult = StepResult(
    observation: Observation,
    reward: real,
    terminated: bool,
    truncated: bool,
    info: Info)

  // ---------------------------------------------------------------------------
  // The fuel/reward/termination policy of one step
  // ---------------------------------------------------------------------------

  /** The part of a step that the policy decides: fuel afterwards, reward, termination, info. */
  datatype Outcome = Outcome(fuel: int, reward: real, terminated: bool, info: Info)

  /**
    The policy applied by one step on fuel level `fuel` (which the step has checked
    to be non-negative).  A thrust (any non-zero action) burns one unit if there is
    fuel and is rewarded; a thrust on an empty tank is penalised; a no-op earns
    nothing.  The episode terminates exactly when the tank is empty afterwards.
   */
  function Policy(fuel: int, action: int): (o: Outcome)
    requires fuel >= 0
    // fuel never goes up, never below zero, and at most one unit goes per step
    ensures 0 <= o.fuel <= fuel && fuel - o.fuel <= 1
    // one unit is burnt exactly when a thrust is asked for and there is fuel
    ensures o.fuel < fuel <==> action != 0 && fuel > 0
    // the reward says which of the three cases happened
    ensures o.reward == 1.0 <==> o.fuel < fuel
    ensures o.reward == -1.0 <==> action != 0 && fuel == 0
    ensures o.reward == 0.0 <==> action == 0
    // termination and its reason
    ensures o.terminated <==> o.fuel == 0
    ensures o.info == if o.terminated then OutOfFuelInfo else map[]
  {
    var burn := action != 0 && fuel > 0;
    var after := if burn then fuel - 1 else fuel;
    var reward := if burn then 1.0 else if action != 0 then -1.0 else 0.0;
    Outcome(after, reward, after <= 0, if after <= 0 then OutOfFuelInfo else map[])
  }

  // ---------------------------------------------------------------------------
  // The environment object
  // ---------------------------------------------------------------------------

  class Env {
    /** The fuel allotment restored by every reset; fixed at construction. */
    const initialFuel: int
    /** Selects whether `Render` produces an image; fixed at construction. */
    const renderMode: Option<string>

    /** Fuel left in the current episode. */
    var fuel: int
    /** The last observation; `None` until the first reset or step. */
    var state: Option<Observation>

    /**
      The invariant every reachable state keeps: fuel never exceeds the allotment,
      and it is negative only if the allotment itself was (a step then fails
      without touching anything).
     */
    ghost predicate Valid()
      reads this
    {
      fuel <= initialFuel && (fuel >= 0 || fuel == initialFuel)
    }

    constructor (fuel: int := DefaultFuel, renderMode: Option<string> := None)
      ensures Valid()
      ensures initialFuel == fuel && this.fuel == fuel
      ensures this.renderMode == renderMode && state == None
    {
      initialFuel := fuel;
      this.fuel := fuel;
      this.renderMode := renderMode;
      state := None;
    }

    /** Starts a new episode, whatever state the environment was left in. */
    method Reset() returns (observation: Observation, info: Info)
      modifies this
      ensures Valid()
      ensures fuel == initialFuel && state == Some(ZeroObservation)
      ensures observation == ZeroObservation && info == map[]
    {
      fuel := initialFuel;
      state := Some(ZeroObservation);
      observation, info := ZeroObservation, map[];
    }

    /**
      Advances one timestep with `action`; `draw` is the new observation produced by
      the (placeholder) dynamics.  The fuel check comes before any change, so a
      failing step leaves the environment exactly as it was.
     */
    method Step(action: int, draw: Observation) returns (r: Result<StepResult>)
      requires Valid()
      modifies this
      ensures Valid()
      ensures old(fuel) < 0 ==> r == Failure(FuelBelowZero) && fuel == old(fuel) && state == old(state)
      ensures old(fuel) >= 0 ==>
        var o := Policy(old(fuel), action);
        && fuel == o.fuel
        && state == Some(draw)
        && r == Success(StepResult(draw, o.reward, o.terminated, false, o.info))
      // the fuel check can only fail for an environment built with negative fuel
      ensures initialFuel >= 0 ==> r.Success? && 0 <= fuel <= old(fuel)
    {
      if fuel < 0 {
        return Failure(FuelBelowZero);
      }

      state := Some(draw);

      var reward := 0.0;
      var terminated := false;
      var truncated := false;
      var info: Info := map[];

      if action != 0 && fuel > 0 {
        fuel := fuel - 1;
        reward := reward + 1.0;
      } else if action != 0 && fuel <= 0 {
        reward := reward - 1.0;
      }

      if fuel <= 0 {
        terminated := true;
        info := info["reason" := "out_of_fuel"];
      }

      r := Success(StepResult(draw, reward, terminated, truncated, info));
    }

    /** A blank frame when the render mode is "rgb_array", nothing otherwise. */
    function Render(): (frame: Option<Frame>)
      ensures frame.Some? <==> renderMode == Some(RgbArray)
      ensures frame.Some? ==> frame.value == Frame(FrameHeight, FrameWidth, FrameChannels)
    {
      if renderMode == Some(RgbArray) then Some(Frame(FrameHeight, FrameWidth, FrameChannels)) else None
    }
  }


  // ---------------------------------------------------------------------------
  // Episodes: the training loop's sequence of steps after a reset
  // ---------------------------------------------------------------------------

  /** Number of thrust (non-zero) actions in `actions`. */
  function Thrusts(actions: seq<int>): nat
  {
    if actions == [] then 0
    else (if actions[0] != 0 then 1 else 0) + Thrusts(actions[1..])
  }

  /** The policy outcomes of stepping with `actions` in turn, starting on `fuel`. */
  function Run(fuel: int, actions: seq<int>): (trace: seq<Outcome>)
    requires fuel >= 0
    ensures |trace| == |actions|
    ensures forall i :: 0 <= i < |trace| ==> 0 <= trace[i].fuel <= fuel
    // every step reports termination, with its reason, exactly when the tank is empty
    ensures forall i :: 0 <= i < |trace| ==>
      (trace[i].terminated <==> trace[i].fuel == 0) &&
      trace[i].info == (if trace[i].terminated then OutOfFuelInfo else map[])
    // fuel only goes down along an episode
    ensures forall i, j :: 0 <= i <= j < |trace| ==> trace[j].fuel <= trace[i].fuel
    decreases |actions|
  {
    if actions == [] then []
    else
      var o := Policy(fuel, actions[0]);
      [o] + Run(o.fuel, actions[1..])
  }

  /** Fuel left after stepping with `actions` in turn, starting on `fuel`. */
  function FuelAfter(fuel: int, actions: seq<int>): (left: int)
    requires fuel >= 0
    ensures 0 <= left <= fuel
    decreases |actions|
  {
    if actions == [] then fuel else FuelAfter(Policy(fuel, actions[0]).fuel, actions[1..])
  }

  /** Sum of the rewards along a trace. */
  function TotalReward(trace: seq<Outcome>): real
  {
    if trace == [] then 0.0 else trace[0].reward + TotalReward(trace[1..])
  }

  /** The last outcome of a non-empty episode carries the fuel left at its end. */
  lemma {:induction false} RunEndsWithFuelAfter(fuel: int, actions: seq<int>)
    requires fuel >= 0 && actions != []
    ensures Run(fuel, actions)[|actions| - 1].fuel == FuelAfter(fuel, actions)
    decreases |actions|
  {
    if |actions| > 1 {
      RunEndsWithFuelAfter(Policy(fuel, actions[0]).fuel, actions[1..]);
    }
  }

  /** Every thrust burns a unit until the tank is empty: fuel left is max(0, fuel - thrusts). */
  lemma {:induction false} FuelAfterIsSaturatedDifference(fuel: int, actions: seq<int>)
    requires fuel >= 0
    ensures FuelAfter(fuel, actions) == if Thrusts(actions) >= fuel then 0 else fuel - Thrusts(actions)
    decreases |actions|
  {
    if actions != [] {
      FuelAfterIsSaturatedDifference(Policy(fuel, actions[0]).fuel, actions[1..]);
    }
  }

  /**
    The rewards of an episode balance the fuel: each unit burnt earns +1 and each
    thrust on an empty tank costs 1, so the total is 2 * burnt - thrusts.
   */
  lemma {:induction false} TotalRewardBalance(fuel: int, actions: seq<int>)
    requires fuel >= 0
    ensures TotalReward(Run(fuel, actions)) == (2 * (fuel - FuelAfter(fuel, actions)) - Thrusts(actions)) as real
    decreases |actions|
  {
    if actions != [] {
      var o := Policy(fuel, actions[0]);
      TotalRewardBalance(o.fuel, actions[1..]);
      assert Run(fuel, actions)[1..] == Run(o.fuel, actions[1..]);
    }
  }

  /**
    Termination is absorbing: once a step reports the tank empty, every later step
    (the environment does not refuse them) reports termination too.
   */
  lemma TerminationIsAbsorbing(fuel: int, actions: seq<int>, i: nat, j: nat)
    requires fuel >= 0
    requires i <= j < |actions|
    requires Run(fuel, actions)[i].terminated
    ensures Run(fuel, actions)[j].terminated
    ensures Run(fuel, actions)[j].info == OutOfFuelInfo
  {
  }

  /** An episode ends terminated exactly when it has at least as many thrusts as units of fuel. */
  lemma EnoughThrustsTerminate(fuel: int, actions: seq<int>)
    requires fuel >= 0 && actions != []
    ensures Run(fuel, actions)[|actions| - 1].terminated <==> Thrusts(actions) >= fuel
  {
    RunEndsWithFuelAfter(fuel, actions);
    FuelAfterIsSaturatedDifference(fuel, actions);
  }

  /** With 2 units of fuel, three thrusts earn +1, +1, -1 and terminate on the second. */
  lemma TwoFuelThreeThrusts()
    ensures Run(2, [1, 1, 1]) == [
      Outcome(1, 1.0, false, map[]),
      Outcome(0, 1.0, true, OutOfFuelInfo),
      Outcome(0, -1.0, true, OutOfFuelInfo)]
  {
  }

  /**
    The same scenario driven through the environment object: build with 2 units of
    fuel, reset, and thrust three times.
   */
  method TwoFuelScenario(draw: Observation) returns (rewards: seq<real>, fuels: seq<int>, terminations: seq<bool>)
    ensures rewards == [1.0, 1.0, -1.0]
    ensures fuels == [1, 0, 0]
    ensures terminations == [false, true, true]
  {
    var env := new Env(2);
    var _, _ := env.Reset();
    rewards, fuels, terminations := [], [], [];
    var r := env.Step(1, draw);
    rewards, fuels, terminations := rewards + [r.value.reward], fuels + [env.fuel], terminations + [r.value.terminated];
    r := env.Step(1, draw);
    rewards, fuels, terminations := rewards + [r.value.reward], fuels + [env.fuel], terminations + [r.value.terminated];
    r := env.Step(1, draw);
    rewards, fuels, terminations := rewards + [r.value.reward], fuels + [env.fuel], terminations + [r.value.terminated];
  }
}
