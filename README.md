# Custom lunar lander environment in Dafny

This project models `CustomLunarLander_v1`, a placeholder lunar-lander environment
for reinforcement-learning experiments. A training loop drives it. `reset` starts an
episode with a full tank and an all-zero 8-dimensional observation. `step(action)`
applies the fuel/reward/termination policy:

- a non-zero action (thrust) on a non-empty tank burns one unit and earns +1;
- a thrust on an empty tank earns -1;
- a no-op earns 0.

The episode terminates, with `info["reason"] = "out_of_fuel"`, exactly when the tank
is empty after the step. `render` returns a blank 400×600×3 frame when the render
mode is `"rgb_array"` and nothing otherwise.

Everything is in `lunar_lander.dfy`, module `LunarLander`:

- `Policy` states one step's rule as a pure function of the fuel level and the action.
- `Env` is the environment object. `initialFuel` and `renderMode` are `const` because
  nothing reassigns them after construction. `fuel` and `state` are fields that
  `Reset` and `Step` update in place. `Valid()` is the invariant every reachable state
  keeps.
- `Run`, `FuelAfter` and the lemmas beside them describe a whole episode: the
  sequence of steps a training loop makes after a reset.

The observation drawn at random by each step is a parameter of `Step` (`draw`). Its
type, `Observation`, is a sequence of exactly 8 reals. The shapes of the returned
values follow the source: `Step` returns the observation, the reward, `terminated`,
`truncated` (always false) and the info mapping.

Where the code accepts more than its evident intent (a non-negative fuel count), the model follows the code:

- The constructor accepts any integer fuel, including a negative one. For such an
  environment the `assert self.fuel >= 0` at the head of `step` fails. `Step` returns
  `Failure(FuelBelowZero)` in that case and changes nothing. For a non-negative
  integer allotment it is proved never to fail (fuel is an integer here; see
  "## Left out" for fractional allotments).
- The render mode is compared with `"rgb_array"` and may be any value, so it is an
  `Option<string>` rather than a two-valued enumeration.
- Actions are not validated. Any non-zero `int` is a thrust, and there is no range
  precondition.

## Model

| member | source | states |
|---|---|---|
| `LunarLander.Policy` | custom_gymnasium/custom_gymnasium/envs/custom_lunarlander.py:42-57 | On fuel `>= 0`, fuel stays in `[0, fuel]` and drops by at most one. One unit is burnt iff the action is non-zero and fuel is left. Reward is +1 iff a unit was burnt, -1 iff a thrust hit an empty tank, and 0 iff the action is 0. Terminated iff fuel after the step is 0. Info is `{"reason": "out_of_fuel"}` when terminated and empty otherwise |
| `LunarLander.Env.constructor` | custom_gymnasium/custom_gymnasium/envs/custom_lunarlander.py:9-16 | Stores the fuel allotment as both `initialFuel` and the current `fuel`, stores the render mode, leaves no observation, and establishes the invariant. Fuel defaults to 100 and the render mode to none |
| `LunarLander.Env.Reset` | custom_gymnasium/custom_gymnasium/envs/custom_lunarlander.py:30-34 | From any prior state, restores `fuel == initialFuel`, sets the state to the all-zero length-8 observation, and returns that observation with an empty info map |
| `LunarLander.Env.Step` | custom_gymnasium/custom_gymnasium/envs/custom_lunarlander.py:36-59 | If fuel is negative on entry, fails with `FuelBelowZero` and changes neither fuel nor state. Otherwise the new fuel, reward, termination and info are those of `Policy` on the old fuel, the state becomes the drawn length-8 observation, and `truncated` is false. Keeps `Valid()`. With a non-negative allotment it never fails and fuel never increases or goes negative |
| `LunarLander.Env.Render` | custom_gymnasium/custom_gymnasium/envs/custom_lunarlander.py:61-65 | Returns a frame iff the render mode is `"rgb_array"`, and that frame has shape 400×600×3. As a function of the constant render mode only, it changes no state and does not depend on the episode |
| `LunarLander.Run` | custom_gymnasium/custom_gymnasium/envs/custom_lunarlander.py:36-59 | Repeated steps give one outcome per action. Every fuel level lies in `[0, fuel]` and never increases from one step to a later one. Each step reports termination, with the out-of-fuel reason, exactly when its fuel is 0 |
| `LunarLander.FuelAfter` | custom_gymnasium/custom_gymnasium/envs/custom_lunarlander.py:48-49 | The fuel left after any sequence of actions lies between 0 and the starting fuel |
| `LunarLander.RunEndsWithFuelAfter` | custom_gymnasium/custom_gymnasium/envs/custom_lunarlander.py:48-49 | The last outcome of a non-empty episode carries exactly the fuel `FuelAfter` computes |
| `LunarLander.FuelAfterIsSaturatedDifference` | custom_gymnasium/custom_gymnasium/envs/custom_lunarlander.py:48-52 | The fuel left after an episode is `max(0, fuel - number of non-zero actions)`. No-ops cost nothing, and thrusts on an empty tank cost nothing |
| `LunarLander.TotalRewardBalance` | custom_gymnasium/custom_gymnasium/envs/custom_lunarlander.py:48-52 | The total reward of an episode is `2 * (units burnt) - (number of thrusts)`: +1 per unit burnt and -1 per thrust on an empty tank |
| `LunarLander.TerminationIsAbsorbing` | custom_gymnasium/custom_gymnasium/envs/custom_lunarlander.py:55-57 | Once a step reports termination, every later step does too, with the out-of-fuel reason. Nothing stops a driver from stepping past the end |
| `LunarLander.EnoughThrustsTerminate` | custom_gymnasium/custom_gymnasium/envs/custom_lunarlander.py:48-57 | A non-empty episode ends terminated if and only if it has at least as many thrusts as units of fuel |
| `LunarLander.TwoFuelThreeThrusts` | custom_gymnasium/custom_gymnasium/envs/custom_lunarlander.py:42-57 | Starting on 2 units, three thrusts give rewards +1, +1, -1, fuel 1, 0, 0 and terminated false, true, true |
| `LunarLander.TwoFuelScenario` | custom_gymnasium/custom_gymnasium/envs/custom_lunarlander.py:30-59 | The same scenario, driven through an `Env` built with fuel 2 and reset, yields the same rewards, fuel trace and terminations |

## Left out

- LunarLander.Env.Step: fuel is modelled as an integer count, but the constructor accepts any number. A fractional allotment (say 0.5) can drive fuel below 0 after one thrust (+1 reward, terminated), and the next step's assertion then fires; the model cannot represent that path, so `Env.Step`'s "never fails for a non-negative allotment" holds for integer allotments only.
- LunarLander.Env.Step: the fuel assertion is removed when Python runs with `-O`. A negative fuel then goes through the policy instead of failing; `Step`'s `Failure(FuelBelowZero)` models only the default interpreter mode.
- The random observation of each step (`np.random.randn(8)`): it is global randomness. `Step` takes it as the parameter `draw`, and only its length is constrained.
- `super().reset(seed=seed)` and the `seed` and `options` parameters of `reset`: the base-class behaviour lives in the gymnasium library, which is not part of this model. Neither parameter affects the fuel, reward or termination logic.
- The `spaces.Discrete(4)` and `spaces.Box` objects: they come from the gymnasium library. Only their constants are recorded (`ActionCount`, `ObservationDim`).
- `gravity`, `turbulence_power` and `metadata`: stored but read by no logic.
- The `float32` and `uint8` numpy dtypes. Observations are exact reals, and the rendered image is represented by its shape (`Frame`) rather than a pixel buffer.
- `scripts/class_example.py`: a demonstration of `super()` dispatch that only prints. It has no state to model.
