# gym-electric-motor in Dafny

A Dafny model of the core of gym-electric-motor. The package simulates
electric drives as reinforcement-learning environments. A drive is a chain
of components:

- a voltage supply;
- a power-electronic converter, which turns the agent's action into switching times and input voltages;
- an electric motor with its electrical ordinary differential equation (ODE);
- a mechanical load.

The chain is integrated by an ODE solver one sampling interval `tau` at a
time. The environment around it:

- resets and steps the physical system;
- asks a reference generator for references;
- asks a constraint monitor for the violation degree, which ends the episode at 1.0;
- asks a reward function for the reward;
- tells its callbacks before and after each phase;
- hands a seed to each of its random parts.

The model follows the source file by file:

| file | models |
|---|---|
| `common.dfy` | shared helpers: results, clipping, sorted unions of switching times, vector arithmetic |
| `counters.dfy` | the step, episode and time counters of a physical system (newer and older base class) |
| `ode_solvers.dfy` | the ODE solver interface and the explicit Euler solver with sub-steps |
| `supplies.dfy` | ideal and RC voltage supplies |
| `components.dfy` | the base class of the supply, converter, motor and load components |
| `loads.dfy` | the mechanical load base class and the constant-speed load |
| `dc_motors.dfy` | the DC motor base and its externally and permanently excited variants, with exact Jacobians |
| `finite_converters.dfy` | the finite-control-set converters: 1QC, 2QC, 4QC and B6 bridge |
| `multi_converters.dfy` | converters built from several sub-converters |
| `continuous_converters.dfy` | the dynamically averaged (continuous) converters |
| `seeding.dfy` | seed sequences and spawned children, as far as the components use them |
| `scml.dfy` | the supply-converter-motor-load system (`SCMLSystem`) |
| `legacy_scml.dfy` | the older SCML system of `physical_systems.py`, with its block Jacobian |
| `constraints.dfy` | the limit and squared constraints and the constraint monitor |
| `environment.dfy` | the environment (`ElectricMotorEnvironment`) |
| `legacy_environment.dfy` | the older environment with its state filter |
| `controllers.dfy` | the classic PI/PID/on-off/three-point controllers and the controllers composed from them |

Objects whose fields the source updates in place are classes with
`modifies` clauses. Their methods are specified by pure functions of the old
state, and the properties the source relies on are lemmas about those
functions. Collaborators the core only calls are records of function values
over an abstract world value:

- the motor, load, converter and supply as the SCML system sees them;
- the ODE right-hand side;
- the physical system, reference generator and reward function as the environment sees them.

Every Python exception on a path the source can take becomes an `Err` of a
`Result`. This covers assertion failures, missing keys, unknown names and
unbound locals.

## Model

| member | source | states |
|---|---|---|
| StepCounters.StepCounted | gym_electric_motor/core/physical_system.py:96-101 | one step adds one to both step counters and `tau` to both clocks |
| StepCounters.ResetCounters | gym_electric_motor/core/physical_system.py:74-81 | a reset zeroes the episode step and time and keeps the cumulative counters |
| StepCounters.CountStepPreserves | gym_electric_motor/core/physical_system.py:96-101 | counting a step keeps time equal to steps times `tau` and the episode count below the cumulative one |
| StepCounters.ResetPreserves | gym_electric_motor/core/physical_system.py:74-81 | a reset keeps that counter invariant |
| StepCounters.EpisodeTimeBelowCumulative | gym_electric_motor/core/physical_system.py:68-101 | with a non-negative step size the episode clock never exceeds the cumulative clock |
| StepCounters.StepsAfterReset | gym_electric_motor/core/physical_system.py:74-101 | after a reset and `n` steps the episode reads `n` steps and `n * tau` seconds and the cumulative count grew by `n` |
| StepCounters.PhysicalSystem.constructor | gym_electric_motor/core/physical_system.py:68-72 | all four counters start at zero |
| StepCounters.PhysicalSystem.Unwrapped | gym_electric_motor/core/physical_system.py:14-16 | a plain system unwraps to itself |
| StepCounters.PhysicalSystem.Reset | gym_electric_motor/core/physical_system.py:74-81 | the new counters are the reset of the old ones and stay consistent |
| StepCounters.PhysicalSystem.CountStep | gym_electric_motor/core/physical_system.py:96-101 | the new counters are the old ones advanced by one step and stay consistent |
| StepCounters.StatePositions | gym_electric_motor/core.py:313 | the table's keys are exactly the names, each maps to a position holding that name, and no later position holds it |
| StepCounters.PositionsOfDistinctNames | gym_electric_motor/core.py:313 | with distinct names the table maps each name back to its own position |
| StepCounters.LegacyPhysicalSystem.constructor | gym_electric_motor/core.py:302-315 | stores names, positions and `tau`, sets the step counter to zero and leaves the other counters unset |
| StepCounters.LegacyPhysicalSystem.CountStep | gym_electric_motor/core.py:338-343 | the step counter always grows by one; the other counters advance exactly when all of them are set, and otherwise the call fails |
| StepCounters.LegacyCountStepFailsAfterConstruction | gym_electric_motor/core.py:302-343 | counting a step on a freshly built legacy system always fails |
| OdeSolvers.EulerStep | gym_electric_motor/physical_systems/ode_solvers/euler_solver.py:56 | one explicit Euler step keeps the state's dimension |
| OdeSolvers.EulerStepToSameTime | gym_electric_motor/physical_systems/ode_solvers/euler_solver.py:56 | integrating up to the current time leaves the state unchanged |
| OdeSolvers.NStepEuler | gym_electric_motor/physical_systems/ode_solvers/euler_solver.py:36-45 | the substep loop keeps the state's dimension |
| OdeSolvers.NStepEulerUnfold | gym_electric_motor/physical_systems/ode_solvers/euler_solver.py:39-42 | one more substep adds the derivative at the next evaluation time, scaled by the substep width |
| OdeSolvers.EvaluationTimes | gym_electric_motor/physical_systems/ode_solvers/euler_solver.py:38-42 | the i-th substep evaluates at the first time plus `i` widths |
| OdeSolvers.NStepEulerAsWritten | gym_electric_motor/physical_systems/ode_solvers/euler_solver.py:36-45 | the loop as written, starting its clock at the target time, keeps the state's dimension |
| OdeSolvers.NStepEulerIntended | gym_electric_motor/physical_systems/ode_solvers/euler_solver.py:4-12 | the documented rule, starting its clock at the current time, keeps the state's dimension |
| OdeSolvers.AsWrittenEvaluatesAfterTarget | gym_electric_motor/physical_systems/ode_solvers/euler_solver.py:38-40 | for a forward step every derivative evaluation of the loop as written lies after the target time |
| OdeSolvers.IntendedEvaluatesInsideStep | gym_electric_motor/physical_systems/ode_solvers/euler_solver.py:4-12 | every evaluation of the intended rule lies in the interval from the current time up to the target |
| OdeSolvers.IntendedSingleStepIsEulerStep | gym_electric_motor/physical_systems/ode_solvers/euler_solver.py:47-58 | with one substep the intended rule equals the one-step rule |
| OdeSolvers.AutonomousRulesAgree | gym_electric_motor/physical_systems/ode_solvers/euler_solver.py:36-45 | for an equation that ignores time the start of the clock does not matter |
| OdeSolvers.TimeAsRate | gym_electric_motor/physical_systems/ode_solvers/euler_solver.py:40 | the test equation `f(t, y) = t` in every component |
| OdeSolvers.AsWrittenCounterexample | gym_electric_motor/physical_systems/ode_solvers/euler_solver.py:36-45 | for `f(t, y) = t` from 0 to 1 in two substeps the loop as written gives 1.75 where the documented rule gives 0.25 |
| OdeSolvers.EulerSolver.constructor | gym_electric_motor/physical_systems/ode_solvers/euler_solver.py:14-21 | stores the substep count; time 0 and nothing else set |
| OdeSolvers.EulerSolver.SetInitialValue | gym_electric_motor/physical_systems/ode_solvers/ode_solver.py:31-39 | sets the state and the time and nothing else |
| OdeSolvers.EulerSolver.SetSystemEquation | gym_electric_motor/physical_systems/ode_solvers/ode_solver.py:51-59 | stores the equation and the Jacobian and nothing else |
| OdeSolvers.EulerSolver.SetFParams | gym_electric_motor/physical_systems/ode_solvers/ode_solver.py:61-67 | stores the extra parameters and nothing else |
| OdeSolvers.EulerSolver.Integrate | gym_electric_motor/physical_systems/ode_solvers/euler_solver.py:14-58 | fails exactly when the count is zero, when a positive count finds the state, equation or parameters unset, or when a negative count finds no state; otherwise the one-step rule when the count is 1, the documented substep rule when it is larger, the unchanged state when it is negative, and the time becomes the target |
| OdeSolvers.EulerSolver.IntegrateOneStep | gym_electric_motor/physical_systems/ode_solvers/euler_solver.py:47-58 | the new state is one Euler step from the old time to the target |
| OdeSolvers.EulerSolver.IntegrateNSteps | gym_electric_motor/physical_systems/ode_solvers/euler_solver.py:27-45 | the new state is the documented substep rule for a positive count and the old state for a negative one |
| OdeSolvers.SolveIvpForwardsJacobian | gym_electric_motor/physical_systems/solvers.py:187-194 | the `solve_ivp` wrapper hands the Jacobian on exactly for the methods the `scipy.integrate.ode` wrapper's table marks as using one (Radau, BDF, LSODA), and not when no method is given |
| OdeSolvers.ScipyOdeSolverSupportsJacobian | gym_electric_motor/physical_systems/solvers.py:220-228 | an unknown method name fails; otherwise the Jacobian is used exactly when the caller left the choice open and the method is Radau, BDF or LSODA |
| OdeSolvers.ExplicitJacobianRequestIgnored | gym_electric_motor/physical_systems/solvers.py:224-227 | an explicit request for the Jacobian always yields no Jacobian |
| OdeSolvers.ScipyOdeSolver.constructor | gym_electric_motor/physical_systems/solvers.py:220-236 | no stepper built yet and the rebuild flag set |
| OdeSolvers.ScipyOdeSolver.SetInitialValue | gym_electric_motor/physical_systems/solvers.py:238-240 | sets state and time and marks the stepper stale |
| OdeSolvers.ScipyOdeSolver.Integrate | gym_electric_motor/physical_systems/solvers.py:256-268 | rebuilds the stepper from the old time and state exactly when it was stale, clears the flag, and takes the stepper's outcome as the new state and time |
| Supplies.IdealVoltageSupply.constructor | gym_electric_motor/physical_systems/voltage_supplies/ideal_voltage_supply.py:30-33 | stores the shape, then sets the nominal voltage through the setter, so a number fills the given shape |
| Supplies.IdealVoltageSupply.SetUNominal | gym_electric_motor/physical_systems/voltage_supplies/ideal_voltage_supply.py:17-24 | a number fills the current shape, an array is copied and fixes the new shape |
| Supplies.IdealVoltageSupply.USup | gym_electric_motor/physical_systems/voltage_supplies/ideal_voltage_supply.py:13-15 | the supplied voltage is the nominal voltage and has the supply's shape |
| Supplies.IdealVoltageSupply.GetUSup | gym_electric_motor/physical_systems/voltage_supplies/ideal_voltage_supply.py:35-37 | time and current have no influence on the supplied voltage |
| Supplies.RcEquation | gym_electric_motor/physical_systems/voltage_supplies/rc_voltage_supply.py:41-43 | the derivative times `R C` is `u_0 - u - R i_sup` |
| Supplies.RcEquilibrium | gym_electric_motor/physical_systems/voltage_supplies/rc_voltage_supply.py:41-43 | the voltage is stationary exactly at `u_0 - R i_sup` |
| Supplies.RcStepApproachesEquilibrium | gym_electric_motor/physical_systems/voltage_supplies/rc_voltage_supply.py:52-56 | an Euler step no longer than the time constant lands between the old voltage and the equilibrium |
| Supplies.EffectiveRcParameters | gym_electric_motor/physical_systems/voltage_supplies/rc_voltage_supply.py:24 | a missing or empty parameter dict is replaced by R = 1 and C = 4e-3; any other dict is used as given |
| Supplies.RcVoltageSupply.constructor | gym_electric_motor/physical_systems/voltage_supplies/rc_voltage_supply.py:23-39 | the supply range is from 0 to the nominal voltage, the capacitor starts charged, the warning fires exactly when `R C < 1e-4`, and the solver has an equation but no state |
| Supplies.RcVoltageSupply.Reset | gym_electric_motor/physical_systems/voltage_supplies/rc_voltage_supply.py:45-50 | the solver restarts at time 0 with the charged voltage, which is returned |
| Supplies.RcVoltageSupply.GetVoltage | gym_electric_motor/physical_systems/voltage_supplies/rc_voltage_supply.py:52-56 | stores the parameters, fails exactly before the first reset or with a zero time constant, and otherwise the voltage is one Euler step of the RC equation up to `t` |
| Supplies.NewRcVoltageSupply | gym_electric_motor/physical_systems/voltage_supplies/rc_voltage_supply.py:11-39 | succeeds exactly when the effective dict holds both `R` and `C`, and then the supply uses those values |
| Supplies.DefaultRcSupplyDoesNotWarn | gym_electric_motor/physical_systems/voltage_supplies/rc_voltage_supply.py:24-35 | the default parameters never trigger the time-constant warning |
| Components.ObservationTexNames | gym_electric_motor/physical_systems/scml_component.py:17-19 | the TeX names are the plain names unless a component overrides them |
| Components.ObservationTexUnits | gym_electric_motor/physical_systems/scml_component.py:21-23 | the TeX units are the plain units unless a component overrides them |
| Components.DefaultObservation | gym_electric_motor/physical_systems/scml_component.py:37-38 | a component that does not override it observes nothing |
| Components.FlattenSkipsEmpty | gym_electric_motor/physical_systems/scml_component.py:25-31 | an empty block anywhere leaves a concatenation unchanged |
| Components.DefaultContributesNothing | gym_electric_motor/physical_systems/scml_component.py:9-31 | a default component adds nothing to a system's concatenated names, limits and nominal values |
| Loads.MechanicalLoad.constructor | gym_electric_motor/physical_systems/mechanical_loads/mechanical_load.py:30-37 | the total inertia starts at the load's own inertia; no ODE states and no Jacobian |
| Loads.MechanicalLoad.SetJRotor | gym_electric_motor/physical_systems/mechanical_loads/mechanical_load.py:46-51 | the rotor inertia is added to the total, so repeated calls accumulate |
| Loads.DefaultMechanicalOde | gym_electric_motor/physical_systems/mechanical_loads/mechanical_load.py:53-64 | the base load has no derivatives |
| Loads.DefaultMechanicalJacobian | gym_electric_motor/physical_systems/mechanical_loads/mechanical_load.py:66-82 | the base load's Jacobian is a pair of empty arrays |
| Loads.ConstantSpeedLoad.constructor | gym_electric_motor/physical_systems/mechanical_loads/constant_speed_load.py:64-71 | builds the base load with the given inertia and sets the speed through the setter |
| Loads.ConstantSpeedLoad.SetOmega | gym_electric_motor/physical_systems/mechanical_loads/constant_speed_load.py:44-51 | a number fills the stored shape, an array is copied and fixes the new shape |
| Loads.ConstantSpeedLoad.SpeedShape | gym_electric_motor/physical_systems/mechanical_loads/constant_speed_load.py:53-55 | the speed shape is the length of the stored speed |
| Loads.ConstantSpeedLoad.GetOmega | gym_electric_motor/physical_systems/mechanical_loads/constant_speed_load.py:57-62 | the speed is the fixed value whatever the load state |
| Loads.ConstantSpeedLoad.Info | gym_electric_motor/physical_systems/mechanical_loads/constant_speed_load.py:12-34 | the only observed name is `omega`, and limits and nominal state are both the fixed speed |
| Loads.ConstantSpeedLoad.GetObservation | gym_electric_motor/physical_systems/mechanical_loads/constant_speed_load.py:73-74 | the observation is the limit, i.e. the fixed speed |
| DcMotors.UpdateParameterDict | gym_electric_motor/physical_systems/electric_motors/electric_motor.py:64 | the merged dict has the keys of both, the user's values win, and the defaults fill the rest |
| DcMotors.AlignedArray | gym_electric_motor/physical_systems/electric_motors/electric_motor.py:75-76 | fails exactly when a name is missing from the dict; otherwise entry `i` is the value of name `i` |
| DcMotors.ElectricMotorSetup | gym_electric_motor/physical_systems/electric_motors/electric_motor.py:54-76 | succeeds exactly when every observed name has a limit and a nominal value; then the parameters are the merged dict, and each limit and nominal entry is the user's value for that name or else the default |
| DcMotors.DefaultMotorsBuild | gym_electric_motor/physical_systems/electric_motors/dc_motor.py:59-66 | both DC motors build from their default dicts alone |
| DcMotors.DcModelConstants | gym_electric_motor/physical_systems/electric_motors/dc_motor.py:85-99 | the model matrix has two rows of five constants |
| DcMotors.DcOde | gym_electric_motor/physical_systems/electric_motors/dc_motor.py:109-121 | the ODE has one derivative per current |
| DcMotors.DcOdeCircuitEquations | gym_electric_motor/physical_systems/electric_motors/dc_motor.py:85-121 | the matrix product is the armature equation `(-r_a i_a - l_e' omega i_e + u_a) / l_a` and the excitation equation `(-r_e i_e + u_e) / l_e` |
| DcMotors.DcIIn | gym_electric_motor/physical_systems/electric_motors/dc_motor.py:105-107 | the input currents are the motor state |
| DcMotors.DcJacobian | gym_electric_motor/physical_systems/electric_motors/dc_motor.py:123-133 | a 2 by 2 state block, a 2-entry omega column and a 2-entry torque gradient |
| DcMotors.DcJacobianStateColumnsExact | gym_electric_motor/physical_systems/electric_motors/dc_motor.py:123-133 | each column of the state block is the exact partial derivative of the ODE with respect to that current |
| DcMotors.DcJacobianOmegaColumnExact | gym_electric_motor/physical_systems/electric_motors/dc_motor.py:123-133 | the omega column is the exact partial derivative of the ODE with respect to omega |
| DcMotors.DcTorqueGradientExact | gym_electric_motor/physical_systems/electric_motors/dc_motor.py:101-133 | the torque gradient is the exact partial derivative of `l_e' i_a i_e` |
| DcMotors.DcUpdateLimits | gym_electric_motor/physical_systems/electric_motors/dc_motor.py:135-142 | fails exactly without current limits; otherwise the torque limit is the torque at the current limits as they stood, the agenda overrides, and other limits are kept |
| DcMotors.GuardedResistance | gym_electric_motor/physical_systems/electric_motors/dc_externally_excited_motor.py:15 | never zero, and equal to the resistance when that is nonzero |
| DcMotors.LimitOr | gym_electric_motor/physical_systems/electric_motors/dc_externally_excited_motor.py:21-24 | a missing or zero limit falls back, any other limit is used |
| DcMotors.ExternallyExcitedLimits | gym_electric_motor/physical_systems/electric_motors/dc_externally_excited_motor.py:12-26 | both voltages get the default limit; both currents get the general current limit when set, otherwise the voltage limit over the circuit's resistance; fails exactly when that needs a missing voltage limit or a zero excitation resistance, or a current limit is missing |
| DcMotors.ZeroArmatureResistanceIsGuarded | gym_electric_motor/physical_systems/electric_motors/dc_externally_excited_motor.py:14-22 | a zero armature resistance counts as 1, so the armature current limit equals the voltage limit |
| DcMotors.PeModelConstants | gym_electric_motor/physical_systems/electric_motors/permanently_excited_dc_motor.py:82-88 | one row of three constants |
| DcMotors.PeOde | gym_electric_motor/physical_systems/electric_motors/permanently_excited_dc_motor.py:94-101 | one derivative for the one current |
| DcMotors.PeOdeCircuitEquation | gym_electric_motor/physical_systems/electric_motors/permanently_excited_dc_motor.py:82-101 | the matrix product is `(-psi_e omega - r_a i + u) / l_a` |
| DcMotors.PeJacobian | gym_electric_motor/physical_systems/electric_motors/permanently_excited_dc_motor.py:103-109 | each part of the Jacobian has one entry |
| DcMotors.PeJacobianExact | gym_electric_motor/physical_systems/electric_motors/permanently_excited_dc_motor.py:78-109 | the three parts are the exact partial derivatives of the ODE in the current and in omega, and of the torque in the current |
| DcMotors.PeObservation | gym_electric_motor/physical_systems/electric_motors/permanently_excited_dc_motor.py:111-115 | the observation is torque, current and input voltage, in that order |
| DcMotors.PermanentlyExcitedLimits | gym_electric_motor/physical_systems/electric_motors/dc_permanently_excited_motor.py:87-97 | fails exactly without voltage and current limits; otherwise the voltage gets the default limit, the current limit times the guarded resistance is the voltage limit, and the torque limit is the torque at the old current limit |
| DcMotors.PeStateSpace | gym_electric_motor/physical_systems/electric_motors/dc_permanently_excited_motor.py:99-114 | speed and voltage may go negative exactly when the voltages can, torque and current exactly when the currents can; every upper bound is 1 |
| FiniteConverters.TwoQuadrantPattern | gym_electric_motor/physical_systems/converters/finite_control_set/finite_two_quadrant_converter.py:57-69 | the pattern ends with the action and its times end at the step's end; it has one entry or two, with one time per entry |
| FiniteConverters.TwoQuadrantNoShootThrough | gym_electric_motor/physical_systems/converters/finite_control_set/finite_two_quadrant_converter.py:57-69 | with a nonzero interlocking time the converter never switches straight between the upper and the lower transistor |
| FiniteConverters.TwoQuadrantTimesAscend | gym_electric_motor/physical_systems/converters/finite_control_set/finite_two_quadrant_converter.py:57-69 | with an interlocking time shorter than the step the switching times ascend |
| FiniteConverters.ActiveStateFollowsPattern | gym_electric_motor/physical_systems/converters/finite_control_set/finite_two_quadrant_converter.py:27-34 | during the interlocking period of a bridged switch both transistors are off, and afterwards the action holds |
| FiniteConverters.TwoQuadrantVoltage | gym_electric_motor/physical_systems/converters/finite_control_set/finite_two_quadrant_converter.py:35-44 | fails exactly on an invalid switching state; otherwise the supply voltage when the state passes it and 0 when it does not |
| FiniteConverters.TwoQuadrantCurrent | gym_electric_motor/physical_systems/converters/finite_control_set/finite_two_quadrant_converter.py:46-55 | fails exactly on an invalid switching state; otherwise the output current when the state passes the supply and 0 when it does not |
| FiniteConverters.TwoQuadrantPowerBalance | gym_electric_motor/physical_systems/converters/finite_control_set/finite_two_quadrant_converter.py:27-55 | in every valid switching state output power equals supply power |
| FiniteConverters.FiniteTwoQuadrantConverter.constructor | gym_electric_motor/physical_systems/converters/power_electronic_converter.py:34-43 | reset action 0 at start time 0, switching state 0 and no pattern yet |
| FiniteConverters.FiniteTwoQuadrantConverter.Reset | gym_electric_motor/physical_systems/converters/power_electronic_converter.py:45-49 | the reset action at time 0 and the output 0; the pattern and switching state are kept |
| FiniteConverters.FiniteTwoQuadrantConverter.SetAction | gym_electric_motor/physical_systems/converters/finite_control_set/finite_converter.py:19-22 | an action outside 0..2 fails and changes nothing; otherwise the action and its start time are stored and pattern and times are the two-quadrant pattern |
| FiniteConverters.FiniteTwoQuadrantConverter.Convert | gym_electric_motor/physical_systems/converters/finite_control_set/finite_two_quadrant_converter.py:27-44 | without a pattern the call fails; otherwise the switching state becomes the one in force at `t` and the voltage is that state's |
| FiniteConverters.FiniteTwoQuadrantConverter.ISup | gym_electric_motor/physical_systems/converters/finite_control_set/finite_two_quadrant_converter.py:46-55 | the supply current of the switching state last chosen |
| FiniteConverters.OneQuadrantVoltage | gym_electric_motor/physical_systems/converters/finite_control_set/finite_one_quadrant_converter.py:27-29 | a negative current passes the supply voltage through the diode; otherwise the action times the supply voltage |
| FiniteConverters.OneQuadrantCurrent | gym_electric_motor/physical_systems/converters/finite_control_set/finite_one_quadrant_converter.py:31-33 | the output current while the transistor is on and 0 otherwise |
| FiniteConverters.OneQuadrantPowerBalance | gym_electric_motor/physical_systems/converters/finite_control_set/finite_one_quadrant_converter.py:27-33 | for a non-negative current output power equals supply power |
| FiniteConverters.FiniteOneQuadrantConverter.constructor | gym_electric_motor/physical_systems/converters/power_electronic_converter.py:34-43 | reset action 0 at start time 0 and no pattern yet |
| FiniteConverters.FiniteOneQuadrantConverter.Reset | gym_electric_motor/physical_systems/converters/power_electronic_converter.py:45-49 | the reset action at time 0 and the output 0 |
| FiniteConverters.FiniteOneQuadrantConverter.SetAction | gym_electric_motor/physical_systems/converters/finite_control_set/finite_converter.py:19-22 | an action outside 0..1 fails and changes nothing; otherwise the action holds for the whole step, switching once at its end |
| FiniteConverters.FiniteOneQuadrantConverter.Convert | gym_electric_motor/physical_systems/converters/finite_control_set/finite_one_quadrant_converter.py:27-29 | the one-quadrant voltage of the current action |
| FiniteConverters.FiniteOneQuadrantConverter.ISup | gym_electric_motor/physical_systems/converters/finite_control_set/finite_one_quadrant_converter.py:31-33 | the one-quadrant supply current of the current action |
| FiniteConverters.FourQuadrantSubactions | gym_electric_motor/physical_systems/converters/finite_control_set/finite_four_quadrant_converter.py:47-48 | the first half bridge is upper for actions 0 and 1, the second for actions 0 and 2 |
| FiniteConverters.FourQuadrantOperatingPoints | gym_electric_motor/physical_systems/converters/finite_control_set/finite_four_quadrant_converter.py:39-56 | once both half bridges are in their sub-action's state the four actions give 0, `u`, `-u` and 0 and draw 0, `i`, `-i` and 0 |
| FiniteConverters.FourQuadrantPowerBalance | gym_electric_motor/physical_systems/converters/finite_control_set/finite_four_quadrant_converter.py:39-56 | in every valid pair of switching states output power equals supply power |
| FiniteConverters.FiniteFourQuadrantConverter.constructor | gym_electric_motor/physical_systems/converters/finite_control_set/finite_four_quadrant_converter.py:29-32 | two fresh half bridges with the converter's step and interlocking time |
| FiniteConverters.FiniteFourQuadrantConverter.Reset | gym_electric_motor/physical_systems/converters/finite_control_set/finite_four_quadrant_converter.py:34-37 | both half bridges are reset |
| FiniteConverters.FiniteFourQuadrantConverter.SetAction | gym_electric_motor/physical_systems/converters/finite_control_set/finite_four_quadrant_converter.py:43-52 | an action outside 0..3 fails and changes nothing; otherwise each half bridge takes its sub-action and the result is the sorted union of their switching times |
| FiniteConverters.FiniteFourQuadrantConverter.Convert | gym_electric_motor/physical_systems/converters/finite_control_set/finite_four_quadrant_converter.py:39-41 | fails exactly when a half bridge has no pattern; otherwise both pick their state in force and, on the first supply voltage, the voltage is the first on `i` minus the second on `-i` |
| FiniteConverters.FiniteFourQuadrantConverter.ISup | gym_electric_motor/physical_systems/converters/finite_control_set/finite_four_quadrant_converter.py:54-56 | the first half bridge's supply current on `i` plus the second's on `-i` |
| FiniteConverters.Pow2 | gym_electric_motor/physical_systems/converters/finite_control_set/finite_b6_bridge_converter.py:52-61 | a power of two is positive |
| FiniteConverters.B6LegsFollowBits | gym_electric_motor/physical_systems/converters/finite_control_set/finite_b6_bridge_converter.py:52-61 | the action table reads the action as three bits, most significant first: a set bit puts that leg on the upper transistor |
| FiniteConverters.B6Voltages | gym_electric_motor/physical_systems/converters/finite_control_set/finite_b6_bridge_converter.py:77-84 | fails exactly on an invalid leg state; otherwise each phase voltage is its leg's output minus the constant 0.5, which is half the supply only for a unit supply voltage |
| FiniteConverters.B6Current | gym_electric_motor/physical_systems/converters/finite_control_set/finite_b6_bridge_converter.py:97-99 | fails exactly on an invalid leg state; otherwise the sum of the legs' supply currents |
| FiniteConverters.B6PowerBalance | gym_electric_motor/physical_systems/converters/finite_control_set/finite_b6_bridge_converter.py:77-99 | with a unit supply and phase currents summing to zero, output power equals supply power |
| FiniteConverters.FiniteB6BridgeConverter.constructor | gym_electric_motor/physical_systems/converters/finite_control_set/finite_b6_bridge_converter.py:63-70 | three fresh legs with the converter's step and interlocking time |
| FiniteConverters.FiniteB6BridgeConverter.Reset | gym_electric_motor/physical_systems/converters/finite_control_set/finite_b6_bridge_converter.py:72-75 | the three legs are reset |
| FiniteConverters.FiniteB6BridgeConverter.SetAction | gym_electric_motor/physical_systems/converters/finite_control_set/finite_b6_bridge_converter.py:86-95 | an action outside 0..7 fails and changes nothing; otherwise each leg takes its entry of the table and the result is the sorted union of their switching times |
| FiniteConverters.FiniteB6BridgeConverter.Convert | gym_electric_motor/physical_systems/converters/finite_control_set/finite_b6_bridge_converter.py:77-84 | fails exactly when a leg has no pattern; otherwise each leg picks its state in force and the result is the B6 phase voltages of the legs on the first supply voltage |
| FiniteConverters.FiniteB6BridgeConverter.ISup | gym_electric_motor/physical_systems/converters/finite_control_set/finite_b6_bridge_converter.py:97-99 | the B6 supply current of the legs' states |
| FiniteConverters.NoConverter.constructor | gym_electric_motor/physical_systems/converters/power_electronic_converter.py:34-43 | no action yet, start time 0 and no pattern |
| FiniteConverters.NoConverter.Reset | gym_electric_motor/physical_systems/converters/power_electronic_converter.py:45-49 | no action at time 0 and the output 0 |
| FiniteConverters.NoConverter.SetAction | gym_electric_motor/physical_systems/converters/power_electronic_converter.py:51-63 | stores the action and its start time unchecked; the only switching time is the step's end |
| FiniteConverters.NoConverter.Convert | gym_electric_motor/physical_systems/converters/no_converter.py:15-16 | the motor sees the supply voltage |
| FiniteConverters.NoConverter.ISup | gym_electric_motor/physical_systems/converters/no_converter.py:12-13 | the supply delivers the motor currents |
| MultiConverters.Block | gym_electric_motor/physical_systems/converters/finite_control_set/finite_multi_converter.py:42-46 | part `k` of a signal cut into consecutive blocks is as long as sub-converter `k`'s dimension |
| MultiConverters.Blocks | gym_electric_motor/physical_systems/converters/finite_control_set/finite_multi_converter.py:42-46 | the list of all parts, one per sub-converter |
| MultiConverters.BlocksReassemble | gym_electric_motor/physical_systems/converters/finite_control_set/finite_multi_converter.py:42-46 | the parts put back together give the signal up to the total dimension |
| MultiConverters.SubConverterSlices | gym_electric_motor/physical_systems/converters/finite_control_set/finite_multi_converter.py:42-46 | slice `k` runs from the sum of the earlier dimensions to that sum plus its own |
| MultiConverters.InFlatten | gym_electric_motor/physical_systems/converters/continuous_dynamically_averaged_control_set/continuous_multi_converter.py:75-83 | a value is in a concatenation exactly when it is in one of the parts |
| MultiConverters.VoltageDims | gym_electric_motor/physical_systems/converters/finite_control_set/finite_multi_converter.py:44-45 | the voltage dimension of each sub-converter, in order |
| MultiConverters.BroadcastSupply | gym_electric_motor/physical_systems/converters/finite_control_set/finite_multi_converter.py:51-52 | a single supply voltage is repeated once per sub-converter; a longer list is used as given |
| MultiConverters.FiniteOutputs | gym_electric_motor/physical_systems/converters/finite_control_set/finite_multi_converter.py:54-55 | one output per sub-converter and supply voltage, as many as the shorter list |
| MultiConverters.BroadcastSupplyAsWritten | gym_electric_motor/physical_systems/converters/finite_control_set/finite_multi_converter.py:51-52 | as written, multiplying the supply array never adds an entry: a single supply voltage stays one entry, multiplied by the number of sub-converters |
| MultiConverters.TwoQuadrantBare | gym_electric_motor/physical_systems/converters/finite_control_set/finite_two_quadrant_converter.py:27-44 | handed a bare number as supply, the 2QC raises exactly in an invalid switching state, hands the bare number back exactly where it passes the supply, and otherwise lists 0 |
| MultiConverters.BareSupplyReply | gym_electric_motor/physical_systems/converters/finite_control_set/finite_multi_converter.py:54-55 | what each kind of sub-converter does with the bare supply number it is handed as written: a 1QC or a B6 bridge always raises, a 2QC answers as `TwoQuadrantBare`, a 4QC lists only when both half bridges list, and a listed answer is always `[0.0]` |
| MultiConverters.BareReplies | gym_electric_motor/physical_systems/converters/finite_control_set/finite_multi_converter.py:54-55 | one reply per pair the zip forms (the shorter of converters and supplies): each is the sub-converter's answer to its bare supply number and its current block, and a listed answer is always `[0.0]` |
| MultiConverters.BareOutputs | gym_electric_motor/physical_systems/converters/finite_control_set/finite_multi_converter.py:54-55 | the `u_in +=` loop over those replies from one position on: succeeds exactly when every reply from there is a list, and then yields one zero per reply; otherwise fails with the error of a reply that is not a list |
| MultiConverters.FiniteMultiConvertAsWritten | gym_electric_motor/physical_systems/converters/finite_control_set/finite_multi_converter.py:48-56 | `convert` as written: succeeds exactly when every sub-converter the zip reaches answers its bare supply number with a list, and then outputs only zeros, so the supply voltage never reaches the motor |
| MultiConverters.MultiSupplyAsWrittenDrivesFirstOnly | gym_electric_motor/physical_systems/converters/finite_control_set/finite_multi_converter.py:50-56 | as written, a single supply voltage reaches only the first sub-converter, multiplied by the number of sub-converters; the call succeeds exactly when that sub-converter lists, and then outputs `[0.0]` |
| MultiConverters.OneQuadrantPair | gym_electric_motor/physical_systems/converters/finite_control_set/finite_one_quadrant_converter.py:27-29 | two one-voltage sub-converters whose `convert` is the 1QC's rule on the first current and the first supply voltage |
| MultiConverters.MultiSupplyAsWrittenRaises | gym_electric_motor/physical_systems/converters/finite_control_set/finite_multi_converter.py:50-56 | two switched-on 1QCs on a supply of 1.0 with unit currents: as written the call raises IndexError; with the supply repeated the outputs are 1.0 and 1.0 |
| MultiConverters.SingleSupplyReachesEverySub | gym_electric_motor/physical_systems/converters/finite_control_set/finite_multi_converter.py:51-55 | with the supply repeated, every sub-converter converts its own slice of the currents on the one supply voltage |
| MultiConverters.FiniteMultiConverter.constructor | gym_electric_motor/physical_systems/converters/finite_control_set/finite_multi_converter.py:29-46 | stores the sub-converters |
| MultiConverters.FiniteMultiConverter.Convert | gym_electric_motor/physical_systems/converters/finite_control_set/finite_multi_converter.py:48-56 | the concatenated outputs of the sub-converters, each on its own slice of the currents and the repeated supply |
| MultiConverters.FiniteMultiConverter.SetAction | gym_electric_motor/physical_systems/converters/finite_control_set/finite_multi_converter.py:63-68 | the switching times ascend without repeats and are exactly the times some sub-converter returns for its action component |
| MultiConverters.FiniteMultiConverter.ISup | gym_electric_motor/physical_systems/converters/finite_control_set/finite_multi_converter.py:70-76 | the sum of the sub-converters' supply currents, each on its own slice |
| MultiConverters.SubsignalDim | gym_electric_motor/physical_systems/converters/continuous_dynamically_averaged_control_set/continuous_multi_converter.py:46-47 | a zero-length shape counts as 1, any other length as itself |
| MultiConverters.ActionWidths | gym_electric_motor/physical_systems/converters/continuous_dynamically_averaged_control_set/continuous_multi_converter.py:80-81 | the action width of each sub-converter, in order |
| MultiConverters.VoltageSignalDims | gym_electric_motor/physical_systems/converters/continuous_dynamically_averaged_control_set/continuous_multi_converter.py:47 | the voltage signal dimension of each sub-converter, in order |
| MultiConverters.CurrentSignalDims | gym_electric_motor/physical_systems/converters/continuous_dynamically_averaged_control_set/continuous_multi_converter.py:46 | the current signal dimension of each sub-converter, in order |
| MultiConverters.Lows | gym_electric_motor/physical_systems/converters/continuous_dynamically_averaged_control_set/continuous_multi_converter.py:49 | the lower action bounds of each sub-converter, in order |
| MultiConverters.Highs | gym_electric_motor/physical_systems/converters/continuous_dynamically_averaged_control_set/continuous_multi_converter.py:50 | the upper action bounds of each sub-converter, in order |
| MultiConverters.ResetVoltages | gym_electric_motor/physical_systems/converters/continuous_dynamically_averaged_control_set/continuous_multi_converter.py:88-89 | the reset voltages of each sub-converter, in order |
| MultiConverters.ActionBoundsLineUp | gym_electric_motor/physical_systems/converters/continuous_dynamically_averaged_control_set/continuous_multi_converter.py:49-83 | entry `j` of sub-converter `k`'s lower bound sits in the concatenated bound exactly where that sub-converter's slice of the action starts, plus `j` |
| MultiConverters.ContMultiConverter.constructor | gym_electric_motor/physical_systems/converters/continuous_dynamically_averaged_control_set/continuous_multi_converter.py:27-72 | collects each sub-converter's signal dimensions and concatenates their action bounds, in sub order |
| MultiConverters.ContMultiConverter.SetAction | gym_electric_motor/physical_systems/converters/continuous_dynamically_averaged_control_set/continuous_multi_converter.py:75-83 | each sub-converter takes the next slice of the action as wide as its own action; the times ascend without repeats and are exactly those some sub-converter returns |
| MultiConverters.ContMultiConverter.Reset | gym_electric_motor/physical_systems/converters/continuous_dynamically_averaged_control_set/continuous_multi_converter.py:85-90 | the concatenated reset voltages of the sub-converters |
| MultiConverters.ContMultiConverter.Convert | gym_electric_motor/physical_systems/converters/continuous_dynamically_averaged_control_set/continuous_multi_converter.py:92-100 | the concatenated outputs of the sub-converters, each on its voltage-dimension slice of the currents |
| MultiConverters.ContMultiConverter.ISup | gym_electric_motor/physical_systems/converters/continuous_dynamically_averaged_control_set/continuous_multi_converter.py:106-115 | the sum of the sub-converters' supply currents, each on its current-dimension slice |
| ContinuousConverters.InterlockDiscount | gym_electric_motor/physical_systems/converters/continuous_dynamically_averaged_control_set/continuous_dynamically_averaged_converter.py:43-50 | the discount times the step is the sign of the current times the interlocking time, so it vanishes without interlocking or current and has the current's sign |
| ContinuousConverters.AveragedOutput | gym_electric_motor/physical_systems/converters/continuous_dynamically_averaged_control_set/continuous_dynamically_averaged_converter.py:22-24 | the output lies in the voltage range and is the idealised voltage less the discount whenever that lies in the range |
| ContinuousConverters.ClippedAction | gym_electric_motor/physical_systems/converters/continuous_dynamically_averaged_control_set/continuous_dynamically_averaged_converter.py:18-20 | the stored action lies in the action range and is the given action when that already does |
| ContinuousConverters.OneQuadrantIdeal | gym_electric_motor/physical_systems/converters/continuous_dynamically_averaged_control_set/continuous_one_quadrant_converter.py:26-28 | the duty cycle for a non-negative current and 1 for a negative one |
| ContinuousConverters.ContOneQuadrantVoltage | gym_electric_motor/physical_systems/converters/continuous_dynamically_averaged_control_set/continuous_one_quadrant_converter.py:26-32 | the output lies in [0, 1]: the duty cycle for a non-negative current and 1 for a negative one, with no interlocking discount |
| ContinuousConverters.ContOneQuadrantISup | gym_electric_motor/physical_systems/converters/continuous_dynamically_averaged_control_set/continuous_one_quadrant_converter.py:34-36 | a zero duty cycle draws nothing, and for a non-negative current the supply current lies between 0 and the motor current |
| ContinuousConverters.ContOneQuadrantPowerBalance | gym_electric_motor/physical_systems/converters/continuous_dynamically_averaged_control_set/continuous_one_quadrant_converter.py:26-36 | for a non-negative current output power equals supply power |
| ContinuousConverters.ContTwoQuadrantISupBounds | gym_electric_motor/physical_systems/converters/continuous_dynamically_averaged_control_set/continuous_two_quadrant_converter.py:33-39 | with an interlocking time within the step the supply current never exceeds the motor current in size, and without interlocking it is the duty cycle times the current |
| ContinuousConverters.AddInterlock | gym_electric_motor/physical_systems/converters/continuous_dynamically_averaged_control_set/continuous_two_quadrant_converter.py:26-31 | the result lies within plus and minus the supply voltage and is the voltage less the discount whenever that does |
| ContinuousConverters.ContTwoQuadrantConvertAsWritten | gym_electric_motor/physical_systems/converters/continuous_dynamically_averaged_control_set/continuous_two_quadrant_converter.py:7-39 | as written the 2QC has no `_convert` of its own, so converting always fails |
| ContinuousConverters.ContTwoQuadrantVoltage | gym_electric_motor/physical_systems/converters/continuous_dynamically_averaged_control_set/continuous_two_quadrant_converter.py:7-24 | the documented 2QC output lies in [0, 1] and is the duty cycle when there is no interlocking |
| ContinuousConverters.ContTwoQuadrantPowerBalance | gym_electric_motor/physical_systems/converters/continuous_dynamically_averaged_control_set/continuous_two_quadrant_converter.py:33-39 | without interlocking output power equals supply power in both current directions |
| ContinuousConverters.DutySplit | gym_electric_motor/physical_systems/converters/continuous_dynamically_averaged_control_set/continuous_four_quadrant_converter.py:53-54 | the two duty cycles add up to 1 and differ by the action, and lie in [0, 1] for an action in [-1, 1] |
| ContinuousConverters.ContFourQuadrantVoltage | gym_electric_motor/physical_systems/converters/continuous_dynamically_averaged_control_set/continuous_four_quadrant_converter.py:45-47 | the 4QC output lies in [-1, 1] |
| ContinuousConverters.ContFourQuadrantConvertAsWrittenFails | gym_electric_motor/physical_systems/converters/continuous_dynamically_averaged_control_set/continuous_four_quadrant_converter.py:45-47 | as written the 4QC's conversion fails for every action and current, because its first 2QC's does |
| ContinuousConverters.ContFourQuadrantVoltageIsAction | gym_electric_motor/physical_systems/converters/continuous_dynamically_averaged_control_set/continuous_four_quadrant_converter.py:45-59 | with the documented 2QC and no interlocking the 4QC outputs its action and draws exactly the power it delivers |
| ContinuousConverters.ContinuousConverter.constructor | gym_electric_motor/physical_systems/converters/continuous_dynamically_averaged_control_set/continuous_dynamically_averaged_converter.py:12-16 | reset action `[0]` at start time 0 and no pattern yet |
| ContinuousConverters.ContinuousConverter.Reset | gym_electric_motor/physical_systems/converters/power_electronic_converter.py:45-49 | the reset action at time 0 and the output 0 |
| ContinuousConverters.ContinuousConverter.SetAction | gym_electric_motor/physical_systems/converters/continuous_dynamically_averaged_control_set/continuous_dynamically_averaged_converter.py:18-20 | the clipped action is stored with its start time; the only switching time is the step's end |
| ContinuousConverters.ContinuousConverter.Convert | gym_electric_motor/physical_systems/converters/continuous_dynamically_averaged_control_set/continuous_dynamically_averaged_converter.py:22-24 | the output lies in [0, 1] and is the one- or two-quadrant voltage of the stored action |
| ContinuousConverters.ContinuousConverter.ISup | gym_electric_motor/physical_systems/converters/continuous_dynamically_averaged_control_set/continuous_one_quadrant_converter.py:34-36 | the one- or two-quadrant supply current of the stored action |
| ContinuousConverters.ContFourQuadrantConverter.constructor | gym_electric_motor/physical_systems/converters/continuous_dynamically_averaged_control_set/continuous_four_quadrant_converter.py:30-33 | two fresh 2QCs with the converter's step and interlocking time, all at the reset action |
| ContinuousConverters.ContFourQuadrantConverter.Reset | gym_electric_motor/physical_systems/converters/continuous_dynamically_averaged_control_set/continuous_four_quadrant_converter.py:39-43 | both 2QCs and the converter itself return to the reset action at time 0, and the output is 0 |
| ContinuousConverters.ContFourQuadrantConverter.SetAction | gym_electric_motor/physical_systems/converters/continuous_dynamically_averaged_control_set/continuous_four_quadrant_converter.py:49-55 | the clipped action is stored and the two 2QCs take the clipped halves of the duty split; the only switching time is the step's end |
| ContinuousConverters.ContFourQuadrantConverter.Convert | gym_electric_motor/physical_systems/converters/continuous_dynamically_averaged_control_set/continuous_four_quadrant_converter.py:45-47 | the first 2QC's voltage less the second's |
| ContinuousConverters.ContFourQuadrantConverter.ISup | gym_electric_motor/physical_systems/converters/continuous_dynamically_averaged_control_set/continuous_four_quadrant_converter.py:57-59 | the first 2QC's supply current on `i` plus the second's on `-i` |
| ContinuousConverters.ContFourQuadrantAfterSetAction | gym_electric_motor/physical_systems/converters/continuous_dynamically_averaged_control_set/continuous_four_quadrant_converter.py:45-59 | after an action in [-1, 1] without interlocking the converter outputs that action and draws exactly the power it delivers |
| Seeding.Root | gym_electric_motor/core/electric_motor_environment.py:236 | a new root sequence carries the given entropy, an empty spawn key and no children spawned |
| Seeding.Spawn | gym_electric_motor/core/electric_motor_environment.py:243 | spawning `n` children advances the parent's child counter by `n`; child `i` shares the entropy and extends the parent's key by the counter plus `i` |
| Seeding.SpawnedChildrenDistinct | gym_electric_motor/core/electric_motor_environment.py:243 | the children of one spawn are pairwise different, and different from the children of a later spawn from the same parent |
| Seeding.DistributeSeeds | gym_electric_motor/core/electric_motor_environment.py:244-246 | part `i` receives child `i` exactly when it is a random component, and nothing otherwise |
| Seeding.DistributedSeedsDistinct | gym_electric_motor/core/electric_motor_environment.py:243-246 | no two parts receive the same child seed |
| ScmlSystems.JacobianChoice | gym_electric_motor/physical_systems/scml_system.py:130-139 | the solver gets the system Jacobian exactly when both motor and load have one and the caller did not refuse it; the warning fires exactly when the caller asked for it and one of them has none |
| ScmlSystems.DefaultJacobianChoiceNeverWarns | gym_electric_motor/physical_systems/scml_system.py:130-139 | without a request the constructor never warns and decides as an explicit request would; an explicit refusal gives no Jacobian and no warning |
| ScmlSystems.FlattenFour | gym_electric_motor/physical_systems/scml_system.py:25-26 | four blocks concatenated in order |
| ScmlSystems.WriteSlice | gym_electric_motor/physical_systems/scml_system.py:205-210 | writing a slice replaces exactly that slice of the buffer |
| ScmlSystems.ScmlSystem.ComponentInfos | gym_electric_motor/physical_systems/scml_system.py:117 | the components in observation order: load, motor, converter, supply |
| ScmlSystems.ScmlSystem.StateNames | gym_electric_motor/physical_systems/scml_system.py:25-26 | every component's observation names, in component order |
| ScmlSystems.ScmlSystem.Limits | gym_electric_motor/physical_systems/scml_system.py:57-60 | every component's limits, in component order |
| ScmlSystems.ScmlSystem.NominalState | gym_electric_motor/physical_systems/scml_system.py:63-66 | every component's nominal values, in component order |
| ScmlSystems.ScmlSystem.Observation | gym_electric_motor/physical_systems/scml_system.py:185-190 | the load's, motor's, converter's and supply's observations concatenated, as long as the limits |
| ScmlSystems.ScmlSystem.Normalised | gym_electric_motor/physical_systems/scml_system.py:191 | each entry times its limit is the observation's entry |
| ScmlSystems.ScmlSystem.Integrated | gym_electric_motor/physical_systems/scml_system.py:172-178 | integrating to each switching time keeps the state's dimension and ends at the last time; with no times nothing changes |
| ScmlSystems.ScmlSystem.constructor | gym_electric_motor/physical_systems/scml_system.py:88-159 | requires the shape assertions; stores the components, chooses the Jacobian, adds the rotor inertia to the load, and starts with zero counters, a zero solver state and zero initial value and no motor or load state |
| ScmlSystems.ScmlSystem.SetInitialOdeValue | gym_electric_motor/physical_systems/scml_system.py:40-42 | numpy broadcasting into the stored vector: a number or a one-element array fills every entry, an array of the vector's length replaces it entry by entry, and an array of any other length fails and changes nothing |
| ScmlSystems.ScmlSystem.Seed | gym_electric_motor/physical_systems/scml_system.py:161-166 | a fresh root spawns one child per part in the order supply, converter, motor, load, solver, and each random part receives its own child |
| ScmlSystems.ScmlSystem.RandomParts | gym_electric_motor/physical_systems/scml_system.py:123-125 | which of supply, converter, motor, load and solver are random, in that order |
| ScmlSystems.ScmlSystem.SystemEquation | gym_electric_motor/physical_systems/scml_system.py:193-211 | the load slice of the derivative is the mechanical ODE under the motor's torque, the motor slice is the electrical ODE at the load's speed and the input voltage last set |
| ScmlSystems.ScmlSystem.IntegrateAll | gym_electric_motor/physical_systems/scml_system.py:172-178 | the integration loop ends in the state, time and input voltage of the specification |
| ScmlSystems.ScmlSystem.Simulate | gym_electric_motor/physical_systems/scml_system.py:168-191 | the counters advance one step; the solver integrates to the converter's switching times followed by the step's end; load and motor states are the two slices of the result, and the returned observation is normalised by the limits |
| ScmlSystems.ScmlSystem.Reset | gym_electric_motor/physical_systems/scml_system.py:232-254 | the counters reset, the solver restarts at time 0 from the initial value, the two states are its slices, and the returned observation is normalised by the limits |
| ScmlSystems.StepEndsAtTauLater | gym_electric_motor/physical_systems/scml_system.py:170-180 | whatever switching times the converter asks for, the solver and the step counter both end one step later |
| LegacyScml.Lookup | gym_electric_motor/physical_systems/physical_systems.py:97-98 | a name's value is finite exactly when the dict defines it, and then it is the dict's value |
| LegacyScml.MinBound | gym_electric_motor/physical_systems/physical_systems.py:99 | the minimum is one of the two bounds and at most each of them |
| LegacyScml.MinRule | gym_electric_motor/physical_systems/physical_systems.py:92-99 | entry `i` is infinite exactly when neither dict defines name `i`, is at most each dict's value, and equals one of them when finite |
| LegacyScml.FillMinRule | gym_electric_motor/physical_systems/physical_systems.py:92-100 | fills the buffer with the min rule; fails exactly when there is no `u_sup` name, and otherwise the `u_sup` entry becomes the nominal supply voltage |
| LegacyScml.FillMin | gym_electric_motor/physical_systems/physical_systems.py:96-99 | entry `i` becomes the smaller of the motor's and the load's value for the `i`-th state name, infinite when neither defines it |
| LegacyScml.LegacyScmlSystem.MinRuleArray | gym_electric_motor/physical_systems/physical_systems.py:92-100 | a fresh array with one entry per state name holding the min rule, the `u_sup` entry overwritten by the nominal supply voltage |
| LegacyScml.SupplyVoltageOverridesMinRule | gym_electric_motor/physical_systems/physical_systems.py:100 | after filling, the `u_sup` position holds the nominal supply voltage and every other name keeps its min-rule entry |
| LegacyScml.Range | gym_electric_motor/physical_systems/physical_systems.py:128-144 | `list(range(lo, hi))`: the consecutive numbers from `lo` below `hi` |
| LegacyScml.SetIndices | gym_electric_motor/physical_systems/physical_systems.py:128-144 | fails exactly when the load has no states; otherwise the ODE holds the load's states then the currents, and the observation after the torque holds currents, voltages and supply voltages in consecutive ranges |
| LegacyScml.Row | gym_electric_motor/physical_systems/physical_systems.py:164 | one input voltage times each supply voltage |
| LegacyScml.FlatIndexInRange | gym_electric_motor/physical_systems/physical_systems.py:164 | a row-major position lies inside the flattened matrix |
| LegacyScml.PairwiseProduct | gym_electric_motor/physical_systems/physical_systems.py:164 | the motor receives one voltage per pair of input and supply voltage |
| LegacyScml.PairwiseProductEntry | gym_electric_motor/physical_systems/physical_systems.py:164 | the entry for input `i` and supply `j` is their product, at row-major position `(i, j)` |
| LegacyScml.PairwiseProductSingleSupply | gym_electric_motor/physical_systems/physical_systems.py:164 | with a single supply voltage the product scales the input voltages |
| LegacyScml.BlockJacobian | gym_electric_motor/physical_systems/physical_systems.py:219-235 | a square matrix of the state's size whose entries are the block entries |
| LegacyScml.WriteBlock | gym_electric_motor/physical_systems/physical_systems.py:228-234 | writing a block replaces exactly that block of the matrix |
| LegacyScml.Outer | gym_electric_motor/physical_systems/physical_systems.py:232-234 | the outer product of two vectors |
| LegacyScml.AsColumn | gym_electric_motor/physical_systems/physical_systems.py:231 | a vector reshaped to one column |
| LegacyScml.AssembleJacobian | gym_electric_motor/physical_systems/physical_systems.py:219-235 | the four block writes produce the block Jacobian |
| LegacyScml.SystemJacobian | gym_electric_motor/physical_systems/physical_systems.py:219-235 | the system Jacobian is square of the state's size |
| LegacyScml.BlockColumn | gym_electric_motor/physical_systems/physical_systems.py:228-234 | column `j` of the block matrix is the load's column over the omega entries for a load state, and the torque coupling over the motor's column for a motor state |
| LegacyScml.SystemJacobianExact | gym_electric_motor/physical_systems/physical_systems.py:178-235 | when the motor's and the load's Jacobians are exact, each column of the assembled Jacobian is the exact partial derivative of the system equation |
| LegacyScml.LoadStateColumnExact | gym_electric_motor/physical_systems/physical_systems.py:178-235 | the same for the columns of the load's states, through the omega coupling |
| LegacyScml.MotorStateColumnExact | gym_electric_motor/physical_systems/physical_systems.py:178-235 | the same for the columns of the motor's currents, through the torque coupling |
| LegacyScml.NormaliseByBounds | gym_electric_motor/physical_systems/physical_systems.py:176 | fails exactly when lengths differ or a limit is zero; otherwise as long as the state |
| LegacyScml.NormaliseByBoundsInverts | gym_electric_motor/physical_systems/physical_systems.py:176 | a normalised entry times its finite limit is the state's entry, and an entry over an infinite limit is 0 |
| LegacyScml.LegacyScmlSystem.constructor | gym_electric_motor/physical_systems/physical_systems.py:44-90 | stores the components and the concatenated names, chooses the Jacobian, lays out the indices, fills limits and nominal values by the min rule with `u_sup` overridden, and starts at step 0 with no states and no cached derivative |
| LegacyScml.LegacyScmlSystem.SystemEquation | gym_electric_motor/physical_systems/physical_systems.py:178-217 | the derivative is the load's followed by the motor's and is cached in the placeholder; nothing else changes |
| LegacyScml.LegacyScmlSystem.Steps | gym_electric_motor/physical_systems/physical_systems.py:158-166 | integrating to each switching time keeps the state's dimension and ends at the last time; with no times nothing changes |
| LegacyScml.LegacyScmlSystem.StepAll | gym_electric_motor/physical_systems/physical_systems.py:158-166 | the loop ends in the state, time and input voltage of the specification |
| LegacyScml.LegacyScmlSystem.Simulate | gym_electric_motor/physical_systems/physical_systems.py:153-176 | integrates to the switching times alone, takes the solver's time and counts the step; without a switching time it fails, otherwise returns the observation normalised by the limits |
| LegacyScml.LegacyScmlSystem.Record | gym_electric_motor/physical_systems/physical_systems.py:171-175 | keeps the unnormalised observation and nothing else changes |
| LegacyScml.LegacyScmlSystem.Advance | gym_electric_motor/physical_systems/physical_systems.py:167-170 | the solver's outcome becomes the state and time, and the step count grows by one |
| LegacyScml.LegacyScmlSystem.Reset | gym_electric_motor/physical_systems/physical_systems.py:237-265 | the components' reset states, the solver restarted from them at time 0, step count 0, and the normalised reset observation |
| LegacyScml.LegacyScmlSystem.Restart | gym_electric_motor/physical_systems/physical_systems.py:237-260 | the state part of the reset |
| Constraints.ConfiguredNames | gym_electric_motor/constraints/limit_constraint.py:34-39 | "all_states" expands to every state name, `None` observes nothing, any other list is kept |
| Constraints.ConfiguredNamesAsWritten | gym_electric_motor/constraints/limit_constraint.py:36-39 | as written the membership test comes first: configuring fails exactly for `None`, and otherwise agrees with the intended configuration |
| Constraints.NoneObservedAsWrittenFails | gym_electric_motor/constraints/limit_constraint.py:36-39 | a constraint built with `None` fails to configure as written, while the intended configuration observes nothing |
| Constraints.Mask | gym_electric_motor/constraints/limit_constraint.py:40-42 | the mask has one flag per state name, set exactly for the observed names |
| Constraints.AnyAboveOne | gym_electric_motor/constraints/limit_constraint.py:30-31 | true exactly when some masked state has magnitude above 1 |
| Constraints.LimitDegree | gym_electric_motor/constraints/limit_constraint.py:29-32 | the degree is 0 or 1, and 1 exactly when some observed state leaves [-1, 1] |
| Constraints.AllStatesObservesEveryState | gym_electric_motor/constraints/limit_constraint.py:21-22 | observing "all_states" flags a violation whenever any normalised state leaves [-1, 1] |
| Constraints.NothingObservedNeverViolates | gym_electric_motor/constraints/limit_constraint.py:38-39 | observing nothing never flags a violation |
| Constraints.LimitConstraint.constructor | gym_electric_motor/constraints/limit_constraint.py:18-27 | keeps the observed names, with no limits and no mask yet |
| Constraints.LimitConstraint.SetModules | gym_electric_motor/constraints/limit_constraint.py:34-42 | stores the system's limits, expands the names and builds the mask aligned with the system's state names |
| Constraints.LimitConstraint.Call | gym_electric_motor/constraints/limit_constraint.py:29-32 | 0 or 1, and 1 exactly when an observed state has magnitude above 1 |
| Constraints.SumOfSquares | gym_electric_motor/constraints/squared_constraint.py:33 | a sum of squares is never negative and is no smaller than any single square |
| Constraints.ScaledObserved | gym_electric_motor/constraints/squared_constraint.py:31-33 | one entry per observed state: the state itself in a normalised space, otherwise the state divided by its limit |
| Constraints.Pick | gym_electric_motor/constraints/squared_constraint.py:27-32 | fancy indexing, also the legacy environment's state filter: entry `i` is the entry index `i` points to |
| Constraints.SquaredSetupFor | gym_electric_motor/constraints/squared_constraint.py:26-29 | succeeds exactly when every name is a known state; the indices follow the names' order, the limits are the system's limits there, and the space counts as normalised exactly when some upper bound differs from its limit |
| Constraints.SquaredDegree | gym_electric_motor/constraints/squared_constraint.py:31-33 | the degree is 0 or 1, and 1 exactly when the squares of the scaled observed states sum to more than 1; 0 when no state is observed |
| Constraints.SquaredTripsOnOneOutside | gym_electric_motor/constraints/squared_constraint.py:31-33 | one scaled observed state outside [-1, 1] is enough to violate the constraint |
| Constraints.SquaredQuietAtZero | gym_electric_motor/constraints/squared_constraint.py:31-33 | with every observed state at zero the constraint is not violated |
| Constraints.SingleSquaredIsLimit | gym_electric_motor/constraints/squared_constraint.py:31-33 | on one state of a normalised space the squared constraint gives the limit constraint's verdict |
| Constraints.SquaredNormalisationAgrees | gym_electric_motor/constraints/squared_constraint.py:32 | dividing by the limits gives the verdict of a normalised space holding the divided states |
| Constraints.SquaredConstraint.constructor | gym_electric_motor/constraints/squared_constraint.py:16-24 | keeps the names, with no indices, no limits, not normalised |
| Constraints.SquaredConstraint.SetModules | gym_electric_motor/constraints/squared_constraint.py:26-29 | fails exactly when a name is unknown (then nothing is stored); otherwise stores the setup for the system |
| Constraints.SquaredConstraint.Call | gym_electric_motor/constraints/squared_constraint.py:31-33 | 0 or 1, and 1 exactly when the squares of the scaled observed states sum to more than 1; 0 when no state is observed |
| Constraints.MaxOf | gym_electric_motor/core/constraint_monitor.py:73 | the maximum is one of the degrees and at least each of them |
| Constraints.UnitProduct | gym_electric_motor/core/constraint_monitor.py:75-76 | a product of two factors in [0, 1] is at most each and zero exactly when one of them is |
| Constraints.ProductOfUnitFactors | gym_electric_motor/core/constraint_monitor.py:75-76 | a product of factors in [0, 1] lies in [0, 1], is at most each factor, and is 0 exactly when a factor is |
| Constraints.ProductMerge | gym_electric_motor/core/constraint_monitor.py:75-76 | `1 - prod(1 - v)`: no degrees merge to 0 and a single degree is kept |
| Constraints.ProductMergeIsDegree | gym_electric_motor/core/constraint_monitor.py:55-59 | the product merge of degrees is a degree, at least each single degree, and 1 exactly when some degree is 1 |
| Constraints.SelectMerge | gym_electric_motor/core/constraint_monitor.py:67-79 | an unknown merge name fails; without constraints the merge is 0; otherwise "max", "product" or the given callable |
| Constraints.HardMergeMeansSomeViolation | gym_electric_motor/core/constraint_monitor.py:18-28 | with hard constraints both built-in merges reach 1 exactly when some constraint is violated |
| Constraints.Merge | gym_electric_motor/core/constraint_monitor.py:101 | the chosen merge: 0 without constraints, the largest degree for "max", a degree in [0, 1] no smaller than any single degree for "product", and the user's callable otherwise |
| Constraints.Degree | gym_electric_motor/core/constraint_monitor.py:100 | one constraint's verdict: a limit or squared constraint answers 0 or 1, a limit constraint 1 exactly when an observed state leaves [-1, 1], and a callable what it returns |
| Constraints.Degrees | gym_electric_motor/core/constraint_monitor.py:100 | one degree per constraint, each that constraint's verdict on the same state |
| Constraints.ConfiguredConstraintsAreReady | gym_electric_motor/core/constraint_monitor.py:81-89 | once configured for a system without zero limits, every constraint can evaluate that system's states |
| Constraints.ConstraintMonitor.constructor | gym_electric_motor/core/constraint_monitor.py:62-79 | keeps the constraint list and the merge, with the zero merge exactly for an empty list |
| Constraints.ConstraintMonitor.SetModules | gym_electric_motor/core/constraint_monitor.py:81-89 | configures every constraint class for the system, and fails exactly when a squared constraint names an unknown state |
| Constraints.ConstraintMonitor.CheckConstraints | gym_electric_motor/core/constraint_monitor.py:91-101 | the merge of the constraints' degrees on the state, and 0 without constraints |
| Constraints.Assemble | gym_electric_motor/core/constraint_monitor.py:62-64 | the additional constraints come first, and the limit constraint, when asked for, last |
| Constraints.Unwrap | gym_electric_motor/core/constraint_monitor.py:62 | the additional constraints in their order |
| Constraints.NewConstraintMonitor | gym_electric_motor/core/constraint_monitor.py:37-79 | fails exactly when an additional constraint is not callable or the merge name is unknown; otherwise the list is the additional constraints then a fresh limit constraint on the given names, with the merge selected for the list's length |
| Environments.HookCalls | gym_electric_motor/core/electric_motor_environment.py:181-185 | one call per callback, in list order, each with the hook's arguments |
| Environments.ResetHooksSurroundPhysicalReset | gym_electric_motor/core/electric_motor_environment.py:187-200 | in a reset every callback hears `on_reset_begin` before the physical system resets and `on_reset_end`, with the returned state and reference, after all the work; the physical system resets exactly once |
| Environments.StepHooksSurroundSimulation | gym_electric_motor/core/electric_motor_environment.py:207-233 | in a step every callback hears `on_step_begin` before the one simulation and `on_step_end`, with the step's results and `done`, after all the work |
| Environments.SeedCalls | gym_electric_motor/core/electric_motor_environment.py:243-246 | every seeding call seeds a random component with that component's own child sequence, and every random component is seeded |
| Environments.RandomFlags | gym_electric_motor/core/electric_motor_environment.py:237-242 | the seeding order is physical system, reference generator, reward function, constraint monitor (never random), then the callbacks |
| Environments.SeedCallsDistinct | gym_electric_motor/core/electric_motor_environment.py:235-247 | no two components receive the same seed, and they are seeded in component order |
| Environments.SeedCallsIncreasing | gym_electric_motor/core/electric_motor_environment.py:244-246 | seeding calls name their components in strictly increasing order |
| Environments.LimitNamesOf | gym_electric_motor/core/electric_motor_environment.py:155 | the names taken are exactly the state-name entries of the list |
| Environments.AdditionalOf | gym_electric_motor/core/electric_motor_environment.py:156 | every selected entry is callable, and there are at most as many as entries |
| Environments.AdditionalOfSelects | gym_electric_motor/core/electric_motor_environment.py:156 | the additional constraints are exactly the list's constraint objects: each comes from one, and every one is there |
| Environments.MonitorFor | gym_electric_motor/core/electric_motor_environment.py:152-158 | a given monitor is used as it is; otherwise a new monitor holds the constraint objects, then one limit constraint on the named states when there are any, merged by maximum |
| Environments.Stepping | gym_electric_motor/core/electric_motor_environment.py:222-229 | the step works on the state `simulate` returns, and the violation degree is the monitor's verdict on that same state |
| Environments.Environment.constructor | gym_electric_motor/core/electric_motor_environment.py:148-179 | keeps the parts, puts the visualizations after the callbacks, starts out needing a reset, and announces `set_env` to every callback |
| Environments.Environment.CallCallbacks | gym_electric_motor/core/electric_motor_environment.py:181-185 | the hook reaches every callback in list order, and nothing else changes |
| Environments.Environment.SetReferenceGenerator | gym_electric_motor/core/electric_motor_environment.py:76-84 | the new generator is kept and a reset is required |
| Environments.Environment.SetRewardFunction | gym_electric_motor/core/electric_motor_environment.py:91-95 | the new reward function is kept and a reset is required |
| Environments.Environment.Reset | gym_electric_motor/core/electric_motor_environment.py:187-200 | returns the physical system's reset state and the reference observation of it, resets generator and reward function, clears `done`, and brackets the work by the two reset hooks |
| Environments.Environment.Step | gym_electric_motor/core/electric_motor_environment.py:207-233 | refused while a reset is due; otherwise returns the simulated state, the next reference observation, the reward and `done`, which holds exactly when the violation degree reaches 1, with the step hooks around the work |
| Environments.Environment.Run | gym_electric_motor/core/electric_motor_environment.py:221-232 | the `on_step_begin` and `on_step_end` hooks around the step's work, `done` exactly when the violation degree reaches 1, reference generator and reward function untouched |
| Environments.Environment.Conclude | gym_electric_motor/core/electric_motor_environment.py:222-229 | the world after the step, `done` exactly when the degree reaches 1, and the step's calls in order |
| Environments.Environment.Seed | gym_electric_motor/core/electric_motor_environment.py:235-247 | returns the root entropy (the seed, or fresh entropy without one) and seeds each random component with its own child, in component order |
| Environments.Environment.Close | gym_electric_motor/core/electric_motor_environment.py:249-257 | the close hook on every callback, then the reward function, the physical system and the reference generator are closed |
| Environments.NewEnvironment | gym_electric_motor/core/electric_motor_environment.py:127-179 | a given monitor is used as it is and construction succeeds exactly when its constraints name only known states; from a list, construction succeeds exactly when its constraint objects name only known states; the result needs a reset and has announced `set_env` |
| LegacyEnvironments.IndexOf | gym_electric_motor/core/gym_electric_motor_environment.py:184 | `list.index`: the first position holding the name |
| LegacyEnvironments.ChosenNames | gym_electric_motor/core/gym_electric_motor_environment.py:183 | no filter, or an empty one, chooses every state name; otherwise the filter's names |
| LegacyEnvironments.StateFilterFor | gym_electric_motor/core/gym_electric_motor_environment.py:183-184 | fails exactly when a chosen name is not a state name; otherwise one position per chosen name, the first position of that name |
| LegacyEnvironments.DefaultFilterShowsAll | gym_electric_motor/core/gym_electric_motor_environment.py:183-184 | with distinct state names the default filter is the identity and shows every state in place |
| LegacyEnvironments.LegacyEnvironment.StateNames | gym_electric_motor/core/gym_electric_motor_environment.py:119-122 | one name per filtered state |
| LegacyEnvironments.LegacyEnvironment.Limits | gym_electric_motor/core/gym_electric_motor_environment.py:114-117 | one limit per filtered state |
| LegacyEnvironments.LegacyEnvironment.NominalState | gym_electric_motor/core/gym_electric_motor_environment.py:129-132 | one nominal value per filtered state |
| LegacyEnvironments.LegacyEnvironment.FilteredViewAligned | gym_electric_motor/core/gym_electric_motor_environment.py:114-132 | the filtered name, limit and nominal value at each position belong to the same physical state |
| LegacyEnvironments.LegacyEnvironment.constructor | gym_electric_motor/core/gym_electric_motor_environment.py:163-197 | keeps the parts and the filter, puts the visualizations after the callbacks, needs a reset, and announces `set_env` to every callback |
| LegacyEnvironments.LegacyEnvironment.CallCallbacks | gym_electric_motor/core/gym_electric_motor_environment.py:199-203 | the hook reaches every callback in list order, and nothing else changes |
| LegacyEnvironments.LegacyEnvironment.SetReferenceGenerator | gym_electric_motor/core/gym_electric_motor_environment.py:79-88 | the new generator is kept and a reset is required |
| LegacyEnvironments.LegacyEnvironment.SetRewardFunction | gym_electric_motor/core/gym_electric_motor_environment.py:98-107 | the new reward function is kept and a reset is required |
| LegacyEnvironments.LegacyEnvironment.Reset | gym_electric_motor/core/gym_electric_motor_environment.py:205-218 | the generator's reset gives the reference and the next reference, the reward function is reset with the state and reference, and the filtered state and next reference are returned between the two reset hooks |
| LegacyEnvironments.LegacyEnvironment.Restart | gym_electric_motor/core/gym_electric_motor_environment.py:213-216 | clears `done`, takes the world after the resets and records the three resets in order |
| LegacyEnvironments.LegacyEnvironment.Step | gym_electric_motor/core/gym_electric_motor_environment.py:225-251 | refused while a reset is due; otherwise the filtered simulated state, the next reference, the reward and `done` exactly when the violation degree reaches 1, with the step hooks around the work |
| LegacyEnvironments.LegacyEnvironment.Run | gym_electric_motor/core/gym_electric_motor_environment.py:239-250 | the `on_step_begin` and `on_step_end` hooks around the step's work, `done` exactly when the violation degree reaches 1, reference generator and reward function untouched |
| LegacyEnvironments.LegacyEnvironment.Conclude | gym_electric_motor/core/gym_electric_motor_environment.py:240-247 | the world after the step, `done` exactly when the degree reaches 1, and the step's calls in order |
| LegacyEnvironments.LegacyEnvironment.Seed | gym_electric_motor/core/gym_electric_motor_environment.py:253-265 | returns the root entropy and seeds each random component with its own child, in component order |
| LegacyEnvironments.LegacyEnvironment.Close | gym_electric_motor/core/gym_electric_motor_environment.py:267-272 | the close hook on every callback, then the reward function, the physical system and the reference generator are closed |
| LegacyEnvironments.NewLegacyEnvironment | gym_electric_motor/core/gym_electric_motor_environment.py:139-197 | construction succeeds exactly when the monitor's constraints name only known states and every chosen name is a state name; the result needs a reset, has announced `set_env` and shows the chosen names |
| LegacyEnvironments.FilteredEnvironment | gym_electric_motor/core/gym_electric_motor_environment.py:183-197 | succeeds exactly when every chosen name is a state name; the result shows the chosen names, keeps the configured monitor, needs a reset and has announced `set_env` |
| Controllers.OnOffOffLevel | examples/classic_controllers/classic_controllers.py:837-839 | a cascaded stage switches off to the state space's low bound; otherwise the off level is 2 exactly for three- or four-action spaces not driving the field, and 0 otherwise |
| Controllers.ThreePointNegativeLevel | examples/classic_controllers/classic_controllers.py:870-872 | the same rule for the negative level, with eight-action spaces added |
| Controllers.Initial | examples/classic_controllers/classic_controllers.py:754-877 | a new stage has no integral and no last error, is neutral, and an on/off stage starts switched on |
| Controllers.AfterControl | examples/classic_controllers/classic_controllers.py:783-891 | `control` never changes the integral |
| Controllers.AfterIntegrate | examples/classic_controllers/classic_controllers.py:764-765 | `integrate` adds the error times the sampling time to the integral and changes nothing else |
| Controllers.ResetMemory | examples/classic_controllers/classic_controllers.py:786-895 | reset clears a continuous stage's integral, a PID stage's last error too, switches an on/off stage on and a three-point stage to neutral |
| Controllers.Output | examples/classic_controllers/classic_controllers.py:783-891 | a PI stage answers with the proportional term plus the integral `integrate` would store; a PID stage adds the error's difference quotient; a switching stage answers with the level it switches to |
| Controllers.OnOffSwitching | examples/classic_controllers/classic_controllers.py:843-850 | above the hysteresis the stage switches on, below it switches off, and exactly at it nothing changes |
| Controllers.ThreePointTracksBranch | examples/classic_controllers/classic_controllers.py:879-891 | the three-point stage always ends in one of its three levels and records the branch of that level |
| Controllers.ThreePointHysteresis | examples/classic_controllers/classic_controllers.py:879-891 | an error above the positive threshold switches to positive; once positive the stage stays positive while the error exceeds the lower threshold; a large negative error otherwise switches to the negative level; once negative the stage stays negative while the error stays below `-fromNeg` and does not reach the positive threshold |
| Controllers.ControlKeepsIntegral | examples/classic_controllers/classic_controllers.py:783-803 | `control` leaves a PI stage's memory alone and only records the error in a PID stage |
| Controllers.IntegralGrowsLinearly | examples/classic_controllers/classic_controllers.py:764-765 | with a steady error, `n` integrations add exactly `n · e · tau` and change nothing else |
| Controllers.PIDSteadyErrorHasNoDerivative | examples/classic_controllers/classic_controllers.py:799-803 | when the error repeats, a PID stage answers like the PI stage with its gains |
| Controllers.ResetStageIsQuiet | examples/classic_controllers/classic_controllers.py:786-807 | after reset a continuous stage answers a zero error with zero |
| Controllers.Stage.constructor | examples/classic_controllers/classic_controllers.py:774-877 | keeps the law and the sampling time, with the fresh memory |
| Controllers.Stage.Control | examples/classic_controllers/classic_controllers.py:783-891 | answers the stage's output for the error and updates the memory as `control` does |
| Controllers.Stage.Integrate | examples/classic_controllers/classic_controllers.py:764-765 | the memory after one integration |
| Controllers.Stage.Reset | examples/classic_controllers/classic_controllers.py:786-895 | the memory after reset |
| Controllers.Advanced | examples/classic_controllers/classic_controllers.py:371-381 | the integral grows by the error times the sampling time exactly when the output was in range |
| Controllers.ControlWithAntiWindup | examples/classic_controllers/classic_controllers.py:371-380 | answers the stage's output plus the offset, and the stage integrates exactly when that sum lies within the bounds |
| Controllers.ClipAll | examples/classic_controllers/classic_controllers.py:381 | each entry is clipped into its bounds: kept when inside them, the lower bound when below, the upper bound when above |
| Controllers.FieldFlux | examples/classic_controllers/classic_controllers.py:392 | the motor's `psi_e` when given and non-zero; otherwise the flux exists exactly when `l_e'` is given (a missing one raises) |
| Controllers.FieldReference | examples/classic_controllers/classic_controllers.py:377 | the referenced `i_e` when `i_e` is among the references, else the fixed `ref_e` |
| Controllers.FieldReferenceAsWritten | examples/classic_controllers/classic_controllers.py:377 | as written: agrees with the corrected rule except when `i_e` is the first reference |
| Controllers.FieldReferenceAsWrittenIgnoresFirst | examples/classic_controllers/classic_controllers.py:377 | with references ordered `i_e`, `omega` the rule as written uses the fixed 0.1 instead of the referenced 0.5 |
| Controllers.ContinuousActionController.constructor | examples/classic_controllers/classic_controllers.py:341-369 | keeps the stages, bounds, indices, limits and motor parameters, with a zero action |
| Controllers.ContinuousActionController.Feedforward | examples/classic_controllers/classic_controllers.py:391-393 | the feedforward term exists exactly when the field flux does |
| Controllers.ContinuousActionController.Control | examples/classic_controllers/classic_controllers.py:371-381 | fails when the feedforward raises (after the stage's control); otherwise the stage's output plus the feedforward term is the first action, each stage integrates only when its own action lies in bounds, the field stage follows the field reference, and the result is clipped into the action bounds; a failure leaves the action unchanged |
| Controllers.ContinuousActionController.Act | examples/classic_controllers/classic_controllers.py:372-380 | the first action and the field action with their anti-windup integrations |
| Controllers.ContinuousActionController.Reset | examples/classic_controllers/classic_controllers.py:386-389 | the stage and the field stage are reset |
| Controllers.DiscreteActionController.constructor | examples/classic_controllers/classic_controllers.py:396-417 | keeps the stages, indices and field reference |
| Controllers.DiscreteActionController.Control | examples/classic_controllers/classic_controllers.py:419-425 | the stage's switching level, and the field stage's level for the field reference when there is a field stage |
| Controllers.DiscreteActionController.Reset | examples/classic_controllers/classic_controllers.py:430-433 | the stage and the field stage are reset |
| Controllers.OuterStep | examples/classic_controllers/classic_controllers.py:480-488 | a continuous outer stage hands on its output when it lies within 0.85 of the inner state's bounds, integrating its own error, and otherwise the output clipped into that band without integrating; a switching stage hands on its level |
| Controllers.OuterStepAsWritten | examples/classic_controllers/classic_controllers.py:480-488 | as written: agrees with the corrected step whenever the integrated error is the controlled one |
| Controllers.OuterStepAsWrittenIntegratesWrongError | examples/classic_controllers/classic_controllers.py:485 | a speed stage under references `i_e`, `omega` integrates the field reference 0.3 as written, its own error 0.5 corrected |
| Controllers.CascadedController.constructor | examples/classic_controllers/classic_controllers.py:436-476 | keeps the stages, indices, bounds and motor parameters, with zero references |
| Controllers.CascadedController.Feedforward | examples/classic_controllers/classic_controllers.py:513-515 | the feedforward term exists exactly when the field flux does |
| Controllers.CascadedController.Control | examples/classic_controllers/classic_controllers.py:478-511 | the outermost stage follows the environment's reference, each outer stage hands the next reference inwards as `OuterStep` does (a continuous one within 0.85 of the bounds), and the innermost stage and the field stage act as specified |
| Controllers.CascadedController.Propagate | examples/classic_controllers/classic_controllers.py:479-488 | the references the outer loop leaves and the outer stages' memories, with the innermost stage untouched |
| Controllers.CascadedController.StepOuter | examples/classic_controllers/classic_controllers.py:481-488 | one pass of the loop: the reference handed inwards and the stage's memory afterwards |
| Controllers.CascadedController.Inner | examples/classic_controllers/classic_controllers.py:490-511 | a switching innermost stage answers its level and the field stage its own; a continuous one adds the feedforward term (failing when it raises), integrates only in bounds and is clipped, with the field stage likewise |
| Controllers.CascadedController.DiscreteInner | examples/classic_controllers/classic_controllers.py:490-509 | the switching levels of the innermost and field stages |
| Controllers.CascadedController.ContinuousInner | examples/classic_controllers/classic_controllers.py:490-507 | the continuous innermost stage's clipped action and the field action, each integrating only in bounds |
| Controllers.CascadedController.FieldAction | examples/classic_controllers/classic_controllers.py:500-506 | the field stage's output for the field reference, integrating only in bounds |
| Controllers.CascadedController.Reset | examples/classic_controllers/classic_controllers.py:520-524 | every stage and the field stage are reset |
| Common.Materialise | gym_electric_motor/physical_systems/mechanical_loads/constant_speed_load.py:45-51 | a number becomes that many copies of it, an array is taken as it is |
| Common.Insert | gym_electric_motor/physical_systems/converters/finite_control_set/finite_multi_converter.py:65-68 | inserting into a strictly increasing list keeps it strictly increasing and adds exactly the new time |
| Common.SortedUnion | gym_electric_motor/physical_systems/converters/finite_control_set/finite_multi_converter.py:65-68 | `sorted(set(...))`: the result is strictly increasing and holds exactly the times of both lists |

## Left out

External code and numerics:

- Floating point: quantities are real numbers. Division by zero, which numpy turns into `inf` or `nan` with a RuntimeWarning, is excluded by preconditions (zero limits, a zero `tau`, a zero voltage limit), except in the two members below, which model it as an `Err`.
- Supplies.RcVoltageSupply.GetVoltage: a zero time constant `R C` is an `Err`. In the source the numerator of rc_voltage_supply.py:43 is a numpy number, so the division gives `inf` or `nan` and the integration goes on.
- LegacyScml.NormaliseByBounds: a zero limit is an `Err`. The source divides arrays (physical_systems.py:176 and 266), which gives `inf` or `nan` in that entry.
- SciPy integration (`solve_ivp`, `ode`, `odeint`): what the integrator returns is a parameter of the model (`SolverModel`). Only the explicit Euler solver is modelled step by step.
- NumPy's `SeedSequence`: its entropy hashing is not modelled. Spawned children are identified by their spawn keys, which is enough for the distinctness and order properties.
- Gym spaces: observation and action spaces, `Box`, and `action_space.contains` are not modelled. An action outside the space is modelled as the `Err` the assertion raises.

Parts of the repository that are not modelled:

- AC supplies, synchronous and induction motors, and the flux observer.
- Rendering, visualizations and plotting. The visualizations take part only as callbacks.
- Reference generators and reward functions beyond the environment's calls to them. Their internals and `set_modules` are not modelled. `RewardFunction.__call__` only forwards to `reward` and is modelled as that field.
- State-action processors wrapped around the physical system.
- The older SCML system's `_build_state_space`, its `seed`, and the `next_generator` call in its `reset`.
- ScmlSystems.ScmlSystem.Reset: the `next_generator()` call and the resets of the load, motor, converter and supply (scml_system.py:239-243) are not modelled. The components are records of functions without state of their own; the supply and converter resets are modelled in their own modules.
- What callbacks do when they are called. The environment records each call in order in `trace`.
- Controller construction (`make`, the automated controller design, `param_dict` defaults), the FOC controllers and `Cascaded_FOC_Controller`.

Modelling choices and simplifications:

- Controllers.Stage: the four stage classes (PI, PID, on/off, three-point) are one class chosen by its `law`. The cascade takes any number of stages; the source builds two.
- MultiConverters.FiniteMultiConverter: `reset` of the sub-converters is not modelled. Sub-converters are seen only through their answers to `set_action`, `convert` and `i_sup`.
- LegacyScml.LegacyScmlSystem.constructor: requires a load with states and a `u_sup` state. The failures without them are modelled separately by `SetIndices` and `FillMinRule`.
- ScmlSystems.ScmlSystem.constructor: requires the component shapes the source asserts.
- Controllers.CascadedController.constructor: requires the field stage to be continuous exactly when the innermost stage is. The mixed combinations that classic_controllers.py:459-461 accepts are not modelled.

Places where the model follows the evident intent rather than the code as written:

- ScmlSystems.ScmlSystem.Simulate: stores the motor and load parts of the ODE state. The source (scml_system.py:181-182) reads `_motor_state_slice` and `_load_state_slice`, which the constructor never sets, so `simulate` as written raises AttributeError.
- ScmlSystems.ScmlSystem: the newer system Jacobian (scml_system.py:213-230) is not modelled. It writes into an undefined `system_jac` and reads an undefined `_load_ode_idx`. The older system's block Jacobian is modelled in `legacy_scml.dfy`, including its exactness.
- Constraints.ConstraintMonitor.CheckConstraints: merges the list of degrees. As written (constraint_monitor.py:101), the list is passed as one argument to a merge taking the degrees as separate arguments, so the "product" merge raises TypeError.
- FiniteConverters.FiniteB6BridgeConverter.Convert: calls each leg with `(t, [i], u_sup)`. The source (finite_b6_bridge_converter.py:80-82) passes `([i], t)`.
- FiniteConverters and Supplies constructors: store `tau`, and `u_nominal` respectively, as the base classes expect. As written, `FiniteConverter.__init__` (finite_converter.py:16) and `IdealVoltageSupply.__init__` (ideal_voltage_supply.py:31) call `super().__init__()` without the base class's required argument.
- ContinuousConverters.InterlockDiscount: uses the sign of the current. The source (continuous_dynamically_averaged_converter.py:50) calls `np.sign` in a module that does not import numpy.
- Controllers.ContinuousActionController.Control: uses the corrected field reference of Findings row 7 where classic_controllers.py:377 treats index 0 as absent.
- Controllers.DiscreteActionController.Control: uses the same corrected field reference where classic_controllers.py:421 repeats the test.
- Controllers.CascadedController.Control: uses the corrected field reference where classic_controllers.py:501 repeats the test, and the corrected `OuterStep` of Findings row 6 where classic_controllers.py:485 integrates the wrong error.
- Controllers.DiscreteActionController.Reset: resets the field stage. The source (classic_controllers.py:433) calls `reset` on the boolean `control_e`.
- DcMotors.DefaultMotorsBuild: states that the base constructor's alignment (electric_motor.py:54-76) succeeds on the default dicts. As written, `DcMotor.__init__` (dc_motor.py:78) passes four arguments, `motor_initializer` among them, to the three-parameter `ElectricMotor.__init__` (electric_motor.py:54), so no DC motor can be built.
- DcMotors.DcUpdateLimits: reads the limits as a dict from name to value. As written, dc_motor.py:141 reads `self.CURRENTS`, which no DC motor defines, and indexes the array `_limits` (electric_motor.py:75) by name; dc_motor.py:142 then calls `super()._update_limits`, which `ElectricMotor` does not have. The merge rule (the agenda replaces stored entries, the torque entry is computed from the stored current limits, other entries stay) is the evident intent of the dict `update` at dc_motor.py:141 and is not written anywhere in the source.
- DcMotors.ExternallyExcitedLimits: reads `_limits` as a dict. As written, dc_externally_excited_motor.py:21 calls `.get` on the array `_limits`, which raises AttributeError, and the constructor fails before that (dc_motor.py:78).
- DcMotors.ZeroArmatureResistanceIsGuarded: the guard of dc_externally_excited_motor.py:16 is stated about the evident-intent limit rule. As written it is not reached, because the constructor (dc_motor.py:78) and the limit lookup (dc_externally_excited_motor.py:21) raise first.
- DcMotors.PermanentlyExcitedLimits: reads `_limits` as a dict and the torque as a number. As written, dc_permanently_excited_motor.py:95 indexes the array `_limits` by `'u'`, and the torque of dc_permanently_excited_motor.py:56 indexes a list with a list (`motor_state[[I_IDX]]`) when dc_motor.py:141 calls it.
- DcMotors.PeOde: evaluates the matrix product of the constants and the variables. As written, the permanently excited `_update_model` (permanently_excited_dc_motor.py:82-88) never creates `_model_variables`, which dc_motor.py:81 leaves at None, so the assignment at permanently_excited_dc_motor.py:96 raises TypeError.
- LegacyScml.LegacyScmlSystem.Simulate: hands the input voltages to the solver and stores the ODE state as the motor and load states. As written, physical_systems.py:160 calls `i_in` with one argument where it takes two, physical_systems.py:165 calls `self.motor.set_voltage` on an attribute the system does not have (AttributeError), and physical_systems.py:167-168 read `_motor_state_slice` and `_load_state_slice`, which are never set, so `simulate` raises before `_t` and `_k` change at lines 169-170.
- LegacyScml.LegacyScmlSystem.Steps: integrates with the input voltage handed to the solver, the evident intent of physical_systems.py:165, which raises AttributeError as written.
- LegacyScml.LegacyScmlSystem.StepAll: the same repair of physical_systems.py:165 as `Steps`.
- OdeSolvers.EulerSolver.Integrate: with a negative substep count and no state set, the source (euler_solver.py:37-45) stores and returns `None`; the model reports an error there.
- LegacyScml.LegacyScmlSystem.Advance: updates the time and the step count. As written, physical_systems.py:169-170 are not reached, because lines 165-168 raise first.
- MultiConverters.FiniteOutputs: hands each sub-converter its supply as a one-element list `[u]`. As written, finite_multi_converter.py:54-55 hands over the bare number; `MultiConverters.FiniteMultiConvertAsWritten` models that path, which ends in an error or in zero voltages.
- MultiConverters.FiniteMultiConverter.Convert: uses `FiniteOutputs`, so it follows the same `[u]` repair of finite_multi_converter.py:54-55.

## Findings

| source | as written | input that shows it | evidently intended | confidence | as-written member | corrected member |
|---|---|---|---|---|---|---|
| gym_electric_motor/physical_systems/ode_solvers/euler_solver.py:36-45 | the sub-step clock starts at the target time `t`, not at the current time | `f(t, y) = t`, `y = 0` from time 0 to 1 in 2 sub-steps: 1.75 | the documented explicit Euler rule, clock from the current time: 0.25 | high, not executed | OdeSolvers.AsWrittenCounterexample | OdeSolvers.EulerSolver.IntegrateNSteps |
| gym_electric_motor/core.py:302-343 | `_count_step` updates `_k_cumulative`, `_t` and `_t_cumulative`, which `__init__` never sets | any `_count_step` right after construction raises AttributeError | all four counters start at zero, as in core/physical_system.py | high, not executed | StepCounters.LegacyCountStepFailsAfterConstruction | StepCounters.PhysicalSystem.CountStep |
| gym_electric_motor/physical_systems/converters/finite_control_set/finite_multi_converter.py:50-56 | `u_sup * len(...)` multiplies the numpy supply array instead of repeating it, and the zip hands each sub-converter a bare number where it indexes or returns a list | two 1QCs switched on, unit currents, supply `[1.0]`: only the first is called, with the bare number 2.0, and `u_sup[0]` raises IndexError | each sub-converter gets the supply voltage as a one-element list: outputs 1.0 and 1.0 | high, not executed | MultiConverters.MultiSupplyAsWrittenRaises | MultiConverters.BroadcastSupply |
| gym_electric_motor/physical_systems/converters/continuous_dynamically_averaged_control_set/continuous_two_quadrant_converter.py:7-39 | the 2QC defines no `_convert`, so its conversion reaches the abstract base | any action: conversion raises NotImplementedError, also inside the 4QC | the documented duty-cycle voltage with the interlocking discount | high, not executed | ContinuousConverters.ContFourQuadrantConvertAsWrittenFails | ContinuousConverters.ContTwoQuadrantVoltage |
| gym_electric_motor/constraints/limit_constraint.py:36-39 | `'all_states' in names` is checked before `names is None` | a limit constraint built with `None`: `set_modules` raises TypeError | `None` observes nothing | high, not executed | Constraints.NoneObservedAsWrittenFails | Constraints.ConfiguredNames |
| examples/classic_controllers/classic_controllers.py:485 | an outer stage integrates `reference[0] - state` | references `i_e`, `omega` = 0.3, 0.5 at standstill: the speed stage integrates 0.3 | it integrates its own error, 0.5 | medium, not executed | Controllers.OuterStepAsWrittenIntegratesWrongError | Controllers.OuterStep |
| examples/classic_controllers/classic_controllers.py:377 | `ref_e if not self.ref_e_idx else ...` treats index 0 as absent; the same test recurs at classic_controllers.py:421, where `DiscreteActionController.Control` uses the corrected rule too, and at classic_controllers.py:501, where `CascadedController.FieldAction` does | references `i_e`, `omega` = 0.5, 0.2 with `ref_e` 0.1: the field reference is 0.1 | the referenced 0.5 | high, not executed | Controllers.FieldReferenceAsWrittenIgnoresFirst | Controllers.FieldReference |
