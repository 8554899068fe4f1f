# Cell_Model agents in Dafny

This project models the agent layer of an agent-based simulation of stem-cell
differentiation in an embryoid body, as written in `simulationObjects.py`.

- **`SimulationObject`** is the base agent: a sphere with a location, a radius
  and a unique ID. It has two per-step accumulators, a displacement vector and
  a fixed-constraint vector. It also keeps three per-gradient registries:
  source/sink coefficients, grid position and last gradient value.
  `UpdateConstraints` folds both accumulators into the location, each capped at
  magnitude 5, and then clears them. Equality and hashing look at the ID only.
- **`DividingCell`** divides on a timer. When its timer reaches the division
  time it puts one default daughter on the driver's addition queue and
  restarts the timer.
- **`StemCell`** divides on the same timer and runs a U (undifferentiated),
  T (transitioning), D (differentiated) state machine:
  - T becomes D only at a division, which also sets the division time to 51;
  - U becomes T by a basal draw against `params[0]`, or, when the cell has at
    least one neighbour, by either of two Hill-type feedback draws that depend
    on the fractions of neighbours in U-or-T and in D;
  - `update` returns 1 exactly when the cell ends the step in D.

Layout:

- `vectors.dfy`: three-component vectors, squared magnitude and a direction test.
- `wrappers.dfy`: `Option` and `Result`.
- `simulation_object.dfy`: the `SimulationObject` class, and the clamp and
  integration functions that specify `UpdateConstraints`.
- `cell_rules.dfy`: the decision rules as functions, plus the neighbour-counting
  loop:
  - the division timer;
  - the T-to-D change at division;
  - the neighbour tally;
  - the feedback inputs;
  - the differentiation check;
  - the return value.
- `cells.dfy`: the driver interface (`Sim`: the ID allocator and the addition
  queue), the `Agent` tag for queued agents, and the `DividingCell` and
  `StemCell` classes. Their `Update` methods are specified by the functions of
  `cell_rules.dfy`.
- `scenarios.dfy`: clients that draw conclusions from the contracts alone.

Python's inheritance becomes composition. Each cell class holds its
`SimulationObject` as `body`. The addition queue holds `Agent` values, which
tag a queued object as a dividing cell or a stem cell. The driver stand-in
`Sim` hands out IDs from a counter, so an ID is never repeated.

## Model

| member | source | states |
|---|---|---|
| SimObjects.SimulationObject.constructor | simulationObjects.py:14-39 | stores location, radius, ID, owner ID and type tag; both accumulators start at zero and all three gradient registries start empty |
| SimObjects.InteractionLengthsOrdered | simulationObjects.py:47-53 | the maximal interaction length is twice the default one (the radius), so for a non-negative radius the default never exceeds it |
| SimObjects.SpringConstantIsUniform | simulationObjects.py:55-61 | every agent has the same spring constant, 0.25, whatever the partner |
| SimObjects.SimulationObject.AddDisplacementVec | simulationObjects.py:63-66 | the displacement accumulator grows by the given vector componentwise; its frame allows no other field to change |
| SimObjects.SimulationObject.AddFixedConstraintVec | simulationObjects.py:68-71 | the fixed-constraint accumulator grows by the given vector componentwise; its frame allows no other field to change |
| SimObjects.SimulationObject.SetGradientSourceSinkCoeff | simulationObjects.py:73-91 | afterwards the getter returns (source, sink) for that name, overwriting any earlier pair, and returns what it did before for every other name |
| SimObjects.SimulationObject.SetGradientLocation | simulationObjects.py:93-108 | afterwards the getter returns the position for that name, overwriting any earlier one, and returns what it did before for every other name |
| SimObjects.SimulationObject.SetGradientValue | simulationObjects.py:110-123 | afterwards the getter returns the value for that name, overwriting any earlier one, and returns what it did before for every other name |
| SimObjects.NewObjectHasNoGradientData | simulationObjects.py:80-123 | on a new agent, every gradient name yields the sentinels (0, 0), None and -1 instead of an error |
| SimObjects.SimulationObject.UpdateConstraints | simulationObjects.py:125-145 | both accumulators end at zero; the location moves exactly as `IntegrateAsWritten` says; when both accumulators have magnitude at most 5 it moves by exactly their sum |
| SimObjects.ClampCapsMagnitude | simulationObjects.py:130-134 | a displacement of magnitude at most 5 is applied unchanged; a longer one is applied with magnitude exactly 5 in its own direction, given a normaliser that returns a unit vector along it |
| SimObjects.IntegrateWithinCap | simulationObjects.py:125-145 | within the cap, the as-written integration and the corrected one both move the agent by exactly the sum of the two accumulators |
| SimObjects.IntegrateMovesByClampedSteps | simulationObjects.py:125-145 | corrected integration: each accumulator moves the agent by at most 5, unchanged when within the cap and in its own direction when beyond it |
| SimObjects.FixedStepAsWrittenIgnoresDirection | simulationObjects.py:139-143 | as written, fixed vectors (10,0,0) and (-10,0,0) produce the same step, so at least one of them is not applied in its own direction |
| SimObjects.EqualsIsEquivalence | simulationObjects.py:152-158 | two agents are equal exactly when their IDs are equal (an equivalence), and an agent never equals a value that is not an agent |
| SimObjects.EqualObjectsHashAlike | simulationObjects.py:160-163 | the hash depends only on the ID, so equal agents hash alike |
| CellRules.Param | simulationObjects.py:298 | reading params[i] succeeds exactly when the vector exists and is longer than i; otherwise it raises, for a missing vector or for index i |
| CellRules.TimerStep | simulationObjects.py:268-270 | divides exactly when timer + dt reaches the division time; the timer then becomes 0, otherwise it grows by dt; with non-negative inputs and a positive division time the timer stays in [0, division time) |
| CellRules.DivisionOnceDue | simulationObjects.py:268-270 | with a non-negative step, once timer + n·dt reaches the division time at least one of the n steps has divided (the converse of `NoDivisionBeforeThreshold`) |
| CellRules.NoDivisionBeforeThreshold | simulationObjects.py:201-202 | while timer + n·dt stays below the division time there is no division in n steps, and the timer equals timer + n·dt |
| CellRules.FirstDivisionWhenDue | simulationObjects.py:268-290 | from a restarted timer, the first step whose accumulated time reaches the division time gives exactly one division and restarts the timer |
| CellRules.AtDivision | simulationObjects.py:273-276 | at division a T cell becomes D and takes division time 51; U and D cells keep their state and division time |
| CellRules.CountUndifferentiated | simulationObjects.py:311-312 | the number of neighbours in U or T is at most the number of neighbours |
| CellRules.CountDifferentiated | simulationObjects.py:313-314 | the number of neighbours in D is at most the number of neighbours |
| CellRules.TallyCoversNeighbours | simulationObjects.py:308-314 | every neighbour falls in exactly one of the two counts: u + d equals the number of neighbours |
| CellRules.TallyNeighbours | simulationObjects.py:306-314 | the counting loop returns the U-or-T count and the D count, which add up to the number of neighbours |
| CellRules.Fractions | simulationObjects.py:323-324 | with at least one neighbour, both fractions lie in [0, 1] and add up to 1 |
| CellRules.FeedbackInputs | simulationObjects.py:317-337 | as read by the rule: the negative feedback gets the U-or-T fraction with constant params[1] and coefficient params[4]; the positive feedback gets the D fraction with constant params[2] and coefficient params[3]; the two fractions add up to 1 |
| CellRules.FeedbackProbabilities | simulationObjects.py:317-337 | knf = params[1] equal to 0 raises a division by zero; otherwise, if the negative feedback fails its error is raised, and if it succeeds and the positive feedback fails the positive feedback's error is raised; on success the two probabilities are the feedback functions' values on the inputs above |
| CellRules.IntendedFeedbackInputs | simulationObjects.py:317-337 | corrected reading for the [a, k1, n1, k2, n2] layout: the negative feedback gets params[1], params[2] and the positive feedback gets params[3], params[4] |
| CellRules.SetupParams | ModelSetupSoluble.py:43-47 | the setup's parameter vector [a, k1, n1, k2, n2] has five entries, the basal probability first; the command-line help names k1, n1 as the negative rule's constant and coefficient and k2, n2 as the positive rule's |
| CellRules.FeedbackInputsMisreadSetupLayout | simulationObjects.py:317-320 | against the setup's layout, the positive feedback gets n1 as its constant and k2 as its coefficient, and the negative feedback gets n2; this differs from the intended reading whenever n1 ≠ k2 |
| CellRules.Differentiate | simulationObjects.py:292-347 | only U changes, and only to T; a draw below params[0] gives T; with no neighbours, T exactly when the basal draw fires; with neighbours, T exactly when the basal or either feedback draw fires; it raises exactly for a missing vector, a missing params[0], and, when there are neighbours, a missing params[1..4] or an error of the feedback probabilities; the error raised is `NoParams` for no vector (state stays U), `MissingParam(i)` for the first missing index i, and the feedback probabilities' own error (division by zero when knf = 0); after a raise past params[0] the state is T exactly when the basal draw fired |
| CellRules.StemStateStep | simulationObjects.py:268-347 | a step moves the state at most one stage forward, never back; it ends in D exactly when it started in D or a T cell divided; an undivided T stays T; only a U cell can raise |
| CellRules.Convergence | simulationObjects.py:352-355 | the step returns 1 exactly when the final state is D and 0 otherwise, or propagates the error |
| Cells.Sim.GetId | simulationObjects.py:281 | hands out the counter's value and advances it, so IDs strictly increase and never repeat |
| Cells.Sim.AddObjectToAdditionQueue | simulationObjects.py:288 | appends the agent to the end of the addition queue and changes nothing else |
| Cells.DividingCell.constructor | simulationObjects.py:168-193 | defaults: state U, no parameters, timer 0, division time 14, owner = own ID, type tag "dividingcell" |
| Cells.DividingCell.InteractionLength | simulationObjects.py:221-225 | the interaction length exceeds the base length (the radius), and stays within the diameter once the radius is at least 2 |
| Cells.DividingCell.Update | simulationObjects.py:195-218 | the timer follows `TimerStep`; on division, one new default DividingCell is appended at the child location, with the parent's radius and the allocator's next ID, which differs from the parent's when the parent's ID was allocated earlier (below the counter); otherwise the queue and the counter are unchanged; with a positive division time, a non-negative timer and a non-negative dt, the timer stays in [0, division time) |
| Cells.StemCell.constructor | simulationObjects.py:230-259 | defaults: no parameters, timer 0, division time 19, owner = own ID, type tag "stemcell" |
| Cells.StemCell.InteractionLength | simulationObjects.py:358-362 | the interaction length exceeds the base length (the radius), and stays within the diameter once the radius is at least 2 |
| Cells.StemCell.Update | simulationObjects.py:261-355 | timer, division time, state and return value follow `TimerStep`, `AtDivision`, `StemStateStep` and `Convergence`; on division, one StemCell is appended in the parent's post-division state, with the same params and division time, a fresh ID and timer 0; otherwise the queue is unchanged; it returns 1 exactly when the final state is D |
| Cells.StemCell.CheckDifferentiation | simulationObjects.py:292-355 | the state and the return value follow `Differentiate` and `Convergence` |

## Left out

- Random draws (`rand.random()`) are parameters of `StemCell.Update` (`Draws`). Two draws are ignored when there are no neighbours, as in the source.
- `RandomPointOnSphere` is not part of this model. The daughter's location is a parameter, `childLocation`.
- The vector library `simulationMath` is not part of this model:
  - `AddVec` and `ScaleVec` are taken to act componentwise;
  - `Mag(v) > 5` is modelled as `MagSq(v) > 25`, which is the same test for the Euclidean magnitude;
  - `NormVec` is a function-valued parameter. Being a Dafny function, it returns a value for every input, so the zero vector that the fixed-constraint clamp passes it (simulationObjects.py:141) yields some vector rather than an exception. An implementation that raises on the zero vector is not modelled.
- The Hill expressions `1/(1+(norm_u/knf)**n_n)` and `norm_d**n_p/(kpf**n_p+norm_d**n_p)` use floating-point real powers. They are function-valued parameters (`Feedback`) that get the inputs the code reads and return a value or an `ArithmeticError`.
- CellRules.Differentiate: the division by knf = 0 at simulationObjects.py:334 is modelled explicitly. Every other arithmetic error of the two Hill expressions is whatever the `Feedback` functions report. That covers overflow of `**`, a negative base raised to a fractional power, `0**negative`, and the zero denominator at simulationObjects.py:337 when kpf = 0 and there are no D neighbours.
- Floating-point rounding is not modelled: `division_timer += dt` and the clamp arithmetic are exact on reals. So a timer that reaches the division time only after rounding may divide one step earlier or later in the source.
- `sim.network.neighbors(self)` is replaced by the sequence of neighbour states it yields. Which agents are neighbours, and whether their states were already updated this step, is up to the caller.
- `print` (simulationObjects.py:207) and `__repr__` (simulationObjects.py:147-150) are output only.
- The base `update` (simulationObjects.py:41-44) does nothing and is not modelled.
- Left out because nothing uses them:
  - the unused `_v` field;
  - the unused `differentiation_rule` argument;
  - the commented-out competing-feedback rule (simulationObjects.py:326-330);
  - the apoptotic state A, which no code reaches. States are `U | T | D`.
- A `DividingCell`'s state is an arbitrary string in the source. Here it is a `CellState`; the cell never reads or changes it.
- `params` is a Python list shared by reference between a cell and its daughters. The code never mutates it, so it is an immutable `Option<seq<real>>`. `None` and too-short vectors raise an `UpdateError` where they are first read, after any division of that step. A state already set to T by the basal draw stays T.
- Cells.Sim.GetId: the driver's real allocator is not part of this model. A counter stands in for it.
- SimObjects.EqualObjectsHashAlike: models Python 2's hash of a machine-word integer (the integer itself, -1 mapped to -2). Python's hash of a long integer outside the word range is not modelled.
- Gradient grid positions are modelled as `seq<int>`, because the gradient solver that defines them is not part of this model.
- `ModelSetupSoluble.py` (command line, output folders, structure loading, wiring) and `simulationUtils.py` (directory creation) are I/O and are not modelled. Only the parameter layout (ModelSetupSoluble.py:43-47 and 155) appears, as `SetupParams`. That setup imports its `StemCell` from `StemCellSoluble` (ModelSetupSoluble.py:11). StemCellSoluble is not part of this model, so it is not known whether that class reads the vector the way `simulationObjects.py` does.
- The `get_spring_constant` docstring says it returns 1.0, but the code returns 0.25. The model follows the code.
- `UpdateConstraints` and `StemCell.Update` keep the two source defects below exactly as written. The corrected definitions are given beside them with their properties proved.

## Findings

| source | as written | input that shows it | evidently intended | confidence | as-written member | corrected member |
|---|---|---|---|---|---|---|
| simulationObjects.py:141 | the fixed-constraint clamp calls `NormVec(self._disp_vec)`, but line 136 has already cleared that vector | fixed-constraint vectors (10,0,0) and (-10,0,0) are applied identically, as 5·NormVec((0,0,0)), or the call fails if NormVec cannot handle a zero vector | `NormVec(self._fixed_contraint_vec)`, so a long fixed vector is applied with magnitude 5 in its own direction | high; not executed | SimObjects.FixedStepAsWrittenIgnoresDirection | SimObjects.IntegrateMovesByClampedSteps |
| simulationObjects.py:317-320 | reads kpf = params[2], n_p = params[3], n_n = params[4], while the setup builds [a, k1, n1, k2, n2] (ModelSetupSoluble.py:155), whose help text (ModelSetupSoluble.py:44-47) names k1, n1 for the negative rule and k2, n2 for the positive rule. That setup builds the `StemCell` of `StemCellSoluble` (ModelSetupSoluble.py:11), which is not part of this model, so the finding holds for any caller that passes this layout to the class in `simulationObjects.py` | params [0.01, 0.06, 10, 0.1, 100]: the positive feedback gets constant 10 and coefficient 0.1, the negative feedback gets coefficient 100 | negative feedback with (k1, n1) = params[1], params[2]; positive feedback with (k2, n2) = params[3], params[4] | medium; not executed | CellRules.FeedbackInputsMisreadSetupLayout | CellRules.IntendedFeedbackInputs |
