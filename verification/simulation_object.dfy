/**
 * The base agent of the simulation: a sphere with a location, a radius and a
 * unique ID, two per-step displacement accumulators that are folded into the
 * location once per step, and three per-gradient registries that the
 * gradient solver reads and writes.
 */
module SimObjects {
  import opened Wrappers
  import opened Vectors

  /** Indices of an agent on a gradient's grid, as the gradient solver stores them. */
  type GridIndex = seq<int>

  /** Largest magnitude one accumulator may move an agent by in a single step. */
  const MaxStep: real := 5.0

  /** The source/sink pair reported for a gradient name that was never set. */
  const NoSourceSink: (real, real) := (0.0, 0.0)

  /** The gradient value reported for a gradient name that was never set. */
  const NoGradientValue: real := -1.0

  /**
   * The right-hand side of an equality test: another simulation object, or any
   * other value (which is never equal to a simulation object).
   */
  datatype Comparand = Agent(obj: SimulationObject) | NotAnAgent
  {
    function Objects(): set<SimulationObject>
    {
      if Agent? then {obj} else {}
    }
  }

  /** Python 2's hash of a machine-word integer: the integer itself, except -1. */
  function IntHash(i: int): int
  {
    if i == -1 then -2 else i
  }

  /**
   * One accumulator as it is applied to the location: unchanged when its
   * magnitude is at most 5, otherwise the normalised vector scaled to 5.
   */
  function Clamp(v: Vec3, normVec: Vec3 -> Vec3): Vec3
  {
    if MagSq(v) > MaxStep * MaxStep then Scale(normVec(v), MaxStep) else v
  }

  /** The fixed-constraint step as written: over 5, it normalises the already cleared displacement vector. */
  function FixedStepAsWritten(fixed: Vec3, normVec: Vec3 -> Vec3): Vec3
  {
    if MagSq(fixed) > MaxStep * MaxStep then Scale(normVec(Zero), MaxStep) else fixed
  }

  /** The new location produced by update_constraints as written. */
  function IntegrateAsWritten(location: Vec3, disp: Vec3, fixed: Vec3, normVec: Vec3 -> Vec3): Vec3
  {
    Add(Add(location, Clamp(disp, normVec)), FixedStepAsWritten(fixed, normVec))
  }

  /** The new location when both accumulators are clamped by their own direction. */
  function Integrate(location: Vec3, disp: Vec3, fixed: Vec3, normVec: Vec3 -> Vec3): Vec3
  {
    Add(Add(location, Clamp(disp, normVec)), Clamp(fixed, normVec))
  }

  /**
   * The clamp caps the step: a vector of magnitude at most 5 is applied
   * unchanged, a longer one is applied with magnitude exactly 5 in its own
   * direction, provided the normaliser returns a unit vector along it.
   */
  lemma ClampCapsMagnitude(v: Vec3, normVec: Vec3 -> Vec3)
    requires MagSq(v) > 25.0 ==> UnitAlong(normVec(v), v)
    ensures MagSq(v) <= 25.0 ==> Clamp(v, normVec) == v
    ensures MagSq(v) > 25.0 ==> MagSq(Clamp(v, normVec)) == 25.0 && SameDirection(Clamp(v, normVec), v)
    ensures MagSq(Clamp(v, normVec)) <= 25.0
  {
    if MagSq(v) > 25.0 {
      MagSqScale(normVec(v), MaxStep);
      ScaleKeepsDirection(normVec(v), v, MaxStep);
    }
  }

  /**
   * With both accumulators clamped by their own direction, the agent moves by
   * the clamped displacement plus the clamped fixed-constraint vector; each
   * step is at most 5 long, equals its accumulator within the cap, and beyond
   * the cap is exactly 5 long in the accumulator's own direction.
   */
  lemma IntegrateMovesByClampedSteps(location: Vec3, disp: Vec3, fixed: Vec3, normVec: Vec3 -> Vec3)
    requires MagSq(disp) > 25.0 ==> UnitAlong(normVec(disp), disp)
    requires MagSq(fixed) > 25.0 ==> UnitAlong(normVec(fixed), fixed)
    ensures Integrate(location, disp, fixed, normVec) == Add(Add(location, Clamp(disp, normVec)), Clamp(fixed, normVec))
    ensures MagSq(Clamp(disp, normVec)) <= 25.0 && MagSq(Clamp(fixed, normVec)) <= 25.0
    ensures MagSq(disp) <= 25.0 ==> Clamp(disp, normVec) == disp
    ensures MagSq(fixed) <= 25.0 ==> Clamp(fixed, normVec) == fixed
    ensures MagSq(disp) > 25.0 ==> MagSq(Clamp(disp, normVec)) == 25.0 && SameDirection(Clamp(disp, normVec), disp)
    ensures MagSq(fixed) > 25.0 ==> MagSq(Clamp(fixed, normVec)) == 25.0 && SameDirection(Clamp(fixed, normVec), fixed)
  {
    ClampCapsMagnitude(disp, normVec);
    ClampCapsMagnitude(fixed, normVec);
  }

  /**
   * Within the cap the as-written and the corrected integration agree: the
   * new location is the old one plus both accumulators.
   */
  lemma IntegrateWithinCap(location: Vec3, disp: Vec3, fixed: Vec3, normVec: Vec3 -> Vec3)
    requires MagSq(disp) <= 25.0 && MagSq(fixed) <= 25.0
    ensures IntegrateAsWritten(location, disp, fixed, normVec) == Add(Add(location, disp), fixed)
    ensures Integrate(location, disp, fixed, normVec) == Add(Add(location, disp), fixed)
  {
  }

  /**
   * As written, a fixed-constraint vector longer than 5 is replaced by a vector
   * that does not depend on it: two opposite vectors of length 10 move the
   * agent identically, so at least one of them is not applied in its own
   * direction, whatever the normaliser does with the zero vector.
   */
  lemma FixedStepAsWrittenIgnoresDirection(normVec: Vec3 -> Vec3)
    ensures FixedStepAsWritten(Vec3(10.0, 0.0, 0.0), normVec) == FixedStepAsWritten(Vec3(-10.0, 0.0, 0.0), normVec)
    ensures !SameDirection(FixedStepAsWritten(Vec3(10.0, 0.0, 0.0), normVec), Vec3(10.0, 0.0, 0.0))
         || !SameDirection(FixedStepAsWritten(Vec3(-10.0, 0.0, 0.0), normVec), Vec3(-10.0, 0.0, 0.0))
  {
    var w := Scale(normVec(Zero), MaxStep);
    assert FixedStepAsWritten(Vec3(10.0, 0.0, 0.0), normVec) == w;
    assert FixedStepAsWritten(Vec3(-10.0, 0.0, 0.0), normVec) == w;
    assert Dot(w, Vec3(10.0, 0.0, 0.0)) == -Dot(w, Vec3(-10.0, 0.0, 0.0));
  }

  class SimulationObject {
    var location: Vec3
    var radius: real
    /** The identity used for equality and hashing; the driver keeps it unique. */
    const id: int
    var ownerId: int
    /** The tag naming the concrete kind of agent ("dividingcell", "stemcell", ...). */
    const simType: string
    var dispVec: Vec3
    var fixedConstraintVec: Vec3
    var gradientSourceSinkCoeff: map<string, (real, real)>
    var gradientPosition: map<string, GridIndex>
    var gradientValue: map<string, real>

    /** The object holds the given fields, clear accumulators and empty gradient registries. */
    ghost predicate IsInitial(location: Vec3, radius: real, id: int, ownerId: int, simType: string)
      reads this
    {
      && this.location == location && this.radius == radius
      && this.id == id && this.ownerId == ownerId && this.simType == simType
      && dispVec == Zero && fixedConstraintVec == Zero
      && gradientSourceSinkCoeff == map[] && gradientPosition == map[] && gradientValue == map[]
    }

    constructor (location: Vec3, radius: real, id: int, ownerId: int, simType: string)
      ensures IsInitial(location, radius, id, ownerId, simType)
    {
      this.location := location;
      this.radius := radius;
      this.id := id;
      this.ownerId := ownerId;
      this.simType := simType;
      dispVec := Zero;
      fixedConstraintVec := Zero;
      gradientSourceSinkCoeff := map[];
      gradientPosition := map[];
      gradientValue := map[];
    }

    /** The longest distance at which this agent can interact: its diameter. */
    function MaxInteractionLength(): real
      reads this
    {
      radius * 2.0
    }

    /** The default interaction length: the radius itself. */
    function InteractionLength(): real
      reads this
    {
      radius
    }

    /** The stiffness of the spring to any other agent: one fixed default. */
    function SpringConstant(other: SimulationObject): real
    {
      0.25
    }

    method AddDisplacementVec(v: Vec3)
      modifies this`dispVec
      ensures dispVec == Add(old(dispVec), v)
    {
      dispVec := Add(dispVec, v);
    }

    method AddFixedConstraintVec(v: Vec3)
      modifies this`fixedConstraintVec
      ensures fixedConstraintVec == Add(old(fixedConstraintVec), v)
    {
      fixedConstraintVec := Add(fixedConstraintVec, v);
    }

    method SetGradientSourceSinkCoeff(name: string, source: real, sink: real)
      modifies this`gradientSourceSinkCoeff
      ensures GradientSourceSinkCoeff(name) == (source, sink)
      ensures forall other :: other != name ==> GradientSourceSinkCoeff(other) == old(GradientSourceSinkCoeff(other))
    {
      gradientSourceSinkCoeff := gradientSourceSinkCoeff[name := (source, sink)];
    }

    /** The (source, sink) pair last set under name, or (0, 0) when none was set. */
    function GradientSourceSinkCoeff(name: string): (real, real)
      reads this
    {
      if name in gradientSourceSinkCoeff then gradientSourceSinkCoeff[name] else NoSourceSink
    }

    method SetGradientLocation(name: string, position: GridIndex)
      modifies this`gradientPosition
      ensures GradientLocation(name) == Some(position)
      ensures forall other :: other != name ==> GradientLocation(other) == old(GradientLocation(other))
    {
      gradientPosition := gradientPosition[name := position];
    }

    /** The grid position last set under name, or None when none was set. */
    function GradientLocation(name: string): Option<GridIndex>
      reads this
    {
      if name in gradientPosition then Some(gradientPosition[name]) else None
    }

    method SetGradientValue(name: string, value: real)
      modifies this`gradientValue
      ensures GradientValue(name) == value
      ensures forall other :: other != name ==> GradientValue(other) == old(GradientValue(other))
    {
      gradientValue := gradientValue[name := value];
    }

    /** The gradient value last set under name, or -1 when none was set. */
    function GradientValue(name: string): real
      reads this
    {
      if name in gradientValue then gradientValue[name] else NoGradientValue
    }

    /**
     * Folds both accumulators into the location, each capped at magnitude 5,
     * then clears them.  The fixed-constraint cap normalises the displacement
     * vector after it has been cleared, as the source does.  dt is unused.
     */
    method UpdateConstraints(dt: real, normVec: Vec3 -> Vec3)
      modifies this`location, this`dispVec, this`fixedConstraintVec
      ensures dispVec == Zero && fixedConstraintVec == Zero
      ensures location == IntegrateAsWritten(old(location), old(dispVec), old(fixedConstraintVec), normVec)
      ensures MagSq(old(dispVec)) <= 25.0 && MagSq(old(fixedConstraintVec)) <= 25.0 ==>
                location == Add(Add(old(location), old(dispVec)), old(fixedConstraintVec))
    {
      if MagSq(dispVec) > MaxStep * MaxStep {
        var n := normVec(dispVec);
        dispVec := Scale(n, MaxStep);
      }
      location := Add(location, dispVec);
      dispVec := Zero;

      if MagSq(fixedConstraintVec) > MaxStep * MaxStep {
        var n := normVec(dispVec);
        fixedConstraintVec := Scale(n, MaxStep);
      }
      location := Add(location, fixedConstraintVec);
      fixedConstraintVec := Zero;
    }

    /** Equality is decided by ID alone, and only against another simulation object. */
    predicate Equals(other: Comparand)
      reads this, other.Objects()
    {
      other.Agent? && other.obj.id == id
    }

    /** The hash of the ID and nothing else. */
    function Hash(): int
      reads this
    {
      IntHash(id)
    }
  }

  /** The interaction length is half the maximal one, so never beyond it. */
  lemma InteractionLengthsOrdered(o: SimulationObject)
    requires o.radius >= 0.0
    ensures o.MaxInteractionLength() == 2.0 * o.InteractionLength()
    ensures o.InteractionLength() <= o.MaxInteractionLength()
  {
  }

  /** Every pair of agents is joined by a spring of the same stiffness, 0.25. */
  lemma SpringConstantIsUniform(a: SimulationObject, b: SimulationObject, p: SimulationObject, q: SimulationObject)
    ensures a.SpringConstant(p) == b.SpringConstant(q) == 0.25
  {
  }

  /**
   * A new agent has no gradient data: every name yields the sentinels
   * (0, 0), None and -1 rather than an error.
   */
  lemma NewObjectHasNoGradientData(o: SimulationObject, location: Vec3, radius: real, id: int, ownerId: int,
                                   simType: string, name: string)
    requires o.IsInitial(location, radius, id, ownerId, simType)
    ensures o.GradientSourceSinkCoeff(name) == NoSourceSink
    ensures o.GradientLocation(name) == None
    ensures o.GradientValue(name) == NoGradientValue
  {
  }

  /** Equality by ID is an equivalence, and never holds against a non-agent. */
  lemma EqualsIsEquivalence(a: SimulationObject, b: SimulationObject, c: SimulationObject)
    ensures a.Equals(Agent(a))
    ensures a.Equals(Agent(b)) <==> b.Equals(Agent(a))
    ensures a.Equals(Agent(b)) && b.Equals(Agent(c)) ==> a.Equals(Agent(c))
    ensures !a.Equals(NotAnAgent)
    ensures a.Equals(Agent(b)) <==> a.id == b.id
  {
  }

  /** Equal objects hash alike, and the hash depends on the ID only. */
  lemma EqualObjectsHashAlike(a: SimulationObject, b: SimulationObject)
    ensures a.Equals(Agent(b)) ==> a.Hash() == b.Hash()
    ensures a.id == b.id ==> a.Hash() == b.Hash()
  {
  }
}
