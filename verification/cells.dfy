/**
 * The cell agents and the part of the simulation driver they talk to.  A
 * DividingCell only divides on its timer; a StemCell also runs the U, T, D
 * differentiation rule.  Both place their daughters on the driver's
 * addition queue rather than in the live population.
 */
module Cells {
  import opened Wrappers
  import opened Vectors
  import opened SimObjects
  import opened CellRules

  /** The tag naming each kind of cell agent. */
  const DividingCellType: string := "dividingcell"
  const StemCellType: string := "stemcell"

  /** The halo beyond the radius within which a cell interacts. */
  const InteractionHalo: real := 2.0

  /** Default division times of the two kinds of cell. */
  const DividingCellDivisionTime: real := 14.0
  const StemCellDivisionTime: real := 19.0

  /** An agent waiting on the addition queue, tagged by its kind. */
  datatype Agent = Dividing(dividing: DividingCell) | Stem(stem: StemCell)

  /**
   * The driver as the agents see it: an ID allocator that never repeats an
   * ID, and a queue of agents waiting to join the population after the sweep.
   */
  class Sim {
    var nextId: int
    var additionQueue: seq<Agent>

    constructor (firstId: int)
      ensures nextId == firstId && additionQueue == []
    {
      nextId := firstId;
      additionQueue := [];
    }

    /** Hands out a fresh ID, larger than every ID handed out before. */
    method GetId() returns (id: int)
      modifies this`nextId
      ensures id == old(nextId) && nextId == id + 1
    {
      id := nextId;
      nextId := nextId + 1;
    }

    method AddObjectToAdditionQueue(a: Agent)
      modifies this`additionQueue
      ensures additionQueue == old(additionQueue) + [a]
    {
      additionQueue := additionQueue + [a];
    }
  }

  class DividingCell {
    const body: SimulationObject
    var state: CellState
    var params: Option<seq<real>>
    var divisionTimer: real
    var divisionTime: real

    /** The cell is as the constructor leaves it; its owner is itself when no owner is given. */
    ghost predicate IsInitial(location: Vec3, radius: real, id: int, state: CellState, params: Option<seq<real>>,
                              divisionSet: real, divisionTime: real, ownerId: Option<int>)
      reads this, body
    {
      && body.IsInitial(location, radius, id, if ownerId.Some? then ownerId.value else id, DividingCellType)
      && this.state == state && this.params == params
      && divisionTimer == divisionSet && this.divisionTime == divisionTime
    }

    constructor (location: Vec3, radius: real, id: int, state: CellState := U, params: Option<seq<real>> := None,
                 divisionSet: real := 0.0, divisionTime: real := DividingCellDivisionTime,
                 ownerId: Option<int> := None)
      ensures fresh(body)
      ensures IsInitial(location, radius, id, state, params, divisionSet, divisionTime, ownerId)
    {
      var owner := if ownerId.Some? then ownerId.value else id;
      this.state := state;
      this.params := params;
      divisionTimer := divisionSet;
      this.divisionTime := divisionTime;
      body := new SimulationObject(location, radius, id, owner, DividingCellType);
    }

    /** A cell interacts up to 2 units beyond its radius, which stays within its diameter once the radius is at least 2. */
    function InteractionLength(): (r: real)
      reads this, body
      ensures r > body.InteractionLength()
      ensures body.radius >= InteractionHalo ==> r <= body.MaxInteractionLength()
    {
      body.radius + InteractionHalo
    }

    /**
     * Advances the division timer by dt.  On reaching the division time the
     * cell places one default DividingCell (state U, no parameters, division
     * time 14) of its own radius at childLocation, with a fresh ID, on the
     * addition queue, and restarts its timer.
     */
    method Update(sim: Sim, dt: real, childLocation: Vec3)
      modifies this`divisionTimer, sim
      ensures var t := TimerStep(old(divisionTimer), dt, divisionTime);
              && divisionTimer == t.timer
              && (t.divides ==>
                    && sim.nextId == old(sim.nextId) + 1
                    && |sim.additionQueue| == |old(sim.additionQueue)| + 1
                    && sim.additionQueue[..|old(sim.additionQueue)|] == old(sim.additionQueue)
                    && var child := sim.additionQueue[|old(sim.additionQueue)|];
                       && child.Dividing? && fresh(child.dividing) && fresh(child.dividing.body)
                       && child.dividing.IsInitial(childLocation, body.radius, old(sim.nextId), U, None,
                                                   0.0, DividingCellDivisionTime, None))
              && (!t.divides ==> sim.nextId == old(sim.nextId) && sim.additionQueue == old(sim.additionQueue))
      ensures body.id < old(sim.nextId) && |sim.additionQueue| > |old(sim.additionQueue)| ==>
                sim.additionQueue[|old(sim.additionQueue)|].dividing.body.id != body.id
      ensures 0.0 < divisionTime && 0.0 <= old(divisionTimer) && 0.0 <= dt ==> 0.0 <= divisionTimer < divisionTime
    {
      divisionTimer := divisionTimer + dt;
      if divisionTimer >= divisionTime {
        var radius := body.radius;
        var id := sim.GetId();
        var child := new DividingCell(childLocation, radius, id);
        sim.AddObjectToAdditionQueue(Dividing(child));
        divisionTimer := 0.0;
      }
    }
  }

  class StemCell {
    const body: SimulationObject
    var state: CellState
    var divisionTimer: real
    var divisionTime: real
    /** The parameter vector [a, k1, n1, k2, n2], shared with every daughter. */
    const params: Option<seq<real>>

    /** The cell is as the constructor leaves it; its owner is itself when no owner is given. */
    ghost predicate IsInitial(location: Vec3, radius: real, id: int, state: CellState, params: Option<seq<real>>,
                              divisionSet: real, divisionTime: real, ownerId: Option<int>)
      reads this, body
    {
      && body.IsInitial(location, radius, id, if ownerId.Some? then ownerId.value else id, StemCellType)
      && this.state == state && this.params == params
      && divisionTimer == divisionSet && this.divisionTime == divisionTime
    }

    constructor (location: Vec3, radius: real, id: int, state: CellState, params: Option<seq<real>> := None,
                 divisionSet: real := 0.0, divisionTime: real := StemCellDivisionTime,
                 ownerId: Option<int> := None)
      ensures fresh(body)
      ensures IsInitial(location, radius, id, state, params, divisionSet, divisionTime, ownerId)
    {
      var owner := if ownerId.Some? then ownerId.value else id;
      this.state := state;
      divisionTimer := divisionSet;
      this.divisionTime := divisionTime;
      this.params := params;
      body := new SimulationObject(location, radius, id, owner, StemCellType);
    }

    /** A cell interacts up to 2 units beyond its radius, which stays within its diameter once the radius is at least 2. */
    function InteractionLength(): (r: real)
      reads this, body
      ensures r > body.InteractionLength()
      ensures body.radius >= InteractionHalo ==> r <= body.MaxInteractionLength()
    {
      body.radius + InteractionHalo
    }

    /**
     * One step of a stem cell.  The timer advances by dt; on reaching the
     * division time a T cell becomes D with division time 51, and a daughter
     * in the cell's (new) state, with the same parameters and division time,
     * a fresh ID and a restarted timer, is placed at childLocation on the
     * addition queue.  A U cell then runs the differentiation check against
     * the states of its neighbours.  The result is 1 when the cell ends in D,
     * else 0, or the error raised by a missing parameter.
     */
    method Update(sim: Sim, dt: real, childLocation: Vec3, neighbours: seq<CellState>, draws: Draws,
                  negativeFeedback: Feedback, positiveFeedback: Feedback)
      returns (r: Result<nat, UpdateError>)
      modifies this`state, this`divisionTimer, this`divisionTime, sim
      ensures var t := TimerStep(old(divisionTimer), dt, old(divisionTime));
              var (divided, newTime) := if t.divides then AtDivision(old(state), old(divisionTime))
                                        else (old(state), old(divisionTime));
              var decision := StemStateStep(old(state), t.divides, params, neighbours, draws,
                                            negativeFeedback, positiveFeedback);
              && divisionTimer == t.timer
              && divisionTime == newTime
              && state == decision.state
              && r == Convergence(decision)
              && (t.divides ==>
                    && sim.nextId == old(sim.nextId) + 1
                    && |sim.additionQueue| == |old(sim.additionQueue)| + 1
                    && sim.additionQueue[..|old(sim.additionQueue)|] == old(sim.additionQueue)
                    && var child := sim.additionQueue[|old(sim.additionQueue)|];
                       && child.Stem? && fresh(child.stem) && fresh(child.stem.body)
                       && child.stem.IsInitial(childLocation, body.radius, old(sim.nextId), divided, params,
                                               0.0, newTime, None))
              && (!t.divides ==> sim.nextId == old(sim.nextId) && sim.additionQueue == old(sim.additionQueue))
      ensures body.id < old(sim.nextId) && |sim.additionQueue| > |old(sim.additionQueue)| ==>
                sim.additionQueue[|old(sim.additionQueue)|].stem.body.id != body.id
      ensures r.Success? ==> (r.value == 1 <==> state == D)
    {
      divisionTimer := divisionTimer + dt;
      if divisionTimer >= divisionTime {
        if state == T {
          state := D;
          divisionTime := DifferentiatedDivisionTime;
        }
        var radius := body.radius;
        var id := sim.GetId();
        var child := new StemCell(childLocation, radius, id, state, params, divisionTime := divisionTime);
        sim.AddObjectToAdditionQueue(Stem(child));
        divisionTimer := 0.0;
      }

      r := CheckDifferentiation(neighbours, draws, negativeFeedback, positiveFeedback);
    }

    /**
     * The differentiation check that ends a step: a U cell runs the basal
     * draw and, when it has neighbours, the two feedback draws.  The result
     * is 1 when the cell is in D, else 0, or the error raised on the way.
     */
    method CheckDifferentiation(neighbours: seq<CellState>, draws: Draws,
                                negativeFeedback: Feedback, positiveFeedback: Feedback)
      returns (r: Result<nat, UpdateError>)
      modifies this`state
      ensures var decision := Differentiate(old(state), params, neighbours, draws, negativeFeedback, positiveFeedback);
              state == decision.state && r == Convergence(decision)
    {
      if state == U {
        var prob;
        match Param(params, 0) {
          case Failure(e) => return Failure(e);
          case Success(p0) => prob := p0;
        }
        if draws.basal < prob {
          state := T;
        }

        var tot := |neighbours|;
        if tot > 0 {
          var u, d := TallyNeighbours(neighbours);
          var knf, kpf, nP, nN;
          match (Param(params, 1), Param(params, 2), Param(params, 3), Param(params, 4)) {
            case (Failure(e), _, _, _) => return Failure(e);
            case (_, Failure(e), _, _) => return Failure(e);
            case (_, _, Failure(e), _) => return Failure(e);
            case (_, _, _, Failure(e)) => return Failure(e);
            case (Success(k1), Success(k2), Success(n3), Success(n4)) =>
              knf, kpf, nP, nN := k1, k2, n3, n4;
          }
          var normU := u as real / tot as real;
          var normD := d as real / tot as real;
          if knf == 0.0 {
            return Failure(Arithmetic(ZeroDivision));
          }
          var negative, positive;
          match negativeFeedback(normU, knf, nN) {
            case Failure(e) => return Failure(Arithmetic(e));
            case Success(v) => negative := v;
          }
          match positiveFeedback(normD, kpf, nP) {
            case Failure(e) => return Failure(Arithmetic(e));
            case Success(v) => positive := v;
          }
          if draws.negative < negative || draws.positive < positive {
            state := T;
          }
        }
      }

      r := if state == D then Success(1) else Success(0);
    }
  }
}
