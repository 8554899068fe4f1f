/**
 * Clients of the agent contracts: what a driver can conclude about a step
 * from the specifications alone.
 */
module Scenarios {
  import opened Wrappers
  import opened Vectors
  import opened SimObjects
  import opened CellRules
  import opened Cells

  /** Gradient registries: the last set value wins, unset names give the sentinels. */
  method GradientRegistryScenario(v1: real, v2: real)
  {
    var agent := new SimulationObject(Zero, 5.0, 7, 7, "stemcell");
    assert agent.GradientValue("LIF") == -1.0;
    assert agent.GradientSourceSinkCoeff("LIF") == (0.0, 0.0);
    assert agent.GradientLocation("LIF") == None;
    agent.SetGradientValue("LIF", v1);
    agent.SetGradientValue("TNF", v2);
    agent.SetGradientValue("LIF", v2);
    assert agent.GradientValue("LIF") == v2 && agent.GradientValue("TNF") == v2;
    agent.SetGradientSourceSinkCoeff("TNF", v1, v2 / 2.0);
    assert agent.GradientSourceSinkCoeff("TNF") == (v1, v2 / 2.0);
    assert agent.GradientSourceSinkCoeff("LIF") == (0.0, 0.0);
  }

  /** Two agents with the same ID are equal and hash alike, wherever they are. */
  method IdentityScenario()
  {
    var a := new SimulationObject(Zero, 5.0, 3, 3, "stemcell");
    var b := new SimulationObject(Vec3(1.0, 2.0, 3.0), 4.0, 3, 9, "dividingcell");
    a.AddDisplacementVec(Vec3(1.0, 0.0, 0.0));
    assert a.Equals(Agent(b)) && a.Hash() == b.Hash();
    assert !a.Equals(NotAnAgent);
  }

  /** A transitioning cell due to divide becomes D, slows to 51 and leaves a D daughter. */
  method DivisionScenario(draws: Draws, negativeFeedback: Feedback, positiveFeedback: Feedback)
  {
    var sim := new Sim(100);
    var params := Some([0.01, 0.5, 10.0, 0.5, 10.0]);
    var cell := new StemCell(Zero, 5.0, 4, T, params, divisionSet := 18.5);
    var r := cell.Update(sim, 0.5, Vec3(0.0, 0.0, 2.5), [U, D], draws, negativeFeedback, positiveFeedback);
    assert r == Success(1);
    assert cell.state == D && cell.divisionTime == 51.0 && cell.divisionTimer == 0.0;
    assert |sim.additionQueue| == 1;
    var daughter := sim.additionQueue[0].stem;
    assert daughter.state == D && daughter.divisionTime == 51.0 && daughter.params == params;
    assert daughter.body.id == 100 && daughter.body.radius == 5.0;
  }

  /** An undifferentiated cell with no neighbours changes only by the basal draw. */
  method BasalOnlyScenario(basal: real, negativeFeedback: Feedback, positiveFeedback: Feedback)
  {
    var sim := new Sim(100);
    var cell := new StemCell(Zero, 5.0, 4, U, Some([0.25]));
    var r := cell.Update(sim, 1.0, Zero, [], Draws(basal, 0.0, 0.0), negativeFeedback, positiveFeedback);
    assert r == Success(0);
    assert cell.state == T <==> basal < 0.25;
    assert sim.additionQueue == [];
  }

  /** With neighbours, a zero negative-feedback constant raises a division by zero whatever the feedback functions do. */
  method ZeroConstantScenario(negativeFeedback: Feedback, positiveFeedback: Feedback)
  {
    var sim := new Sim(100);
    var cell := new StemCell(Zero, 5.0, 4, U, Some([0.0, 0.0, 0.5, 10.0, 10.0]));
    var r := cell.Update(sim, 1.0, Zero, [U, D], Draws(0.5, 0.5, 0.5), negativeFeedback, positiveFeedback);
    assert r == Failure(Arithmetic(ZeroDivision));
    assert cell.state == U;
  }
}
