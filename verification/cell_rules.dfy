/**
 * The decision rules of the cell agents, as functions of the values they
 * read: the division timer, the state change that goes with a division, the
 * tally of neighbour states, and the feedback rule by which an
 * undifferentiated stem cell starts to differentiate.
 */
module CellRules {
  import opened Wrappers

  /** U: undifferentiated, T: transitioning, D: differentiated. */
  datatype CellState = U | T | D

  /** How far along the U, T, D sequence a state is. */
  function Rank(s: CellState): nat
  {
    match s
    case U => 0
    case T => 1
    case D => 2
  }

  /** The division time a cell takes on when it becomes differentiated. */
  const DifferentiatedDivisionTime: real := 51.0

  /** Errors raised by floating-point arithmetic: division by zero, overflow, a power outside its domain. */
  datatype ArithmeticError = ZeroDivision | Overflow | MathDomain

  /**
   * The errors a step can raise.  A broken parameter vector is found when it
   * is first read: no vector at all (indexing None) or one too short for the
   * index read.  The feedback expressions can raise arithmetic errors.
   */
  datatype UpdateError = NoParams | MissingParam(index: nat) | Arithmetic(error: ArithmeticError)

  /** Reading entry i of the parameter vector. */
  function Param(params: Option<seq<real>>, i: nat): (r: Result<real, UpdateError>)
    ensures r.Success? <==> params.Some? && i < |params.value|
    ensures r.Success? ==> r.value == params.value[i]
    ensures params.None? ==> r == Failure(NoParams)
    ensures params.Some? && |params.value| <= i ==> r == Failure(MissingParam(i))
  {
    match params
    case None => Failure(NoParams)
    case Some(p) => if i < |p| then Success(p[i]) else Failure(MissingParam(i))
  }

  // ---------------------------------------------------------------------
  // Division timer
  // ---------------------------------------------------------------------

  /** What one step does to the division timer, and whether the cell divides. */
  datatype TimerOutcome = TimerOutcome(divides: bool, timer: real)

  /**
   * The timer grows by dt; once it reaches the division time the cell
   * divides and the timer restarts from 0.
   */
  function TimerStep(timer: real, dt: real, divisionTime: real): (r: TimerOutcome)
    ensures r.divides <==> timer + dt >= divisionTime
    ensures r.divides ==> r.timer == 0.0
    ensures !r.divides ==> r.timer == timer + dt
    ensures 0.0 < divisionTime && 0.0 <= timer && 0.0 <= dt ==> 0.0 <= r.timer < divisionTime
  {
    var grown := timer + dt;
    if grown >= divisionTime then TimerOutcome(true, 0.0) else TimerOutcome(false, grown)
  }

  /** The timer after n steps of length dt, with a fixed division time. */
  function TimerAfter(timer: real, dt: real, divisionTime: real, n: nat): real
  {
    if n == 0 then timer else TimerStep(TimerAfter(timer, dt, divisionTime, n - 1), dt, divisionTime).timer
  }

  /** How many of n steps of length dt end in a division. */
  function DivisionsIn(timer: real, dt: real, divisionTime: real, n: nat): nat
  {
    if n == 0 then 0
    else
      var before := DivisionsIn(timer, dt, divisionTime, n - 1);
      if TimerStep(TimerAfter(timer, dt, divisionTime, n - 1), dt, divisionTime).divides then before + 1 else before
  }

  /**
   * As long as the accumulated time stays below the division time the cell
   * does not divide, and the timer holds exactly the time accumulated.
   */
  lemma {:induction false} NoDivisionBeforeThreshold(timer: real, dt: real, divisionTime: real, n: nat)
    requires 0.0 <= dt
    requires timer + (n as real) * dt < divisionTime
    ensures DivisionsIn(timer, dt, divisionTime, n) == 0
    ensures TimerAfter(timer, dt, divisionTime, n) == timer + (n as real) * dt
  {
    if n > 0 {
      assert timer + ((n - 1) as real) * dt <= timer + (n as real) * dt;
      NoDivisionBeforeThreshold(timer, dt, divisionTime, n - 1);
    }
  }

  /**
   * Once the accumulated time reaches the division time the cell has divided:
   * the converse of NoDivisionBeforeThreshold.
   */
  lemma {:induction false} DivisionOnceDue(timer: real, dt: real, divisionTime: real, n: nat)
    requires 0.0 <= dt && n > 0
    requires timer + (n as real) * dt >= divisionTime
    ensures DivisionsIn(timer, dt, divisionTime, n) >= 1
  {
    var elapsed := ((n - 1) as real) * dt;
    assert elapsed + dt == (n as real) * dt;
    if n == 1 {
      assert TimerStep(timer, dt, divisionTime).divides;
    } else if timer + elapsed >= divisionTime {
      DivisionOnceDue(timer, dt, divisionTime, n - 1);
    } else {
      NoDivisionBeforeThreshold(timer, dt, divisionTime, n - 1);
      assert TimerStep(TimerAfter(timer, dt, divisionTime, n - 1), dt, divisionTime).divides;
    }
  }

  /**
   * Starting from a restarted timer, a cell whose step is shorter than its
   * division time divides exactly once in the first n steps when the n-th
   * step is the first to reach the division time.
   */
  lemma {:induction false} FirstDivisionWhenDue(dt: real, divisionTime: real, n: nat)
    requires 0.0 < dt && n > 0
    requires ((n - 1) as real) * dt < divisionTime <= (n as real) * dt
    ensures DivisionsIn(0.0, dt, divisionTime, n) == 1
    ensures TimerAfter(0.0, dt, divisionTime, n) == 0.0
  {
    NoDivisionBeforeThreshold(0.0, dt, divisionTime, n - 1);
    assert ((n - 1) as real) * dt + dt == (n as real) * dt;
  }

  /** On division a transitioning cell becomes differentiated and slows to a division time of 51. */
  function AtDivision(s: CellState, divisionTime: real): (r: (CellState, real))
    ensures r.0 == D <==> s == D || s == T
    ensures r.0 != s ==> s == T && r.1 == DifferentiatedDivisionTime
    ensures s != T ==> r == (s, divisionTime)
  {
    if s == T then (D, DifferentiatedDivisionTime) else (s, divisionTime)
  }

  // ---------------------------------------------------------------------
  // Neighbour tally
  // ---------------------------------------------------------------------

  /** Neighbours not yet differentiated: those in U or T. */
  function CountUndifferentiated(nbs: seq<CellState>): (n: nat)
    ensures n <= |nbs|
  {
    if nbs == [] then 0
    else CountUndifferentiated(nbs[..|nbs| - 1]) + (if nbs[|nbs| - 1] != D then 1 else 0)
  }

  /** Neighbours that are differentiated: those in D. */
  function CountDifferentiated(nbs: seq<CellState>): (n: nat)
    ensures n <= |nbs|
  {
    if nbs == [] then 0
    else CountDifferentiated(nbs[..|nbs| - 1]) + (if nbs[|nbs| - 1] == D then 1 else 0)
  }

  /** Every neighbour falls in exactly one of the two counts. */
  lemma {:induction false} TallyCoversNeighbours(nbs: seq<CellState>)
    ensures CountUndifferentiated(nbs) + CountDifferentiated(nbs) == |nbs|
  {
    if nbs != [] {
      TallyCoversNeighbours(nbs[..|nbs| - 1]);
    }
  }

  /**
   * Counts the neighbours in U or T and those in D, one neighbour at a time.
   */
  method TallyNeighbours(nbs: seq<CellState>) returns (u: nat, d: nat)
    ensures u == CountUndifferentiated(nbs) && d == CountDifferentiated(nbs)
    ensures u + d == |nbs|
  {
    u, d := 0, 0;
    for i := 0 to |nbs|
      invariant u == CountUndifferentiated(nbs[..i])
      invariant d == CountDifferentiated(nbs[..i])
    {
      assert nbs[..i + 1][..i] == nbs[..i];
      if nbs[i] == U || nbs[i] == T {
        u := u + 1;
      }
      if nbs[i] == D {
        d := d + 1;
      }
    }
    assert nbs[..|nbs|] == nbs;
    TallyCoversNeighbours(nbs);
  }

  /** The fractions of neighbours in U or T and in D; they make up the whole. */
  function Fractions(nbs: seq<CellState>): (r: (real, real))
    requires |nbs| > 0
    ensures 0.0 <= r.0 <= 1.0 && 0.0 <= r.1 <= 1.0
    ensures r.0 + r.1 == 1.0
  {
    TallyCoversNeighbours(nbs);
    var tot := |nbs| as real;
    var u, d := CountUndifferentiated(nbs) as real, CountDifferentiated(nbs) as real;
    ShareOfWhole(u, d, tot);
    (u / tot, d / tot)
  }

  /** Two non-negative parts of a positive whole are shares between 0 and 1 that add up to 1. */
  lemma ShareOfWhole(a: real, b: real, whole: real)
    requires 0.0 <= a && 0.0 <= b && a + b == whole && 0.0 < whole
    ensures 0.0 <= a / whole <= 1.0 && 0.0 <= b / whole <= 1.0
    ensures a / whole + b / whole == 1.0
  {
    assert a / whole + b / whole == (a + b) / whole;
  }

  // ---------------------------------------------------------------------
  // Differentiation rule
  // ---------------------------------------------------------------------

  /** The three uniform draws of a step: basal, negative-feedback and positive-feedback. */
  datatype Draws = Draws(basal: real, negative: real, positive: real)

  /**
   * A Hill-type feedback probability as a function of a neighbour fraction,
   * a half-maximal constant and a Hill coefficient, or the arithmetic error
   * its evaluation raises.
   */
  type Feedback = (real, real, real) -> Result<real, ArithmeticError>

  /** The state a step leaves the cell in, and the error it raised, if any. */
  datatype Decision = Decision(state: CellState, raised: Option<UpdateError>)

  /** The (fraction, half-maximal constant, Hill coefficient) a feedback function is applied to. */
  datatype FeedbackInput = FeedbackInput(fraction: real, constant: real, coefficient: real)

  /**
   * The inputs of the negative and the positive feedback as the rule reads the
   * parameter vector: knf = params[1], kpf = params[2], n_p = params[3],
   * n_n = params[4]; the negative feedback sees the U-or-T fraction with knf
   * and n_n, the positive feedback the D fraction with kpf and n_p.
   */
  function FeedbackInputs(p: seq<real>, nbs: seq<CellState>): (r: (FeedbackInput, FeedbackInput))
    requires |p| >= 5 && |nbs| > 0
    ensures r.0 == FeedbackInput(Fractions(nbs).0, p[1], p[4])
    ensures r.1 == FeedbackInput(Fractions(nbs).1, p[2], p[3])
    ensures r.0.fraction + r.1.fraction == 1.0
  {
    var (normU, normD) := Fractions(nbs);
    (FeedbackInput(normU, p[1], p[4]), FeedbackInput(normD, p[2], p[3]))
  }

  /**
   * The inputs for a parameter vector laid out as [a, k1, n1, k2, n2]: the
   * negative feedback with k1 and n1, the positive feedback with k2 and n2.
   */
  function IntendedFeedbackInputs(p: seq<real>, nbs: seq<CellState>): (r: (FeedbackInput, FeedbackInput))
    requires |p| >= 5 && |nbs| > 0
    ensures r.0.fraction + r.1.fraction == 1.0
    ensures r.0.constant == p[1] && r.0.coefficient == p[2]
    ensures r.1.constant == p[3] && r.1.coefficient == p[4]
  {
    var (normU, normD) := Fractions(nbs);
    (FeedbackInput(normU, p[1], p[2]), FeedbackInput(normD, p[3], p[4]))
  }

  /** A parameter vector in the layout the simulation setup builds. */
  function SetupParams(a: real, k1: real, n1: real, k2: real, n2: real): (p: seq<real>)
    ensures |p| == 5 && p[0] == a
  {
    [a, k1, n1, k2, n2]
  }

  /**
   * Against the setup's layout the rule hands the positive feedback n1 as its
   * constant and k2 as its coefficient, and the negative feedback n2 as its
   * coefficient.  With the setup's suggested values (k1 = 0.06, n1 = 10,
   * k2 = 0.1, n2 = 100) the positive feedback gets constant 10 and
   * coefficient 0.1 instead of 0.1 and 100.
   */
  lemma FeedbackInputsMisreadSetupLayout(a: real, k1: real, n1: real, k2: real, n2: real, nbs: seq<CellState>)
    requires |nbs| > 0
    ensures FeedbackInputs(SetupParams(a, k1, n1, k2, n2), nbs).0.coefficient == n2
    ensures FeedbackInputs(SetupParams(a, k1, n1, k2, n2), nbs).1.constant == n1
    ensures FeedbackInputs(SetupParams(a, k1, n1, k2, n2), nbs).1.coefficient == k2
    ensures n1 != k2 ==> FeedbackInputs(SetupParams(a, k1, n1, k2, n2), nbs)
                         != IntendedFeedbackInputs(SetupParams(a, k1, n1, k2, n2), nbs)
    ensures FeedbackInputs(SetupParams(a, 0.06, 10.0, 0.1, 100.0), nbs).1 != FeedbackInput(Fractions(nbs).1, 0.1, 100.0)
  {
  }

  /**
   * The negative and the positive feedback probability, or the error raised
   * while computing them.  The negative feedback is computed first, and it
   * begins by dividing the U-or-T fraction by knf = params[1], which raises a
   * division by zero when knf is 0; any other error of the two Hill
   * expressions is the one their feedback function reports.
   */
  function FeedbackProbabilities(p: seq<real>, nbs: seq<CellState>,
                                 negativeFeedback: Feedback, positiveFeedback: Feedback)
    : (r: Result<(real, real), ArithmeticError>)
    requires |p| >= 5 && |nbs| > 0
    ensures p[1] == 0.0 ==> r == Failure(ZeroDivision)
    ensures var (normU, normD) := Fractions(nbs);
            && (r.Success? <==> p[1] != 0.0 && negativeFeedback(normU, p[1], p[4]).Success?
                                             && positiveFeedback(normD, p[2], p[3]).Success?)
            && (r.Success? ==> r.value == (negativeFeedback(normU, p[1], p[4]).value,
                                           positiveFeedback(normD, p[2], p[3]).value))
            && (p[1] != 0.0 && negativeFeedback(normU, p[1], p[4]).Failure? ==>
                  r == Failure(negativeFeedback(normU, p[1], p[4]).error))
            && (p[1] != 0.0 && negativeFeedback(normU, p[1], p[4]).Success?
                            && positiveFeedback(normD, p[2], p[3]).Failure? ==>
                  r == Failure(positiveFeedback(normD, p[2], p[3]).error))
  {
    var (negative, positive) := FeedbackInputs(p, nbs);
    if negative.constant == 0.0 then Failure(ZeroDivision)
    else
      match negativeFeedback(negative.fraction, negative.constant, negative.coefficient)
      case Failure(e) => Failure(e)
      case Success(negativeProbability) =>
        match positiveFeedback(positive.fraction, positive.constant, positive.coefficient)
        case Failure(e) => Failure(e)
        case Success(positiveProbability) => Success((negativeProbability, positiveProbability))
  }

  /**
   * Whether the feedback draws start differentiation: both probabilities are
   * computed and either draw falls below its probability.
   */
  predicate FeedbackFires(p: seq<real>, nbs: seq<CellState>, draws: Draws,
                          negativeFeedback: Feedback, positiveFeedback: Feedback)
    requires |p| >= 5 && |nbs| > 0
  {
    var probabilities := FeedbackProbabilities(p, nbs, negativeFeedback, positiveFeedback);
    && probabilities.Success?
    && (draws.negative < probabilities.value.0 || draws.positive < probabilities.value.1)
  }

  /**
   * The differentiation check of a stem cell.  Only U can change, and only to
   * T: by the basal draw against params[0], or, with at least one neighbour,
   * by either feedback draw.  A missing parameter raises where it is first
   * read, and an error of the feedback expressions is raised after the
   * basal draw has taken effect.
   */
  function Differentiate(s: CellState, params: Option<seq<real>>, nbs: seq<CellState>, draws: Draws,
                         negativeFeedback: Feedback, positiveFeedback: Feedback): (r: Decision)
    ensures s != U ==> r == Decision(s, None)
    ensures r.state == s || (s == U && r.state == T)
    ensures r.raised.Some? <==>
              s == U && (params.None? || |params.value| < 1 ||
                         (|nbs| > 0 && (|params.value| < 5 ||
                                        FeedbackProbabilities(params.value, nbs, negativeFeedback, positiveFeedback).Failure?)))
    ensures s == U && params.None? ==> r == Decision(U, Some(NoParams))
    ensures s == U && params.Some? && |params.value| == 0 ==> r == Decision(U, Some(MissingParam(0)))
    ensures s == U && |nbs| > 0 && params.Some? && 1 <= |params.value| < 5 ==>
              r.raised == Some(MissingParam(|params.value|))
    ensures s == U && |nbs| > 0 && params.Some? && |params.value| >= 5 &&
            FeedbackProbabilities(params.value, nbs, negativeFeedback, positiveFeedback).Failure? ==>
              r.raised == Some(Arithmetic(FeedbackProbabilities(params.value, nbs, negativeFeedback, positiveFeedback).error))
    ensures s == U && |nbs| > 0 && params.Some? && |params.value| >= 5 && params.value[1] == 0.0 ==>
              r.raised == Some(Arithmetic(ZeroDivision))
    ensures s == U && r.raised.Some? && params.Some? && |params.value| >= 1 ==>
              (r.state == T <==> draws.basal < params.value[0])
    ensures s == U && params.Some? && |params.value| >= 1 && draws.basal < params.value[0] ==> r.state == T
    ensures s == U && |nbs| == 0 && r.raised.None? ==> (r.state == T <==> draws.basal < params.value[0])
    ensures s == U && |nbs| > 0 && r.raised.None? ==>
              (r.state == T <==> draws.basal < params.value[0]
                                 || FeedbackFires(params.value, nbs, draws, negativeFeedback, positiveFeedback))
  {
    if s != U then Decision(s, None)
    else
      match Param(params, 0)
      case Failure(e) => Decision(U, Some(e))
      case Success(prob) =>
        var basal := if draws.basal < prob then T else U;
        if |nbs| == 0 then Decision(basal, None)
        else if |params.value| < 5 then Decision(basal, Some(MissingParam(|params.value|)))
        else
          match FeedbackProbabilities(params.value, nbs, negativeFeedback, positiveFeedback)
          case Failure(e) => Decision(basal, Some(Arithmetic(e)))
          case Success((negative, positive)) =>
            if draws.negative < negative || draws.positive < positive then Decision(T, None) else Decision(basal, None)
  }

  /**
   * The state change of one stem-cell step: the division (when due) first,
   * then the differentiation check.  A state moves at most one stage forward
   * per step, and it reaches D only through a division of a T cell.
   */
  function StemStateStep(s: CellState, divides: bool, params: Option<seq<real>>, nbs: seq<CellState>,
                         draws: Draws, negativeFeedback: Feedback, positiveFeedback: Feedback): (r: Decision)
    ensures Rank(s) <= Rank(r.state) <= Rank(s) + 1
    ensures r.state == D <==> s == D || (divides && s == T)
    ensures s == T && !divides ==> r.state == T
    ensures r.raised.Some? ==> s == U
  {
    var afterDivision := if divides then AtDivision(s, 0.0).0 else s;
    Differentiate(afterDivision, params, nbs, draws, negativeFeedback, positiveFeedback)
  }

  /** The value update returns: 1 exactly when the cell ends the step in D, else 0; or the error raised. */
  function Convergence(d: Decision): (r: Result<nat, UpdateError>)
    ensures r.Success? <==> d.raised.None?
    ensures r.Failure? ==> r.error == d.raised.value
    ensures r.Success? ==> r.value <= 1 && (r.value == 1 <==> d.state == D)
  {
    match d.raised
    case Some(e) => Failure(e)
    case None => Success(if d.state == D then 1 else 0)
  }
}
