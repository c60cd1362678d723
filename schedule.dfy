/**
 * The schedule object of the min-makespan module and the greedy heuristic
 * that fills it. A schedule holds a cost matrix (rows are machines, columns
 * are jobs) and a boolean assignment matrix of the same shape that is reset by
 * building or clearing and changed one cell at a time by assigning. The two
 * kinds of schedule differ only in what they report: the set of assigned
 * (machine, job) pairs, or the makespan.
 */
module Scheduling {
  import opened ScheduleSpec

  /**
   * What assigning a cell does: it succeeds, or fails with a KeyError because the cell is already set.
   * The scheduler raises no other exception, and it shares no code with the course-instance helpers,
   * so it keeps this two-valued outcome rather than their wider PyError type.
   */
  datatype Outcome = Success | KeyError

  class Schedule {
    /** Which result this schedule reports (the two concrete schedule classes). */
    const strategy: Strategy
    /** The cost matrix, shared with the caller and never changed by the schedule. */
    var costs: CostMatrix
    /** assignments[m, j] holds when job j is assigned to machine m. */
    var assignments: array2<bool>
    /** The contents of assignments as a value. */
    ghost var cells: Grid

    ghost predicate Valid()
      reads this, assignments
    {
      && assignments.Length0 == |costs|
      && (forall m :: 0 <= m < |costs| ==> |costs[m]| == assignments.Length1)
      && IsGrid(cells, assignments.Length0, assignments.Length1)
      && (forall m, j :: 0 <= m < assignments.Length0 && 0 <= j < assignments.Length1 ==> assignments[m, j] == cells[m][j])
    }

    /** The schedule has been given a cost matrix with at least one machine; before that every query fails. */
    predicate Built()
      reads this
    {
      |costs| >= 1
    }

    /** A fresh schedule of the given kind; it holds no cost matrix until it is built. */
    constructor (strategy: Strategy)
      ensures this.strategy == strategy
      ensures Valid() && !Built()
    {
      this.strategy := strategy;
      costs := [];
      assignments := new bool[0, 0];
      cells := [];
    }

    function Machines(): (n: nat)
      reads this
    {
      |costs|
    }

    function Jobs(): (n: nat)
      reads this
      requires Built()
    {
      |costs[0]|
    }

    /** The shape of the schedule, (machines, jobs), is the shape of the assignment matrix. */
    function Shape(): (r: (nat, nat))
      reads this, assignments
      requires Valid() && Built()
      ensures r.0 == assignments.Length0 && r.1 == assignments.Length1
      ensures r.0 == |costs| >= 1 && forall m :: 0 <= m < |costs| ==> |costs[m]| == r.1
    {
      (|costs|, |costs[0]|)
    }

    /** A valid, built schedule fits its cost matrix. */
    lemma FitsCosts()
      requires Valid() && Built()
      ensures Fits(costs, cells)
    {
    }

    /** Takes the cost matrix and starts with no job assigned. */
    method Build(costMatrix: CostMatrix)
      requires IsCostMatrix(costMatrix)
      modifies this
      ensures Valid() && Built()
      ensures costs == costMatrix && fresh(assignments)
      ensures cells == EmptyGrid(Machines(), Jobs())
    {
      costs := costMatrix;
      assignments := new bool[|costMatrix|, |costMatrix[0]|]((_, _) => false);
      cells := EmptyGrid(|costMatrix|, |costMatrix[0]|);
    }

    /** Drops every assignment, keeping the cost matrix. */
    method Clear()
      requires Valid() && Built()
      modifies this
      ensures Valid() && Built()
      ensures costs == old(costs) && fresh(assignments)
      ensures cells == EmptyGrid(Machines(), Jobs())
    {
      assignments := new bool[|costs|, |costs[0]|]((_, _) => false);
      cells := EmptyGrid(|costs|, |costs[0]|);
    }

    /**
     * Assigns job to machine. A cell that is already set is refused with a
     * KeyError and nothing changes; otherwise exactly that cell becomes set.
     */
    method Assign(machine: nat, job: nat) returns (outcome: Outcome)
      requires Valid() && Built() && machine < Machines() && job < Jobs()
      modifies this, assignments
      ensures Valid() && costs == old(costs) && assignments == old(assignments)
      ensures old(cells)[machine][job] ==> outcome == KeyError && cells == old(cells) && unchanged(assignments)
      ensures !old(cells)[machine][job] ==> outcome == Success && cells == SetCell(old(cells), machine, job)
    {
      if assignments[machine, job] {
        return KeyError;
      }
      assignments[machine, job] := true;
      cells := SetCell(cells, machine, job);
      outcome := Success;
    }

    /** The sum of costs[machine][k] over the jobs k < n assigned to machine. */
    function RowLoadOf(machine: nat, n: nat): (r: int)
      reads this, assignments
      requires Valid() && machine < |costs| && n <= assignments.Length1
      ensures r == RowLoad(costs[machine], cells[machine], n)
    {
      if n == 0 then 0
      else RowLoadOf(machine, n - 1) + (if assignments[machine, n - 1] then costs[machine][n - 1] else 0)
    }

    /** The current load of machine: the sum of its costs over the jobs assigned to it. */
    function LoadOf(machine: nat): (r: int)
      reads this, assignments
      requires Valid() && Built() && machine < Machines()
      ensures r == Load(costs, cells, machine)
    {
      RowLoadOf(machine, |costs[0]|)
    }

    /** The largest load among machines 0 .. n-1. */
    function MaxLoadOf(n: nat): (r: int)
      reads this, assignments
      requires Valid() && Built() && 1 <= n <= Machines()
      ensures r == MaxLoad(costs, cells, n)
    {
      if n == 1 then LoadOf(0)
      else
        var best := MaxLoadOf(n - 1);
        var last := LoadOf(n - 1);
        if last > best then last else best
    }

    /** Every (machine, job) pair of the schedule, each once, in row-major order. */
    function Pairs(): (ps: seq<(nat, nat)>)
      reads this
      requires Built()
      ensures forall p :: p in ps <==> p.0 < Machines() && p.1 < Jobs()
      ensures forall i, k :: 0 <= i < k < |ps| ==> LexLess(ps[i], ps[k])
    {
      Product(|costs|, |costs[0]|)
    }

    /** The result the schedule reports: its assigned pairs, or its makespan. */
    function ExtractResult(): (r: Extracted)
      reads this, assignments
      requires Valid() && Built()
      ensures r == Extract(strategy, costs, cells)
    {
      match strategy
      case AssignmentStrategy =>
        var ps := Pairs();
        var pairs := set p | p in ps && assignments[p.0, p.1];
        assert pairs == AssignedPairs(costs, cells);
        PairSet(pairs)
      case MakespanStrategy => Span(MaxLoadOf(|costs|))
    }
  }

  /**
   * The machine greedy gives the job: the first machine minimising the job's
   * cost on it plus its current load.
   */
  method BestMachine(output: Schedule, job: nat) returns (best: nat)
    requires output.Valid() && output.Built() && job < output.Jobs()
    ensures best == GreedyPick(output.costs, output.cells, job)
    ensures best < output.Machines()
    ensures forall m :: 0 <= m < output.Machines() ==>
      output.costs[best][job] + Load(output.costs, output.cells, best) <= output.costs[m][job] + Load(output.costs, output.cells, m)
    ensures forall m :: 0 <= m < best ==>
      output.costs[best][job] + Load(output.costs, output.cells, best) < output.costs[m][job] + Load(output.costs, output.cells, m)
  {
    output.FitsCosts();
    ghost var scores := Scores(output.costs, output.cells, job);
    best := 0;
    var bestScore := output.costs[0][job] + output.LoadOf(0);
    var m := 1;
    while m < output.Machines()
      invariant 1 <= m <= output.Machines()
      invariant best == ArgMinPrefix(scores, m)
      invariant bestScore == scores[best]
    {
      var score := output.costs[m][job] + output.LoadOf(m);
      assert score == scores[m];
      assert ArgMinPrefix(scores, m + 1) == if scores[m] < scores[best] then m else best;
      if score < bestScore {
        best, bestScore := m, score;
      }
      m := m + 1;
    }
  }

  /** One pass of the greedy loop: assigns job to the machine BestMachine picks, as the step on job of GreedyRun does. */
  method PlaceJob(output: Schedule, job: nat) returns (outcome: Outcome)
    requires output.Valid() && output.Built() && job < output.Jobs()
    modifies output, output.assignments
    ensures output.Valid() && output.Built() && output.costs == old(output.costs) && output.assignments == old(output.assignments)
    ensures Run(output.cells, outcome == KeyError) == GreedyStep(output.costs, Run(old(output.cells), false), job)
  {
    output.FitsCosts();
    var m := BestMachine(output, job);
    outcome := output.Assign(m, job);
  }

  /**
   * Walks the jobs in index order and assigns each to the machine BestMachine
   * picks. Stops with a KeyError if that cell is already set; the assignments
   * made before it stay.
   */
  method Greedy(output: Schedule) returns (outcome: Outcome)
    requires output.Valid() && output.Built()
    modifies output, output.assignments
    ensures output.Valid() && output.costs == old(output.costs) && output.assignments == old(output.assignments)
    ensures output.cells == GreedyRun(output.costs, old(output.cells), Jobs(output.costs)).grid
    ensures outcome == KeyError <==> GreedyRun(output.costs, old(output.cells), Jobs(output.costs)).duplicate
  {
    output.FitsCosts();
    ghost var c, g0 := output.costs, output.cells;
    var jobs := output.Jobs();
    var job := 0;
    while job < jobs
      invariant job <= jobs == Jobs(c)
      invariant output.Valid() && output.Built() && output.costs == c && output.assignments == old(output.assignments)
      invariant GreedyRun(c, g0, job) == Run(output.cells, false)
    {
      outcome := PlaceJob(output, job);
      GreedyRunLast(c, g0, job + 1);
      if outcome == KeyError {
        GreedyRunStaysStopped(c, g0, job + 1, jobs);
        return;
      }
      job := job + 1;
    }
    outcome := Success;
  }

  /** Builds the schedule on the input, runs greedy on it and reports the schedule's result. */
  method MinMakespan(input: CostMatrix, output: Schedule) returns (result: Extracted)
    requires IsCostMatrix(input)
    modifies output
    ensures output.Valid() && output.costs == input && output.cells == GreedyGrid(input)
    ensures result == Extract(output.strategy, input, GreedyGrid(input))
  {
    output.Build(input);
    var outcome := Greedy(output);
    GreedyAssignsEveryJobOnce(input);
    result := output.ExtractResult();
  }
}

/** The doctests of the schedule classes and of greedy, as methods whose results are proved. */
module SchedulingDoctests {
  import opened ScheduleSpec
  import opened ScheduleExamples
  import opened Scheduling

  /** Build on [[1, 1], [1, 1]], assign (0, 0) and (1, 1): the assignment result is {(0, 0), (1, 1)}. */
  method AssignmentDoctest() returns (result: Extracted)
    ensures result == PairSet({(0, 0), (1, 1)})
  {
    var c: CostMatrix := [[1, 1], [1, 1]];
    var scd := new Schedule(AssignmentStrategy);
    scd.Build(c);
    EmptyTwo();
    var first := scd.Assign(0, 0);
    var second := scd.Assign(1, 1);
    TwoDiagonal(c, scd.cells);
    result := scd.ExtractResult();
  }

  /**
   * Build on [[1, 1], [1, 1]], assign (0, 0) and (1, 1): the makespan result is 1;
   * assign (0, 1) as well: it is 2.
   */
  method MakespanDoctest() returns (first: Extracted, second: Extracted)
    ensures first == Span(1) && second == Span(2)
  {
    var c: CostMatrix := [[1, 1], [1, 1]];
    var scd := new Schedule(MakespanStrategy);
    scd.Build(c);
    EmptyTwo();
    var o1 := scd.Assign(0, 0);
    var o2 := scd.Assign(1, 1);
    TwoDiagonal(c, scd.cells);
    first := scd.ExtractResult();
    var o3 := scd.Assign(0, 1);
    TwoDiagonalAndCorner(c, scd.cells);
    second := scd.ExtractResult();
  }

  /** Greedy through MinMakespan on the four doctest matrices, with one makespan schedule built again for each. */
  method GreedyMakespanDoctest() returns (span1: Extracted, span2: Extracted, span3: Extracted, span4: Extracted)
    ensures span1 == Span(3) && span2 == Span(2) && span3 == Span(2) && span4 == Span(3)
  {
    var c1: CostMatrix := [[1, 2, 5], [2, 2, 1], [2, 3, 5]];
    var c2: CostMatrix := [[1, 2, 1], [4, 2, 4], [2, 3, 2]];
    var c3: CostMatrix := [[1, 2, 1], [4, 2, 4], [2, 3, 2], [3, 1, 2]];
    var c4: CostMatrix := [[1, 5, 1, 10], [2, 4, 4, 3], [2, 5, 3, 3], [3, 3, 7, 10]];
    GreedyExample1(c1);
    GreedyExample2(c2);
    GreedyExample3(c3);
    GreedyExample4(c4);
    var output := new Schedule(MakespanStrategy);
    span1 := MinMakespan(c1, output);
    span2 := MinMakespan(c2, output);
    span3 := MinMakespan(c3, output);
    span4 := MinMakespan(c4, output);
  }

  /** The same four runs with one assignment schedule: the sets of assigned (machine, job) pairs. */
  method GreedyAssignmentDoctest() returns (pairs1: Extracted, pairs2: Extracted, pairs3: Extracted, pairs4: Extracted)
    ensures pairs1 == PairSet({(0, 0), (1, 1), (1, 2)}) && pairs2 == PairSet({(0, 0), (1, 1), (0, 2)})
    ensures pairs3 == PairSet({(0, 0), (3, 1), (0, 2)}) && pairs4 == PairSet({(0, 0), (3, 1), (0, 2), (1, 3)})
  {
    var c1: CostMatrix := [[1, 2, 5], [2, 2, 1], [2, 3, 5]];
    var c2: CostMatrix := [[1, 2, 1], [4, 2, 4], [2, 3, 2]];
    var c3: CostMatrix := [[1, 2, 1], [4, 2, 4], [2, 3, 2], [3, 1, 2]];
    var c4: CostMatrix := [[1, 5, 1, 10], [2, 4, 4, 3], [2, 5, 3, 3], [3, 3, 7, 10]];
    GreedyExample1(c1);
    GreedyExample2(c2);
    GreedyExample3(c3);
    GreedyExample4(c4);
    var output := new Schedule(AssignmentStrategy);
    pairs1 := MinMakespan(c1, output);
    pairs2 := MinMakespan(c2, output);
    pairs3 := MinMakespan(c3, output);
    pairs4 := MinMakespan(c4, output);
  }
}
