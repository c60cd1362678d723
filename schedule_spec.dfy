/**
 * Value-level specification of the min-makespan schedule state: a cost matrix
 * (rows are machines, columns are jobs), a boolean assignment grid of the same
 * shape, and what is derived from them (machine load, makespan, the set of
 * assigned pairs, the row-major enumeration of the grid), together with the
 * greedy heuristic written as a function of the costs and the starting grid.
 */
module ScheduleSpec {

  type CostMatrix = seq<seq<int>>
  type Grid = seq<seq<bool>>

  /** A rectangular cost matrix with at least one machine. */
  predicate IsCostMatrix(c: CostMatrix) {
    |c| >= 1 && forall m :: 0 <= m < |c| ==> |c[m]| == |c[0]|
  }

  function Machines(c: CostMatrix): nat {
    |c|
  }

  function Jobs(c: CostMatrix): nat
    requires |c| >= 1
  {
    |c[0]|
  }

  predicate IsGrid(g: Grid, rows: nat, cols: nat) {
    |g| == rows && forall m :: 0 <= m < rows ==> |g[m]| == cols
  }

  /** The grid has the shape of the cost matrix. */
  predicate Fits(c: CostMatrix, g: Grid) {
    IsCostMatrix(c) && IsGrid(g, Machines(c), Jobs(c))
  }

  /** The all-false grid that building or clearing a schedule produces. */
  function EmptyGrid(rows: nat, cols: nat): (g: Grid)
    ensures IsGrid(g, rows, cols)
    ensures forall m, j :: 0 <= m < rows && 0 <= j < cols ==> !g[m][j]
  {
    seq(rows, _ => seq(cols, _ => false))
  }

  /** The grid with cell (m, j) set and every other cell as it was. */
  function SetCell(g: Grid, m: nat, j: nat): (h: Grid)
    requires m < |g| && j < |g[m]|
    ensures |h| == |g|
    ensures forall r :: 0 <= r < |g| ==> |h[r]| == |g[r]|
    ensures h[m][j]
    ensures forall r, k :: 0 <= r < |g| && 0 <= k < |g[r]| && (r != m || k != j) ==> h[r][k] == g[r][k]
  {
    g[m := g[m][j := true]]
  }

  // ---------------------------------------------------------------------------
  // Load and makespan

  /** Sum of costs[k] over the positions k < n where row[k] is set. */
  function RowLoad(costs: seq<int>, row: seq<bool>, n: nat): int
    requires |row| == |costs| && n <= |row|
  {
    if n == 0 then 0
    else RowLoad(costs, row, n - 1) + (if row[n - 1] then costs[n - 1] else 0)
  }

  /** The load of machine m: the sum of its costs over the jobs assigned to it. */
  function Load(c: CostMatrix, g: Grid, m: nat): int
    requires Fits(c, g) && m < Machines(c)
  {
    RowLoad(c[m], g[m], Jobs(c))
  }

  /** An all-false row carries no load. */
  lemma {:induction false} RowLoadNone(costs: seq<int>, row: seq<bool>, n: nat)
    requires |row| == |costs| && n <= |row|
    requires forall k :: 0 <= k < n ==> !row[k]
    ensures RowLoad(costs, row, n) == 0
  {
    if n > 0 {
      RowLoadNone(costs, row, n - 1);
    }
  }

  /** Setting an unset position j < n adds exactly that position's cost. */
  lemma {:induction false} RowLoadSet(costs: seq<int>, row: seq<bool>, j: nat, n: nat)
    requires |row| == |costs| && j < n <= |row| && !row[j]
    ensures RowLoad(costs, row[j := true], n) == RowLoad(costs, row, n) + costs[j]
  {
    if j < n - 1 {
      RowLoadSet(costs, row, j, n - 1);
    } else {
      RowLoadSame(costs, row, row[j := true], j);
    }
  }

  /** Rows that agree on the first n positions have the same load there. */
  lemma {:induction false} RowLoadSame(costs: seq<int>, row: seq<bool>, row': seq<bool>, n: nat)
    requires |row| == |costs| == |row'| && n <= |row|
    requires forall k :: 0 <= k < n ==> row[k] == row'[k]
    ensures RowLoad(costs, row, n) == RowLoad(costs, row', n)
  {
    if n > 0 {
      RowLoadSame(costs, row, row', n - 1);
    }
  }

  /** When every position from j to n-1 is unset, the load up to n is the load up to j. */
  lemma {:induction false} RowLoadUnsetTail(costs: seq<int>, row: seq<bool>, j: nat, n: nat)
    requires |row| == |costs| && j <= n <= |row|
    requires forall k :: j <= k < n ==> !row[k]
    ensures RowLoad(costs, row, n) == RowLoad(costs, row, j)
  {
    if n > j {
      RowLoadUnsetTail(costs, row, j, n - 1);
    }
  }

  /** Right after building or clearing, every machine has load 0. */
  lemma LoadOfEmpty(c: CostMatrix, m: nat)
    requires IsCostMatrix(c) && m < Machines(c)
    ensures Load(c, EmptyGrid(Machines(c), Jobs(c)), m) == 0
  {
    RowLoadNone(c[m], EmptyGrid(Machines(c), Jobs(c))[m], Jobs(c));
  }

  /** Assigning an unset cell (m, j) raises the load of m by cost(m, j) and leaves every other load alone. */
  lemma LoadAfterSet(c: CostMatrix, g: Grid, m: nat, j: nat, r: nat)
    requires Fits(c, g) && m < Machines(c) && j < Jobs(c) && r < Machines(c) && !g[m][j]
    ensures Fits(c, SetCell(g, m, j))
    ensures Load(c, SetCell(g, m, j), r) == Load(c, g, r) + (if r == m then c[m][j] else 0)
  {
    var h := SetCell(g, m, j);
    if r == m {
      assert h[m] == g[m][j := true];
      RowLoadSet(c[m], g[m], j, Jobs(c));
    } else {
      assert h[r] == g[r];
    }
  }

  /** The largest load among machines 0 .. n-1. */
  function MaxLoad(c: CostMatrix, g: Grid, n: nat): (r: int)
    requires Fits(c, g) && 1 <= n <= Machines(c)
    ensures exists m :: 0 <= m < n && r == Load(c, g, m)
    ensures forall m :: 0 <= m < n ==> Load(c, g, m) <= r
  {
    if n == 1 then Load(c, g, 0)
    else
      var best := MaxLoad(c, g, n - 1);
      var last := Load(c, g, n - 1);
      if last > best then last else best
  }

  /** The makespan: the largest load over all machines. */
  function Makespan(c: CostMatrix, g: Grid): int
    requires Fits(c, g)
  {
    MaxLoad(c, g, Machines(c))
  }

  /** With nothing assigned the makespan is 0. */
  lemma MakespanOfEmpty(c: CostMatrix)
    requires IsCostMatrix(c)
    ensures Makespan(c, EmptyGrid(Machines(c), Jobs(c))) == 0
  {
    var e := EmptyGrid(Machines(c), Jobs(c));
    forall m | 0 <= m < Machines(c) ensures Load(c, e, m) == 0 {
      LoadOfEmpty(c, m);
    }
  }

  // ---------------------------------------------------------------------------
  // Enumeration of the grid and the two result shapes

  predicate LexLess(p: (nat, nat), q: (nat, nat)) {
    p.0 < q.0 || (p.0 == q.0 && p.1 < q.1)
  }

  function RowPairs(m: nat, cols: nat): (ps: seq<(nat, nat)>)
    ensures |ps| == cols
    ensures forall k :: 0 <= k < cols ==> ps[k] == (m, k)
  {
    seq(cols, k requires 0 <= k => (m, k))
  }

  /**
   * The pairs (machine, job) of a rows x cols grid in row-major order:
   * every pair of the grid occurs, nothing else occurs, and the sequence is
   * strictly increasing in lexicographic order, so no pair occurs twice.
   */
  function Product(rows: nat, cols: nat): (ps: seq<(nat, nat)>)
    ensures forall p :: p in ps <==> p.0 < rows && p.1 < cols
    ensures forall i, k :: 0 <= i < k < |ps| ==> LexLess(ps[i], ps[k])
  {
    if rows == 0 then []
    else
      var front := Product(rows - 1, cols);
      var back := RowPairs(rows - 1, cols);
      assert forall p :: p in back ==> p.0 == rows - 1 && p.1 < cols;
      front + back
  }

  /** A strictly increasing enumeration lists each pair at exactly one position. */
  lemma ProductListsOnce(rows: nat, cols: nat, i: nat, k: nat)
    requires i < |Product(rows, cols)| && k < |Product(rows, cols)|
    requires Product(rows, cols)[i] == Product(rows, cols)[k]
    ensures i == k
  {
  }

  /** The set of assigned pairs, collected while enumerating the grid. */
  function AssignedPairs(c: CostMatrix, g: Grid): (s: set<(nat, nat)>)
    requires Fits(c, g)
    ensures forall m: nat, j: nat :: (m, j) in s <==> m < Machines(c) && j < Jobs(c) && g[m][j]
  {
    var ps := Product(Machines(c), Jobs(c));
    set p | p in ps && g[p.0][p.1]
  }

  /** Which result a schedule reports: the assigned pairs or only the makespan. */
  datatype Strategy = AssignmentStrategy | MakespanStrategy

  datatype Extracted = PairSet(pairs: set<(nat, nat)>) | Span(makespan: int)

  /** The result each strategy extracts from a schedule. */
  function Extract(s: Strategy, c: CostMatrix, g: Grid): (r: Extracted)
    requires Fits(c, g)
    ensures s == AssignmentStrategy ==> r.PairSet? && forall m: nat, j: nat :: (m, j) in r.pairs <==> m < Machines(c) && j < Jobs(c) && g[m][j]
    ensures s == MakespanStrategy ==> r.Span? && (forall m :: 0 <= m < Machines(c) ==> Load(c, g, m) <= r.makespan)
    ensures s == MakespanStrategy ==> exists m :: 0 <= m < Machines(c) && r.makespan == Load(c, g, m)
  {
    match s
    case AssignmentStrategy => PairSet(AssignedPairs(c, g))
    case MakespanStrategy => Span(Makespan(c, g))
  }

  // ---------------------------------------------------------------------------
  // The greedy heuristic

  /** The first index below n holding the smallest of s[0 .. n-1]: smaller than everything before it, no larger than anything after. */
  function ArgMinPrefix(s: seq<int>, n: nat): (k: nat)
    requires 0 < n <= |s|
    ensures k < n
    ensures forall i :: 0 <= i < n ==> s[k] <= s[i]
    ensures forall i :: 0 <= i < k ==> s[k] < s[i]
  {
    if n == 1 then 0
    else
      var k := ArgMinPrefix(s, n - 1);
      if s[n - 1] < s[k] then n - 1 else k
  }

  /** The first index holding the smallest value of s (what Python's min with a key returns). */
  function FirstArgMin(s: seq<int>): (k: nat)
    requires |s| > 0
  {
    ArgMinPrefix(s, |s|)
  }

  /** The two properties of FirstArgMin single out one index. */
  lemma FirstArgMinUnique(s: seq<int>, k: nat)
    requires k < |s|
    requires forall i :: 0 <= i < |s| ==> s[k] <= s[i]
    requires forall i :: 0 <= i < k ==> s[k] < s[i]
    ensures FirstArgMin(s) == k
  {
  }

  /** For job j, the cost of putting it on each machine plus that machine's current load. */
  function Scores(c: CostMatrix, g: Grid, j: nat): (s: seq<int>)
    requires Fits(c, g) && j < Jobs(c)
    ensures |s| == Machines(c)
    ensures forall m :: 0 <= m < Machines(c) ==> s[m] == c[m][j] + Load(c, g, m)
  {
    seq(Machines(c), m requires 0 <= m < Machines(c) => c[m][j] + Load(c, g, m))
  }

  /** The grid after a run, and whether the run stopped on an already-set cell (the source's KeyError). */
  datatype Run = Run(grid: Grid, duplicate: bool)

  /** The machine greedy picks for job j in grid g: the first one minimising cost plus current load. */
  function GreedyPick(c: CostMatrix, g: Grid, j: nat): (m: nat)
    requires Fits(c, g) && j < Jobs(c)
    ensures m < Machines(c)
  {
    FirstArgMin(Scores(c, g, j))
  }

  /** One greedy step on job j: a stopped run stays stopped; a set target cell stops the run. */
  function GreedyStep(c: CostMatrix, prev: Run, j: nat): (r: Run)
    requires Fits(c, prev.grid) && j < Jobs(c)
    ensures Fits(c, r.grid)
  {
    if prev.duplicate then prev
    else
      var m := GreedyPick(c, prev.grid, j);
      if prev.grid[m][j] then Run(prev.grid, true)
      else Run(SetCell(prev.grid, m, j), false)
  }

  /**
   * Greedy over jobs 0 .. n-1 in index order, starting from grid g0: each job
   * goes to the first machine minimising its cost plus the current load. If the
   * chosen cell is already set, the run stops there with the grid as it was.
   */
  function GreedyRun(c: CostMatrix, g0: Grid, n: nat): (r: Run)
    requires Fits(c, g0) && n <= Jobs(c)
    ensures Fits(c, r.grid)
    decreases n
  {
    if n == 0 then Run(g0, false)
    else GreedyStep(c, GreedyRun(c, g0, n - 1), n - 1)
  }

  /** The last step of a run of n > 0 jobs is the step on job n - 1. */
  lemma GreedyRunLast(c: CostMatrix, g0: Grid, n: nat)
    requires Fits(c, g0) && 0 < n <= Jobs(c)
    ensures GreedyRun(c, g0, n) == GreedyStep(c, GreedyRun(c, g0, n - 1), n - 1)
  {
  }

  /** Once a run has stopped on a set cell, later jobs change nothing: the grid stays as it was and the run stays stopped. */
  lemma {:induction false} GreedyRunStaysStopped(c: CostMatrix, g0: Grid, j: nat, n: nat)
    requires Fits(c, g0) && j <= n <= Jobs(c) && GreedyRun(c, g0, j).duplicate
    ensures GreedyRun(c, g0, n) == GreedyRun(c, g0, j)
  {
    if j < n {
      GreedyRunStaysStopped(c, g0, j, n - 1);
      GreedyRunLast(c, g0, n);
    }
  }

  /** The grid greedy produces on a freshly built schedule. */
  function GreedyGrid(c: CostMatrix): Grid
    requires IsCostMatrix(c)
  {
    GreedyRun(c, EmptyGrid(Machines(c), Jobs(c)), Jobs(c)).grid
  }

  /** Job j is on exactly one machine of g. */
  predicate AssignedOnce(g: Grid, rows: nat, cols: nat, j: nat)
    requires IsGrid(g, rows, cols) && j < cols
  {
    exists m :: 0 <= m < rows && g[m][j] && forall r :: 0 <= r < rows && g[r][j] ==> r == m
  }

  /** Job j is on no machine of g. */
  predicate Unassigned(g: Grid, rows: nat, cols: nat, j: nat)
    requires IsGrid(g, rows, cols) && j < cols
  {
    forall m :: 0 <= m < rows ==> !g[m][j]
  }

  /** Setting a cell in an unassigned column makes that column assigned once. */
  lemma SetCellAssigns(g: Grid, rows: nat, cols: nat, m: nat, j: nat)
    requires IsGrid(g, rows, cols) && m < rows && j < cols && Unassigned(g, rows, cols, j)
    ensures IsGrid(SetCell(g, m, j), rows, cols)
    ensures AssignedOnce(SetCell(g, m, j), rows, cols, j)
  {
    var h := SetCell(g, m, j);
    assert h[m][j];
    forall r | 0 <= r < rows && h[r][j] ensures r == m {
    }
  }

  /** Setting cell (m, j) leaves the status of every other column k as it was. */
  lemma SetCellOtherColumn(g: Grid, rows: nat, cols: nat, m: nat, j: nat, k: nat)
    requires IsGrid(g, rows, cols) && m < rows && j < cols && k < cols && k != j
    ensures IsGrid(SetCell(g, m, j), rows, cols)
    ensures AssignedOnce(g, rows, cols, k) ==> AssignedOnce(SetCell(g, m, j), rows, cols, k)
    ensures Unassigned(g, rows, cols, k) ==> Unassigned(SetCell(g, m, j), rows, cols, k)
  {
    var h := SetCell(g, m, j);
    forall r | 0 <= r < rows ensures h[r][k] == g[r][k] {
    }
    if AssignedOnce(g, rows, cols, k) {
      var o :| 0 <= o < rows && g[o][k] && forall r :: 0 <= r < rows && g[r][k] ==> r == o;
      assert h[o][k];
    }
  }

  /** The state of the greedy run from the empty grid after n jobs. */
  predicate GreedyInvariant(c: CostMatrix, r: Run, n: nat)
    requires Fits(c, r.grid) && n <= Jobs(c)
  {
    !r.duplicate && PlacedBefore(c, r.grid, n) && FreeFrom(c, r.grid, n)
  }

  /** Jobs 0 .. n-1 are each on exactly one machine. */
  predicate PlacedBefore(c: CostMatrix, g: Grid, n: nat)
    requires Fits(c, g) && n <= Jobs(c)
  {
    forall j :: 0 <= j < n ==> AssignedOnce(g, Machines(c), Jobs(c), j)
  }

  /** Jobs n .. are on no machine. */
  predicate FreeFrom(c: CostMatrix, g: Grid, n: nat)
    requires Fits(c, g) && n <= Jobs(c)
  {
    forall j :: n <= j < Jobs(c) ==> Unassigned(g, Machines(c), Jobs(c), j)
  }

  /** A greedy step on job n, taken when jobs 0 .. n-1 are placed once and the rest are free, places job n. */
  lemma GreedyStepKeepsInvariant(c: CostMatrix, r: Run, n: nat)
    requires Fits(c, r.grid) && n < Jobs(c) && GreedyInvariant(c, r, n)
    ensures GreedyStep(c, r, n) == Run(SetCell(r.grid, GreedyPick(c, r.grid, n), n), false)
    ensures GreedyInvariant(c, GreedyStep(c, r, n), n + 1)
  {
    var m := GreedyPick(c, r.grid, n);
    assert Unassigned(r.grid, Machines(c), Jobs(c), n);
    SetCellAssigns(r.grid, Machines(c), Jobs(c), m, n);
    forall k | 0 <= k < Jobs(c) && k != n {
      SetCellOtherColumn(r.grid, Machines(c), Jobs(c), m, n, k);
    }
  }

  /** On the empty grid no job is assigned. */
  lemma EmptyGridInvariant(c: CostMatrix)
    requires IsCostMatrix(c)
    ensures GreedyInvariant(c, Run(EmptyGrid(Machines(c), Jobs(c)), false), 0)
  {
    var e := EmptyGrid(Machines(c), Jobs(c));
    forall j | 0 <= j < Jobs(c) ensures Unassigned(e, Machines(c), Jobs(c), j) {
    }
  }

  /** Greedy from g0 keeps the invariant across the step on job n - 1. */
  lemma GreedyRunKeepsInvariant(c: CostMatrix, g0: Grid, n: nat)
    requires Fits(c, g0) && 0 < n <= Jobs(c)
    requires GreedyInvariant(c, GreedyRun(c, g0, n - 1), n - 1)
    ensures GreedyInvariant(c, GreedyRun(c, g0, n), n)
  {
    var prev := GreedyRun(c, g0, n - 1);
    GreedyStepKeepsInvariant(c, prev, n - 1);
    var next := GreedyStep(c, prev, n - 1);
    assert GreedyInvariant(c, next, n - 1 + 1);
    assert GreedyRun(c, g0, n) == next;
  }

  /**
   * From the empty grid, greedy never meets a set cell; after n jobs each of
   * jobs 0 .. n-1 is on exactly one machine and no later job is assigned.
   */
  lemma {:induction false} GreedyFromEmpty(c: CostMatrix, n: nat)
    requires IsCostMatrix(c) && n <= Jobs(c)
    ensures GreedyInvariant(c, GreedyRun(c, EmptyGrid(Machines(c), Jobs(c)), n), n)
  {
    if n == 0 {
      EmptyGridInvariant(c);
    } else {
      GreedyFromEmpty(c, n - 1);
      GreedyRunKeepsInvariant(c, EmptyGrid(Machines(c), Jobs(c)), n);
    }
  }

  /** Every job is assigned to exactly one machine after greedy on a freshly built schedule, and no KeyError occurs. */
  lemma GreedyAssignsEveryJobOnce(c: CostMatrix)
    requires IsCostMatrix(c)
    ensures !GreedyRun(c, EmptyGrid(Machines(c), Jobs(c)), Jobs(c)).duplicate
    ensures forall j :: 0 <= j < Jobs(c) ==> AssignedOnce(GreedyGrid(c), Machines(c), Jobs(c), j)
  {
    GreedyFromEmpty(c, Jobs(c));
  }

  /** A greedy step on job j changes no cell outside column j. */
  lemma GreedyStepOnlyTouches(c: CostMatrix, r: Run, j: nat, m: nat, k: nat)
    requires Fits(c, r.grid) && j < Jobs(c) && m < Machines(c) && k < Jobs(c) && k != j
    ensures GreedyStep(c, r, j).grid[m][k] == r.grid[m][k]
  {
  }

  /** The step on job j leaves the cells of earlier columns as they were after j jobs. */
  lemma GreedyRunStepKeepsCell(c: CostMatrix, g0: Grid, j: nat, m: nat, k: nat)
    requires Fits(c, g0) && j < Jobs(c) && m < Machines(c) && k < j
    ensures GreedyRun(c, g0, j + 1).grid[m][k] == GreedyRun(c, g0, j).grid[m][k]
  {
    GreedyRunLast(c, g0, j + 1);
    GreedyStepOnlyTouches(c, GreedyRun(c, g0, j), j, m, k);
  }

  /** Later greedy steps never touch the columns of earlier jobs: cell (m, k) with k < j is the same after n >= j jobs as after j. */
  lemma {:induction false} GreedyPrefixStable(c: CostMatrix, g0: Grid, j: nat, n: nat, m: nat, k: nat)
    requires Fits(c, g0) && j <= n <= Jobs(c) && m < Machines(c) && k < j
    ensures GreedyRun(c, g0, n).grid[m][k] == GreedyRun(c, g0, j).grid[m][k]
    decreases n - j
  {
    if j < n {
      GreedyPrefixStable(c, g0, j + 1, n, m, k);
      GreedyRunStepKeepsCell(c, g0, j, m, k);
    }
  }

  /** The load of machine m counting only jobs 0 .. j-1. */
  function LoadBefore(c: CostMatrix, g: Grid, m: nat, j: nat): int
    requires Fits(c, g) && m < Machines(c) && j <= Jobs(c)
  {
    RowLoad(c[m], g[m], j)
  }

  /**
   * Machine m is a greedy choice for job j in grid g: no machine has a smaller
   * cost-plus-load when only earlier jobs count, and every lower-numbered
   * machine has a strictly larger one.
   */
  predicate BestChoice(c: CostMatrix, g: Grid, j: nat, m: nat)
    requires Fits(c, g) && j < Jobs(c) && m < Machines(c)
  {
    forall r :: 0 <= r < Machines(c) ==>
      c[m][j] + LoadBefore(c, g, m, j) <= c[r][j] + LoadBefore(c, g, r, j) &&
      (r < m ==> c[m][j] + LoadBefore(c, g, m, j) < c[r][j] + LoadBefore(c, g, r, j))
  }

  /** The machine holding job j in the greedy grid is the one greedy picked when it reached job j. */
  lemma GreedyOwner(c: CostMatrix, j: nat, m: nat)
    requires IsCostMatrix(c) && j < Jobs(c) && m < Machines(c)
    requires GreedyGrid(c)[m][j]
    ensures m == GreedyPick(c, GreedyRun(c, EmptyGrid(Machines(c), Jobs(c)), j).grid, j)
  {
    var e := EmptyGrid(Machines(c), Jobs(c));
    var before := GreedyRun(c, e, j);
    GreedyFromEmpty(c, j);
    GreedyStepKeepsInvariant(c, before, j);
    GreedyPrefixStable(c, e, j + 1, Jobs(c), m, j);
    var best := GreedyPick(c, before.grid, j);
    var after := GreedyRun(c, e, j + 1).grid;
    assert after == SetCell(before.grid, best, j);
    assert after[m][j];
    assert Unassigned(before.grid, Machines(c), Jobs(c), j);
  }

  /** Loads from jobs before j in the greedy grid are the loads greedy saw when it reached job j. */
  lemma GreedyLoadsBefore(c: CostMatrix, j: nat, r: nat)
    requires IsCostMatrix(c) && j < Jobs(c) && r < Machines(c)
    ensures LoadBefore(c, GreedyGrid(c), r, j) == Load(c, GreedyRun(c, EmptyGrid(Machines(c), Jobs(c)), j).grid, r)
  {
    var e := EmptyGrid(Machines(c), Jobs(c));
    var before := GreedyRun(c, e, j).grid;
    GreedyFromEmpty(c, j);
    forall k | j <= k < Jobs(c) ensures !before[r][k] {
      assert Unassigned(before, Machines(c), Jobs(c), k);
    }
    RowLoadUnsetTail(c[r], before[r], j, Jobs(c));
    forall k | 0 <= k < j ensures GreedyGrid(c)[r][k] == before[r][k] {
      GreedyPrefixStable(c, e, j, Jobs(c), r, k);
    }
    RowLoadSame(c[r], GreedyGrid(c)[r], before[r], j);
  }

  /**
   * In the grid greedy produces, the machine holding job j minimises the cost
   * of j plus the load from jobs 0 .. j-1, the lowest index winning ties.
   */
  lemma GreedyChoosesBest(c: CostMatrix, j: nat, m: nat)
    requires IsCostMatrix(c) && j < Jobs(c) && m < Machines(c)
    requires GreedyGrid(c)[m][j]
    ensures BestChoice(c, GreedyGrid(c), j, m)
  {
    var before := GreedyRun(c, EmptyGrid(Machines(c), Jobs(c)), j).grid;
    GreedyOwner(c, j, m);
    var s := Scores(c, before, j);
    forall r | 0 <= r < Machines(c) ensures LoadBefore(c, GreedyGrid(c), r, j) == Load(c, before, r) {
      GreedyLoadsBefore(c, j, r);
    }
    assert s[m] == c[m][j] + Load(c, before, m);
  }
}

/** The greedy doctest oracles of the scheduling module, checked against the specification. */
module ScheduleExamples {
  import opened ScheduleSpec

  /** A greedy step that picks machine m for job j in a grid where that cell is free. */
  lemma StepTo(c: CostMatrix, prev: Grid, j: nat, m: nat)
    requires Fits(c, prev) && j < Jobs(c) && m < Machines(c) && !prev[m][j]
    requires forall r :: 0 <= r < Machines(c) ==> c[m][j] + Load(c, prev, m) <= c[r][j] + Load(c, prev, r)
    requires forall r :: 0 <= r < m ==> c[m][j] + Load(c, prev, m) < c[r][j] + Load(c, prev, r)
    ensures GreedyStep(c, Run(prev, false), j) == Run(SetCell(prev, m, j), false)
  {
    FirstArgMinUnique(Scores(c, prev, j), m);
  }

  /** LoadAfterSet for every machine at once, the form the step-by-step examples use. */
  lemma LoadsAfter(c: CostMatrix, g: Grid, m: nat, j: nat)
    requires Fits(c, g) && m < Machines(c) && j < Jobs(c) && !g[m][j]
    ensures Fits(c, SetCell(g, m, j))
    ensures forall r :: 0 <= r < Machines(c) ==> Load(c, SetCell(g, m, j), r) == Load(c, g, r) + (if r == m then c[m][j] else 0)
  {
    forall r | 0 <= r < Machines(c) ensures Load(c, SetCell(g, m, j), r) == Load(c, g, r) + (if r == m then c[m][j] else 0) {
      LoadAfterSet(c, g, m, j, r);
    }
  }

  lemma LoadsOfEmpty(c: CostMatrix)
    requires IsCostMatrix(c)
    ensures forall r :: 0 <= r < Machines(c) ==> Load(c, EmptyGrid(Machines(c), Jobs(c)), r) == 0
  {
    forall r | 0 <= r < Machines(c) ensures Load(c, EmptyGrid(Machines(c), Jobs(c)), r) == 0 {
      LoadOfEmpty(c, r);
    }
  }

  /** A set of pairs is the assignment set of g when it holds exactly the set cells of g. */
  lemma PairsOf(c: CostMatrix, g: Grid, pairs: set<(nat, nat)>)
    requires Fits(c, g)
    requires forall p :: p in pairs ==> p.0 < Machines(c) && p.1 < Jobs(c) && g[p.0][p.1]
    requires forall m, j :: 0 <= m < Machines(c) && 0 <= j < Jobs(c) && g[m][j] ==> (m, j) in pairs
    ensures AssignedPairs(c, g) == pairs
  {
  }

  /** The empty three-by-three grid, written out. */
  lemma EmptyThree()
    ensures EmptyGrid(3, 3) == [[false, false, false], [false, false, false], [false, false, false]]
  {
    var e := EmptyGrid(3, 3);
    assert e[0] == [false, false, false];
    assert e[1] == [false, false, false];
    assert e[2] == [false, false, false];
  }

  /** One more greedy step from a known, duplicate-free run state, when m is the first machine minimising cost plus load and its cell is free. */
  lemma RunStep(c: CostMatrix, g0: Grid, n: nat, prev: Grid, m: nat, next: Grid)
    requires Fits(c, g0) && n < Jobs(c) && GreedyRun(c, g0, n) == Run(prev, false)
    requires m < Machines(c) && !prev[m][n] && next == SetCell(prev, m, n)
    requires forall r :: 0 <= r < Machines(c) ==> c[m][n] + Load(c, prev, m) <= c[r][n] + Load(c, prev, r)
    requires forall r :: 0 <= r < m ==> c[m][n] + Load(c, prev, m) < c[r][n] + Load(c, prev, r)
    ensures GreedyRun(c, g0, n + 1) == Run(next, false)
  {
    StepTo(c, prev, n, m);
  }

  lemma Example1Job0(c: CostMatrix)
    requires c == [[1, 2, 5], [2, 2, 1], [2, 3, 5]]
    ensures IsCostMatrix(c)
    ensures GreedyRun(c, EmptyGrid(3, 3), 1) == Run([[true, false, false], [false, false, false], [false, false, false]], false)
  {
    EmptyThree();
    var prev := [[false, false, false], [false, false, false], [false, false, false]];
    var next := [[true, false, false], [false, false, false], [false, false, false]];
    assert SetCell(prev, 0, 0)[0] == next[0];
    RunStep(c, EmptyGrid(3, 3), 0, prev, 0, next);
  }

  lemma Example1Job1(c: CostMatrix)
    requires c == [[1, 2, 5], [2, 2, 1], [2, 3, 5]]
    ensures IsCostMatrix(c)
    ensures GreedyRun(c, EmptyGrid(3, 3), 2) == Run([[true, false, false], [false, true, false], [false, false, false]], false)
  {
    Example1Job0(c);
    var prev := [[true, false, false], [false, false, false], [false, false, false]];
    var next := [[true, false, false], [false, true, false], [false, false, false]];
    assert SetCell(prev, 1, 1)[1] == next[1];
    RunStep(c, EmptyGrid(3, 3), 1, prev, 1, next);
  }

  lemma Example1Job2(c: CostMatrix)
    requires c == [[1, 2, 5], [2, 2, 1], [2, 3, 5]]
    ensures IsCostMatrix(c)
    ensures GreedyRun(c, EmptyGrid(3, 3), 3) == Run([[true, false, false], [false, true, true], [false, false, false]], false)
  {
    Example1Job1(c);
    var prev := [[true, false, false], [false, true, false], [false, false, false]];
    var next := [[true, false, false], [false, true, true], [false, false, false]];
    assert SetCell(prev, 1, 2)[1] == next[1];
    RunStep(c, EmptyGrid(3, 3), 2, prev, 1, next);
  }

  /** greedy on [[1, 2, 5], [2, 2, 1], [2, 3, 5]] puts job 0 on machine 0 and jobs 1 and 2 on machine 1. */
  lemma GreedyExample1Grid(c: CostMatrix)
    requires c == [[1, 2, 5], [2, 2, 1], [2, 3, 5]]
    ensures IsCostMatrix(c)
    ensures GreedyGrid(c) == [[true, false, false], [false, true, true], [false, false, false]]
    ensures Load(c, GreedyGrid(c), 0) == 1 && Load(c, GreedyGrid(c), 1) == 3 && Load(c, GreedyGrid(c), 2) == 0
  {
    Example1Job2(c);
  }

  /** The makespan of a three-machine schedule is the largest of its three loads. */
  lemma MakespanOfThree(c: CostMatrix, g: Grid, a: int, b: int, d: int)
    requires Fits(c, g) && Machines(c) == 3
    requires Load(c, g, 0) == a && Load(c, g, 1) == b && Load(c, g, 2) == d
    ensures Makespan(c, g) == if a >= b && a >= d then a else if b >= d then b else d
  {
    assert MaxLoad(c, g, 2) == if b > a then b else a;
  }

  lemma Example1Pairs(c: CostMatrix, g: Grid)
    requires c == [[1, 2, 5], [2, 2, 1], [2, 3, 5]]
    requires g == [[true, false, false], [false, true, true], [false, false, false]]
    ensures Fits(c, g) && AssignedPairs(c, g) == {(0, 0), (1, 1), (1, 2)}
  {
    PairsOf(c, g, {(0, 0), (1, 1), (1, 2)});
  }

  /** greedy on [[1, 2, 5], [2, 2, 1], [2, 3, 5]]: the assignment result is {(0, 0), (1, 1), (1, 2)} and the makespan result is 3. */
  lemma GreedyExample1(c: CostMatrix)
    requires c == [[1, 2, 5], [2, 2, 1], [2, 3, 5]]
    ensures IsCostMatrix(c)
    ensures Extract(AssignmentStrategy, c, GreedyGrid(c)) == PairSet({(0, 0), (1, 1), (1, 2)})
    ensures Extract(MakespanStrategy, c, GreedyGrid(c)) == Span(3)
  {
    GreedyExample1Grid(c);
    var g := GreedyGrid(c);
    Example1Pairs(c, g);
    MakespanOfThree(c, g, 1, 3, 0);
  }

  lemma Example2Job0(c: CostMatrix)
    requires c == [[1, 2, 1], [4, 2, 4], [2, 3, 2]]
    ensures IsCostMatrix(c)
    ensures GreedyRun(c, EmptyGrid(3, 3), 1) == Run([[true, false, false], [false, false, false], [false, false, false]], false)
  {
    EmptyThree();
    var prev := [[false, false, false], [false, false, false], [false, false, false]];
    var next := [[true, false, false], [false, false, false], [false, false, false]];
    assert SetCell(prev, 0, 0)[0] == next[0];
    RunStep(c, EmptyGrid(3, 3), 0, prev, 0, next);
  }

  lemma Example2Job1(c: CostMatrix)
    requires c == [[1, 2, 1], [4, 2, 4], [2, 3, 2]]
    ensures IsCostMatrix(c)
    ensures GreedyRun(c, EmptyGrid(3, 3), 2) == Run([[true, false, false], [false, true, false], [false, false, false]], false)
  {
    Example2Job0(c);
    var prev := [[true, false, false], [false, false, false], [false, false, false]];
    var next := [[true, false, false], [false, true, false], [false, false, false]];
    assert SetCell(prev, 1, 1)[1] == next[1];
    RunStep(c, EmptyGrid(3, 3), 1, prev, 1, next);
  }

  lemma Example2Job2(c: CostMatrix)
    requires c == [[1, 2, 1], [4, 2, 4], [2, 3, 2]]
    ensures IsCostMatrix(c)
    ensures GreedyRun(c, EmptyGrid(3, 3), 3) == Run([[true, false, true], [false, true, false], [false, false, false]], false)
  {
    Example2Job1(c);
    var prev := [[true, false, false], [false, true, false], [false, false, false]];
    var next := [[true, false, true], [false, true, false], [false, false, false]];
    assert SetCell(prev, 0, 2)[0] == next[0];
    RunStep(c, EmptyGrid(3, 3), 2, prev, 0, next);
  }

  /**
   * greedy on [[1, 2, 1], [4, 2, 4], [2, 3, 2]] puts jobs 0 and 2 on machine 0 and
   * job 1 on machine 1; job 2 ties between machines 0 and 2 and the lower index wins.
   */
  lemma GreedyExample2Grid(c: CostMatrix)
    requires c == [[1, 2, 1], [4, 2, 4], [2, 3, 2]]
    ensures IsCostMatrix(c)
    ensures GreedyGrid(c) == [[true, false, true], [false, true, false], [false, false, false]]
    ensures Load(c, GreedyGrid(c), 0) == 2 && Load(c, GreedyGrid(c), 1) == 2 && Load(c, GreedyGrid(c), 2) == 0
  {
    Example2Job2(c);
  }

  lemma Example2Pairs(c: CostMatrix, g: Grid)
    requires c == [[1, 2, 1], [4, 2, 4], [2, 3, 2]]
    requires g == [[true, false, true], [false, true, false], [false, false, false]]
    ensures Fits(c, g) && AssignedPairs(c, g) == {(0, 0), (1, 1), (0, 2)}
  {
    PairsOf(c, g, {(0, 0), (1, 1), (0, 2)});
  }

  /** greedy on [[1, 2, 1], [4, 2, 4], [2, 3, 2]]: the assignment result is {(0, 0), (1, 1), (0, 2)} and the makespan result is 2. */
  lemma GreedyExample2(c: CostMatrix)
    requires c == [[1, 2, 1], [4, 2, 4], [2, 3, 2]]
    ensures IsCostMatrix(c)
    ensures Extract(AssignmentStrategy, c, GreedyGrid(c)) == PairSet({(0, 0), (1, 1), (0, 2)})
    ensures Extract(MakespanStrategy, c, GreedyGrid(c)) == Span(2)
  {
    GreedyExample2Grid(c);
    var g := GreedyGrid(c);
    Example2Pairs(c, g);
    MakespanOfThree(c, g, 2, 2, 0);
  }

  /** The empty grid with four machines and three jobs, written out. */
  lemma EmptyFourByThree()
    ensures EmptyGrid(4, 3) == [[false, false, false], [false, false, false], [false, false, false], [false, false, false]]
  {
    var e := EmptyGrid(4, 3);
    assert e[0] == [false, false, false] && e[1] == [false, false, false];
    assert e[2] == [false, false, false] && e[3] == [false, false, false];
  }

  /** The empty four-by-four grid, written out. */
  lemma EmptyFourByFour()
    ensures EmptyGrid(4, 4) == [[false, false, false, false], [false, false, false, false], [false, false, false, false], [false, false, false, false]]
  {
    var e := EmptyGrid(4, 4);
    assert e[0] == [false, false, false, false] && e[1] == [false, false, false, false];
    assert e[2] == [false, false, false, false] && e[3] == [false, false, false, false];
  }

  /** The makespan of a four-machine schedule is the largest of its four loads. */
  lemma MakespanOfFour(c: CostMatrix, g: Grid, a: int, b: int, d: int, e: int, top: int)
    requires Fits(c, g) && Machines(c) == 4
    requires Load(c, g, 0) == a && Load(c, g, 1) == b && Load(c, g, 2) == d && Load(c, g, 3) == e
    requires a <= top && b <= top && d <= top && e <= top && (top == a || top == b || top == d || top == e)
    ensures Makespan(c, g) == top
  {
  }

  lemma Example3Job0(c: CostMatrix)
    requires c == [[1, 2, 1], [4, 2, 4], [2, 3, 2], [3, 1, 2]]
    ensures IsCostMatrix(c)
    ensures GreedyRun(c, EmptyGrid(4, 3), 1) == Run([[true, false, false], [false, false, false], [false, false, false], [false, false, false]], false)
    ensures var g := GreedyRun(c, EmptyGrid(4, 3), 1).grid;
            Load(c, g, 0) == 1 && Load(c, g, 1) == 0 && Load(c, g, 2) == 0 && Load(c, g, 3) == 0
  {
    EmptyFourByThree();
    LoadsOfEmpty(c);
    var prev := [[false, false, false], [false, false, false], [false, false, false], [false, false, false]];
    var next := [[true, false, false], [false, false, false], [false, false, false], [false, false, false]];
    assert SetCell(prev, 0, 0)[0] == next[0];
    RunStep(c, EmptyGrid(4, 3), 0, prev, 0, next);
    LoadsAfter(c, prev, 0, 0);
  }

  lemma Example3Job1(c: CostMatrix)
    requires c == [[1, 2, 1], [4, 2, 4], [2, 3, 2], [3, 1, 2]]
    ensures IsCostMatrix(c)
    ensures GreedyRun(c, EmptyGrid(4, 3), 2) == Run([[true, false, false], [false, false, false], [false, false, false], [false, true, false]], false)
    ensures var g := GreedyRun(c, EmptyGrid(4, 3), 2).grid;
            Load(c, g, 0) == 1 && Load(c, g, 1) == 0 && Load(c, g, 2) == 0 && Load(c, g, 3) == 1
  {
    Example3Job0(c);
    var prev := [[true, false, false], [false, false, false], [false, false, false], [false, false, false]];
    var next := [[true, false, false], [false, false, false], [false, false, false], [false, true, false]];
    assert SetCell(prev, 3, 1)[3] == next[3];
    RunStep(c, EmptyGrid(4, 3), 1, prev, 3, next);
    LoadsAfter(c, prev, 3, 1);
  }

  lemma Example3Job2(c: CostMatrix)
    requires c == [[1, 2, 1], [4, 2, 4], [2, 3, 2], [3, 1, 2]]
    ensures IsCostMatrix(c)
    ensures GreedyRun(c, EmptyGrid(4, 3), 3) == Run([[true, false, true], [false, false, false], [false, false, false], [false, true, false]], false)
    ensures var g := GreedyRun(c, EmptyGrid(4, 3), 3).grid;
            Load(c, g, 0) == 2 && Load(c, g, 1) == 0 && Load(c, g, 2) == 0 && Load(c, g, 3) == 1
  {
    Example3Job1(c);
    var prev := [[true, false, false], [false, false, false], [false, false, false], [false, true, false]];
    var next := [[true, false, true], [false, false, false], [false, false, false], [false, true, false]];
    assert SetCell(prev, 0, 2)[0] == next[0];
    RunStep(c, EmptyGrid(4, 3), 2, prev, 0, next);
    LoadsAfter(c, prev, 0, 2);
  }

  lemma Example3Pairs(c: CostMatrix, g: Grid)
    requires c == [[1, 2, 1], [4, 2, 4], [2, 3, 2], [3, 1, 2]]
    requires g == [[true, false, true], [false, false, false], [false, false, false], [false, true, false]]
    ensures Fits(c, g) && AssignedPairs(c, g) == {(0, 0), (3, 1), (0, 2)}
  {
    PairsOf(c, g, {(0, 0), (3, 1), (0, 2)});
  }

  /**
   * greedy on [[1, 2, 1], [4, 2, 4], [2, 3, 2], [3, 1, 2]]: the assignment result is
   * {(0, 0), (3, 1), (0, 2)} and the makespan result is 2; job 2 ties between machines 0 and 2.
   */
  lemma GreedyExample3(c: CostMatrix)
    requires c == [[1, 2, 1], [4, 2, 4], [2, 3, 2], [3, 1, 2]]
    ensures IsCostMatrix(c)
    ensures Extract(AssignmentStrategy, c, GreedyGrid(c)) == PairSet({(0, 0), (3, 1), (0, 2)})
    ensures Extract(MakespanStrategy, c, GreedyGrid(c)) == Span(2)
  {
    Example3Job2(c);
    var g := GreedyGrid(c);
    Example3Pairs(c, g);
    MakespanOfFour(c, g, 2, 0, 0, 1, 2);
  }

  lemma Example4Job0(c: CostMatrix)
    requires c == [[1, 5, 1, 10], [2, 4, 4, 3], [2, 5, 3, 3], [3, 3, 7, 10]]
    ensures IsCostMatrix(c)
    ensures GreedyRun(c, EmptyGrid(4, 4), 1) == Run([[true, false, false, false], [false, false, false, false], [false, false, false, false], [false, false, false, false]], false)
    ensures var g := GreedyRun(c, EmptyGrid(4, 4), 1).grid;
            Load(c, g, 0) == 1 && Load(c, g, 1) == 0 && Load(c, g, 2) == 0 && Load(c, g, 3) == 0
  {
    EmptyFourByFour();
    LoadsOfEmpty(c);
    var prev := [[false, false, false, false], [false, false, false, false], [false, false, false, false], [false, false, false, false]];
    var next := [[true, false, false, false], [false, false, false, false], [false, false, false, false], [false, false, false, false]];
    assert SetCell(prev, 0, 0)[0] == next[0];
    RunStep(c, EmptyGrid(4, 4), 0, prev, 0, next);
    LoadsAfter(c, prev, 0, 0);
  }

  lemma Example4Job1(c: CostMatrix)
    requires c == [[1, 5, 1, 10], [2, 4, 4, 3], [2, 5, 3, 3], [3, 3, 7, 10]]
    ensures IsCostMatrix(c)
    ensures GreedyRun(c, EmptyGrid(4, 4), 2) == Run([[true, false, false, false], [false, false, false, false], [false, false, false, false], [false, true, false, false]], false)
    ensures var g := GreedyRun(c, EmptyGrid(4, 4), 2).grid;
            Load(c, g, 0) == 1 && Load(c, g, 1) == 0 && Load(c, g, 2) == 0 && Load(c, g, 3) == 3
  {
    Example4Job0(c);
    var prev := [[true, false, false, false], [false, false, false, false], [false, false, false, false], [false, false, false, false]];
    var next := [[true, false, false, false], [false, false, false, false], [false, false, false, false], [false, true, false, false]];
    assert SetCell(prev, 3, 1)[3] == next[3];
    RunStep(c, EmptyGrid(4, 4), 1, prev, 3, next);
    LoadsAfter(c, prev, 3, 1);
  }

  lemma Example4Job2(c: CostMatrix)
    requires c == [[1, 5, 1, 10], [2, 4, 4, 3], [2, 5, 3, 3], [3, 3, 7, 10]]
    ensures IsCostMatrix(c)
    ensures GreedyRun(c, EmptyGrid(4, 4), 3) == Run([[true, false, true, false], [false, false, false, false], [false, false, false, false], [false, true, false, false]], false)
    ensures var g := GreedyRun(c, EmptyGrid(4, 4), 3).grid;
            Load(c, g, 0) == 2 && Load(c, g, 1) == 0 && Load(c, g, 2) == 0 && Load(c, g, 3) == 3
  {
    Example4Job1(c);
    var prev := [[true, false, false, false], [false, false, false, false], [false, false, false, false], [false, true, false, false]];
    var next := [[true, false, true, false], [false, false, false, false], [false, false, false, false], [false, true, false, false]];
    assert SetCell(prev, 0, 2)[0] == next[0];
    RunStep(c, EmptyGrid(4, 4), 2, prev, 0, next);
    LoadsAfter(c, prev, 0, 2);
  }

  lemma Example4Job3(c: CostMatrix)
    requires c == [[1, 5, 1, 10], [2, 4, 4, 3], [2, 5, 3, 3], [3, 3, 7, 10]]
    ensures IsCostMatrix(c)
    ensures GreedyRun(c, EmptyGrid(4, 4), 4) == Run([[true, false, true, false], [false, false, false, true], [false, false, false, false], [false, true, false, false]], false)
    ensures var g := GreedyRun(c, EmptyGrid(4, 4), 4).grid;
            Load(c, g, 0) == 2 && Load(c, g, 1) == 3 && Load(c, g, 2) == 0 && Load(c, g, 3) == 3
  {
    Example4Job2(c);
    var prev := [[true, false, true, false], [false, false, false, false], [false, false, false, false], [false, true, false, false]];
    var next := [[true, false, true, false], [false, false, false, true], [false, false, false, false], [false, true, false, false]];
    assert SetCell(prev, 1, 3)[1] == next[1];
    RunStep(c, EmptyGrid(4, 4), 3, prev, 1, next);
    LoadsAfter(c, prev, 1, 3);
  }

  lemma Example4Pairs(c: CostMatrix, g: Grid)
    requires c == [[1, 5, 1, 10], [2, 4, 4, 3], [2, 5, 3, 3], [3, 3, 7, 10]]
    requires g == [[true, false, true, false], [false, false, false, true], [false, false, false, false], [false, true, false, false]]
    ensures Fits(c, g) && AssignedPairs(c, g) == {(0, 0), (3, 1), (0, 2), (1, 3)}
  {
    PairsOf(c, g, {(0, 0), (3, 1), (0, 2), (1, 3)});
  }

  /**
   * greedy on [[1, 5, 1, 10], [2, 4, 4, 3], [2, 5, 3, 3], [3, 3, 7, 10]]: the assignment result is
   * {(0, 0), (3, 1), (0, 2), (1, 3)} and the makespan result is 3; job 3 ties between machines 1 and 2.
   */
  lemma GreedyExample4(c: CostMatrix)
    requires c == [[1, 5, 1, 10], [2, 4, 4, 3], [2, 5, 3, 3], [3, 3, 7, 10]]
    ensures IsCostMatrix(c)
    ensures Extract(AssignmentStrategy, c, GreedyGrid(c)) == PairSet({(0, 0), (3, 1), (0, 2), (1, 3)})
    ensures Extract(MakespanStrategy, c, GreedyGrid(c)) == Span(3)
  {
    Example4Job3(c);
    var g := GreedyGrid(c);
    Example4Pairs(c, g);
    MakespanOfFour(c, g, 2, 3, 0, 3, 3);
  }

  /** The empty two-by-two grid, written out. */
  lemma EmptyTwo()
    ensures EmptyGrid(2, 2) == [[false, false], [false, false]]
  {
    var e := EmptyGrid(2, 2);
    assert e[0] == [false, false];
    assert e[1] == [false, false];
  }

  /** [[1, 1], [1, 1]] with (0, 0) and (1, 1) assigned: both loads are 1, so the makespan is 1. */
  lemma TwoDiagonal(c: CostMatrix, g: Grid)
    requires c == [[1, 1], [1, 1]]
    requires g == SetCell(SetCell([[false, false], [false, false]], 0, 0), 1, 1)
    ensures Fits(c, g)
    ensures AssignedPairs(c, g) == {(0, 0), (1, 1)}
    ensures Makespan(c, g) == 1
    ensures !g[0][1]
  {
    assert g[0] == [true, false];
    assert g[1] == [false, true];
    PairsOf(c, g, {(0, 0), (1, 1)});
    assert c[0] == [1, 1] && c[1] == [1, 1];
    assert RowLoad(c[1], g[1], 0) == 0 && !g[1][0];
    assert RowLoad(c[0], g[0], 1) == 1;
    assert RowLoad(c[1], g[1], 1) == 0;
    assert Load(c, g, 0) == 1 && Load(c, g, 1) == 1;
    assert MaxLoad(c, g, 1) == 1;
  }

  /** [[1, 1], [1, 1]] with (0, 0), (1, 1) and (0, 1) assigned: the loads are 2 and 1, so the makespan is 2. */
  lemma TwoDiagonalAndCorner(c: CostMatrix, g: Grid)
    requires c == [[1, 1], [1, 1]]
    requires g == SetCell(SetCell(SetCell([[false, false], [false, false]], 0, 0), 1, 1), 0, 1)
    ensures Fits(c, g)
    ensures Makespan(c, g) == 2
  {
    assert g[0] == [true, true];
    assert g[1] == [false, true];
    assert c[0] == [1, 1] && c[1] == [1, 1];
    assert RowLoad(c[1], g[1], 0) == 0 && !g[1][0];
    assert RowLoad(c[0], g[0], 1) == 1;
    assert RowLoad(c[1], g[1], 1) == 0;
    assert Load(c, g, 0) == 2 && Load(c, g, 1) == 1;
    assert MaxLoad(c, g, 1) == 2;
  }
}
