/** The two-stage stochastic program (Model.py lines 44-74) as checkable
    definitions: what a candidate point is, when it is feasible, and what it
    costs. Finding an optimal point is the external solver's job and is not
    modelled. Sites are indexed by j, warehouses by i, scenarios by k. */
module Formulation {
  import opened Linear

  /** Number of demand scenarios in the reference instance. */
  const NoScen: nat := 2

  /** Scenario probabilities of the reference instance: two equally likely scenarios. */
  function ScenarioProbabilities(): (p: seq<real>)
    ensures |p| == NoScen
    ensures forall k :: 0 <= k < |p| ==> p[k] > 0.0
    ensures Sum(p) == 1.0
  {
    [0.5, 0.5]
  }

  /** The parameters of one instance. */
  datatype Instance = Instance(
    A: seq<seq<int>>,  // A[i][j]: parts from site j needed per unit produced at warehouse i
    d: seq<seq<int>>,  // d[i][k]: demand at warehouse i under scenario k
    b: seq<int>,       // b[j]: preorder cost per part at site j
    s: seq<int>,       // s[j]: salvage value per leftover part at site j
    c: seq<int>,       // c[i]: net production cost per unit at warehouse i
    p: seq<real>)      // p[k]: probability of scenario k
  {
    /** m sites, n warehouses and |p| scenarios, with every parameter shaped accordingly. */
    predicate WellFormed()
    {
      |s| == |b| && IsMatrix(A, |c|, |b|) && IsMatrix(d, |c|, |p|)
    }
  }

  /** A candidate point: orders x[j], leftover inventory y[j][k], production z[i][k]. */
  datatype Point = Point(x: seq<real>, y: seq<seq<real>>, z: seq<seq<real>>)

  /** The point has the dimensions the instance asks for. */
  predicate Shaped(inst: Instance, pt: Point)
  {
    inst.WellFormed() && |pt.x| == |inst.b|
    && IsMatrix(pt.y, |inst.b|, |inst.p|) && IsMatrix(pt.z, |inst.c|, |inst.p|)
  }

  /** Parts of site j used by production plan z under scenario k: `Sum(i, A[i, j] * z[i, k])`. */
  function Usage(inst: Instance, z: seq<seq<real>>, j: nat, k: nat): real
    requires inst.WellFormed() && IsMatrix(z, |inst.c|, |inst.p|)
    requires j < |inst.b| && k < |inst.p|
  {
    Dot(AsReal(Column(inst.A, j)), Column(z, k))
  }

  /** need_constraint: leftover inventory is what was ordered minus what production used. */
  predicate NeedConstraint(inst: Instance, pt: Point)
    requires Shaped(inst, pt)
  {
    forall j, k :: 0 <= j < |inst.b| && 0 <= k < |inst.p| ==>
      pt.y[j][k] == pt.x[j] - Usage(inst, pt.z, j, k)
  }

  /** non_negative_order_constraint. */
  predicate NonNegativeOrder(pt: Point)
  {
    forall j :: 0 <= j < |pt.x| ==> pt.x[j] >= 0.0
  }

  /** non_negative_inventory_constraint (inventory_salvage_constraint states it again). */
  predicate NonNegativeInventory(pt: Point)
  {
    forall j, k :: 0 <= j < |pt.y| && 0 <= k < |pt.y[j]| ==> pt.y[j][k] >= 0.0
  }

  /** non_negative_production_constraint. */
  predicate NonNegativeProduction(pt: Point)
  {
    forall i, k :: 0 <= i < |pt.z| && 0 <= k < |pt.z[i]| ==> pt.z[i][k] >= 0.0
  }

  /** production_need_constraint: no warehouse produces more than its scenario demand. */
  predicate ProductionNeed(inst: Instance, pt: Point)
    requires Shaped(inst, pt)
  {
    forall i, k :: 0 <= i < |inst.c| && 0 <= k < |inst.p| ==> pt.z[i][k] <= inst.d[i][k] as real
  }

  /** The point satisfies every equation of the model. */
  predicate Feasible(inst: Instance, pt: Point)
  {
    Shaped(inst, pt) && NeedConstraint(inst, pt) && NonNegativeOrder(pt)
    && NonNegativeInventory(pt) && NonNegativeProduction(pt) && ProductionNeed(inst, pt)
  }

  /** Second-stage cost of scenario k: production cost minus salvage value. */
  function Recourse(inst: Instance, pt: Point, k: nat): real
    requires Shaped(inst, pt) && k < |inst.p|
  {
    Dot(AsReal(inst.c), Column(pt.z, k)) - Dot(AsReal(inst.s), Column(pt.y, k))
  }

  /** The second-stage cost of every scenario. */
  function Recourses(inst: Instance, pt: Point): (r: seq<real>)
    requires Shaped(inst, pt)
    ensures |r| == |inst.p|
    ensures forall k :: 0 <= k < |r| ==> r[k] == Recourse(inst, pt, k)
  {
    seq(|inst.p|, k requires 0 <= k < |inst.p| => Recourse(inst, pt, k))
  }

  /** The objective: first-stage order cost plus the expected second-stage cost. */
  function Objective(inst: Instance, pt: Point): real
    requires Shaped(inst, pt)
  {
    Dot(AsReal(inst.b), pt.x) + Dot(inst.p, Recourses(inst, pt))
  }

  /** With the reference probabilities, the objective is the order cost plus
      half of each scenario's second-stage cost. */
  lemma ObjectiveTwoScenarios(inst: Instance, pt: Point)
    requires Shaped(inst, pt) && inst.p == ScenarioProbabilities()
    ensures Objective(inst, pt) ==
      Dot(AsReal(inst.b), pt.x) + 0.5 * Recourse(inst, pt, 0) + 0.5 * Recourse(inst, pt, 1)
  {
    var p, r := inst.p, Recourses(inst, pt);
    assert p[1..][1..] == [] && r[1..][1..] == [];
    assert Dot(p[1..], r[1..]) == 0.5 * r[1];
  }

  /** The inventory that the need constraint assigns to orders x and production z. */
  function InventoryOf(inst: Instance, x: seq<real>, z: seq<seq<real>>): (y: seq<seq<real>>)
    requires inst.WellFormed() && |x| == |inst.b| && IsMatrix(z, |inst.c|, |inst.p|)
    ensures IsMatrix(y, |inst.b|, |inst.p|)
    ensures forall j, k :: 0 <= j < |inst.b| && 0 <= k < |inst.p| ==>
      y[j][k] == x[j] - Usage(inst, z, j, k)
  {
    seq(|inst.b|, j requires 0 <= j < |inst.b| =>
      seq(|inst.p|, k requires 0 <= k < |inst.p| => x[j] - Usage(inst, z, j, k)))
  }

  /** A point is feasible exactly when its inventory is the one orders and
      production determine, orders and production are nonnegative, production
      stays within demand, and every site ordered enough for every scenario. */
  lemma FeasibleCharacterization(inst: Instance, pt: Point)
    requires Shaped(inst, pt)
    ensures Feasible(inst, pt) <==>
      pt.y == InventoryOf(inst, pt.x, pt.z)
      && NonNegativeOrder(pt) && NonNegativeProduction(pt) && ProductionNeed(inst, pt)
      && forall j, k :: 0 <= j < |inst.b| && 0 <= k < |inst.p| ==>
           pt.x[j] >= Usage(inst, pt.z, j, k)
  {
    var y := InventoryOf(inst, pt.x, pt.z);
    if Feasible(inst, pt) {
      forall j | 0 <= j < |y|
        ensures pt.y[j] == y[j]
      {
        assert forall k :: 0 <= k < |inst.p| ==> pt.y[j][k] == y[j][k];
      }
    }
  }

  /** Inventory is not a free choice: feasible points with the same orders
      and production are the same point. */
  lemma InventoryDetermined(inst: Instance, pt1: Point, pt2: Point)
    requires Feasible(inst, pt1) && Feasible(inst, pt2)
    requires pt1.x == pt2.x && pt1.z == pt2.z
    ensures pt1 == pt2
  {
    FeasibleCharacterization(inst, pt1);
    FeasibleCharacterization(inst, pt2);
  }

  /** In a feasible point every production quantity lies between 0 and its
      demand, so zero demand everywhere forces zero production. */
  lemma ProductionWithinDemand(inst: Instance, pt: Point)
    requires Feasible(inst, pt)
    ensures forall i, k :: 0 <= i < |inst.c| && 0 <= k < |inst.p| ==>
      0.0 <= pt.z[i][k] <= inst.d[i][k] as real
    ensures (forall i, k :: 0 <= i < |inst.c| && 0 <= k < |inst.p| ==> inst.d[i][k] == 0) ==>
      pt.z == ZeroMatrix(|inst.c|, |inst.p|)
  {
    if forall i, k :: 0 <= i < |inst.c| && 0 <= k < |inst.p| ==> inst.d[i][k] == 0 {
      var Z := ZeroMatrix(|inst.c|, |inst.p|);
      forall i | 0 <= i < |inst.c|
        ensures pt.z[i] == Z[i]
      {
        assert forall k :: 0 <= k < |inst.p| ==> pt.z[i][k] == Z[i][k];
      }
    }
  }

  /** Production uses nothing of any site. */
  lemma UsageOfNoProduction(inst: Instance, j: nat, k: nat)
    requires inst.WellFormed() && j < |inst.b| && k < |inst.p|
    ensures Usage(inst, ZeroMatrix(|inst.c|, |inst.p|), j, k) == 0.0
  {
    var Z := ZeroMatrix(|inst.c|, |inst.p|);
    DotZero(AsReal(Column(inst.A, j)), Column(Z, k));
  }

  /** In a feasible point with nonnegative requirements, every site's usage in
      every scenario is nonnegative and covered by its order. */
  lemma FeasibleUsageBounds(inst: Instance, pt: Point, j: nat, k: nat)
    requires Feasible(inst, pt) && j < |inst.b| && k < |inst.p|
    requires forall i :: 0 <= i < |inst.c| ==> inst.A[i][j] >= 0
    ensures 0.0 <= Usage(inst, pt.z, j, k) <= pt.x[j]
  {
    DotNonnegative(AsReal(Column(inst.A, j)), Column(pt.z, k));
  }

  /** Order nothing, keep nothing, produce nothing. */
  function ZeroPoint(inst: Instance): Point
  {
    Point(Zeros(|inst.b|), ZeroMatrix(|inst.b|, |inst.p|), ZeroMatrix(|inst.c|, |inst.p|))
  }

  /** With nonnegative demands the all-zero point is feasible and costs nothing. */
  lemma ZeroPointFeasible(inst: Instance)
    requires inst.WellFormed()
    requires forall i, k :: 0 <= i < |inst.c| && 0 <= k < |inst.p| ==> inst.d[i][k] >= 0
    ensures Feasible(inst, ZeroPoint(inst))
    ensures Objective(inst, ZeroPoint(inst)) == 0.0
  {
    var pt := ZeroPoint(inst);
    forall j, k | 0 <= j < |inst.b| && 0 <= k < |inst.p|
      ensures pt.y[j][k] == pt.x[j] - Usage(inst, pt.z, j, k)
    {
      UsageOfNoProduction(inst, j, k);
    }
    DotZero(AsReal(inst.b), pt.x);
    forall k | 0 <= k < |inst.p|
      ensures Recourse(inst, pt, k) == 0.0
    {
      DotZero(AsReal(inst.c), Column(pt.z, k));
      DotZero(AsReal(inst.s), Column(pt.y, k));
    }
    DotZero(inst.p, Recourses(inst, pt));
  }

  /** Order x, produce nothing, and keep everything ordered as inventory in every scenario. */
  function StockOnly(inst: Instance, x: seq<real>): Point
  {
    Point(x, seq(|x|, j requires 0 <= j < |x| => seq(|inst.p|, k => x[j])),
      ZeroMatrix(|inst.c|, |inst.p|))
  }

  /** With nonnegative demands and orders, ordering x and producing nothing is feasible. */
  lemma StockOnlyFeasible(inst: Instance, x: seq<real>)
    requires inst.WellFormed()
    requires forall i, k :: 0 <= i < |inst.c| && 0 <= k < |inst.p| ==> inst.d[i][k] >= 0
    requires |x| == |inst.b| && forall j :: 0 <= j < |x| ==> x[j] >= 0.0
    ensures Feasible(inst, StockOnly(inst, x))
  {
    var pt := StockOnly(inst, x);
    assert Shaped(inst, pt);
    forall j, k | 0 <= j < |inst.b| && 0 <= k < |inst.p|
      ensures pt.y[j][k] == pt.x[j] - Usage(inst, pt.z, j, k)
    {
      UsageOfNoProduction(inst, j, k);
    }
  }

  /** Ordering x and producing nothing costs the order cost minus the salvage value of x. */
  lemma StockOnlyObjective(inst: Instance, x: seq<real>)
    requires inst.WellFormed() && Sum(inst.p) == 1.0 && |x| == |inst.b|
    ensures Shaped(inst, StockOnly(inst, x))
    ensures Objective(inst, StockOnly(inst, x)) == Dot(AsReal(inst.b), x) - Dot(AsReal(inst.s), x)
  {
    var pt := StockOnly(inst, x);
    assert Shaped(inst, pt);
    var salvage := Dot(AsReal(inst.s), x);
    forall k | 0 <= k < |inst.p|
      ensures Recourse(inst, pt, k) == -salvage
    {
      DotZero(AsReal(inst.c), Column(pt.z, k));
      assert Column(pt.y, k) == x;
    }
    DotConstant(inst.p, Recourses(inst, pt), -salvage);
  }

  /** Ordering parts only to salvage them never pays: when every salvage value
      is below its preorder cost, the point that orders x and produces nothing
      is feasible, costs the order cost minus the salvage value of x, which is
      never negative, and is positive once anything is ordered. */
  lemma NoOrderAndSalvageArbitrage(inst: Instance, x: seq<real>)
    requires inst.WellFormed() && Sum(inst.p) == 1.0
    requires forall i, k :: 0 <= i < |inst.c| && 0 <= k < |inst.p| ==> inst.d[i][k] >= 0
    requires forall j :: 0 <= j < |inst.b| ==> inst.s[j] < inst.b[j]
    requires |x| == |inst.b| && forall j :: 0 <= j < |x| ==> x[j] >= 0.0
    ensures Feasible(inst, StockOnly(inst, x))
    ensures Objective(inst, StockOnly(inst, x)) == Dot(AsReal(inst.b), x) - Dot(AsReal(inst.s), x)
    ensures Objective(inst, StockOnly(inst, x)) >= 0.0
    ensures (exists j :: 0 <= j < |x| && x[j] > 0.0) ==> Objective(inst, StockOnly(inst, x)) > 0.0
  {
    StockOnlyFeasible(inst, x);
    StockOnlyObjective(inst, x);
    DotDominated(AsReal(inst.s), AsReal(inst.b), x);
  }

  /** The point halfway between `pt1` and `pt2`. */
  function PointMidpoint(inst: Instance, pt1: Point, pt2: Point): (pt: Point)
    requires Shaped(inst, pt1) && Shaped(inst, pt2)
    ensures Shaped(inst, pt)
  {
    Point(Midpoint(pt1.x, pt2.x), MidpointMatrix(pt1.y, pt2.y), MidpointMatrix(pt1.z, pt2.z))
  }

  /** Weighting column k of the average of two matrices averages the weighted columns. */
  lemma {:induction false} DotColumnOfMidpoint(u: seq<real>, M1: seq<seq<real>>, M2: seq<seq<real>>,
                                               k: nat)
    requires |M1| == |u| && forall i :: 0 <= i < |M1| ==> k < |M1[i]|
    requires |M2| == |u| && forall i :: 0 <= i < |M2| ==> |M2[i]| == |M1[i]|
    ensures Dot(u, Column(MidpointMatrix(M1, M2), k)) ==
      (Dot(u, Column(M1, k)) + Dot(u, Column(M2, k))) / 2.0
  {
    if |u| > 0 {
      var M := MidpointMatrix(M1, M2);
      assert M[1..] == MidpointMatrix(M1[1..], M2[1..]);
      assert Column(M, k)[1..] == Column(M[1..], k);
      assert Column(M1, k)[1..] == Column(M1[1..], k);
      assert Column(M2, k)[1..] == Column(M2[1..], k);
      DotColumnOfMidpoint(u[1..], M1[1..], M2[1..], k);
      var a, b := M1[0][k], M2[0][k];
      assert Column(M, k)[0] == (a + b) / 2.0;
      assert u[0] * ((a + b) / 2.0) == (u[0] * a + u[0] * b) / 2.0;
    }
  }

  /** Each scenario's second-stage cost at the midpoint of two points is the
      average of their second-stage costs. */
  lemma RecourseOfMidpoint(inst: Instance, pt1: Point, pt2: Point, k: nat)
    requires Shaped(inst, pt1) && Shaped(inst, pt2) && k < |inst.p|
    ensures Recourse(inst, PointMidpoint(inst, pt1, pt2), k) ==
      (Recourse(inst, pt1, k) + Recourse(inst, pt2, k)) / 2.0
  {
    DotColumnOfMidpoint(AsReal(inst.c), pt1.z, pt2.z, k);
    DotColumnOfMidpoint(AsReal(inst.s), pt1.y, pt2.y, k);
  }

  /** The objective is affine: its value at the midpoint of two points is the
      average of its values there. */
  lemma ObjectiveOfMidpoint(inst: Instance, pt1: Point, pt2: Point)
    requires Shaped(inst, pt1) && Shaped(inst, pt2)
    ensures Objective(inst, PointMidpoint(inst, pt1, pt2)) ==
      (Objective(inst, pt1) + Objective(inst, pt2)) / 2.0
  {
    var r, r1, r2 := Recourses(inst, PointMidpoint(inst, pt1, pt2)),
      Recourses(inst, pt1), Recourses(inst, pt2);
    forall k | 0 <= k < |inst.p|
      ensures r[k] == Midpoint(r1, r2)[k]
    {
      RecourseOfMidpoint(inst, pt1, pt2, k);
    }
    assert r == Midpoint(r1, r2);
    DotMidpoint(AsReal(inst.b), pt1.x, pt2.x);
    DotMidpoint(inst.p, r1, r2);
  }

  /** The feasible set is convex: the midpoint of two feasible points is feasible. */
  lemma MidpointFeasible(inst: Instance, pt1: Point, pt2: Point)
    requires Feasible(inst, pt1) && Feasible(inst, pt2)
    ensures Feasible(inst, PointMidpoint(inst, pt1, pt2))
  {
    var pt := PointMidpoint(inst, pt1, pt2);
    forall j, k | 0 <= j < |inst.b| && 0 <= k < |inst.p|
      ensures pt.y[j][k] == pt.x[j] - Usage(inst, pt.z, j, k)
    {
      DotColumnOfMidpoint(AsReal(Column(inst.A, j)), pt1.z, pt2.z, k);
    }
  }
}
