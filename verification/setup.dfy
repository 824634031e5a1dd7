/** How the script turns its sampled data into the parameters of the program
    (Model.py lines 13-27 and 38-45): reshaped requirements and demands, the
    repaired salvage values, the net cost and the scenario probabilities. */
module Setup {
  import opened Linear
  import opened DataShaping
  import opened SalvageRepair
  import opened Formulation

  /** Every entry of `a` was drawn from [lo, hi). */
  predicate InRange(a: seq<int>, lo: int, hi: int)
  {
    forall i :: 0 <= i < |a| ==> lo <= a[i] < hi
  }

  /** The parameters bound to the model for m sites and n warehouses: `req`
      reshaped to n x m, `needs` to n x 2, `c = l - q`, and `p = [1/2, 1/2]`. */
  function BuildInstance(m: nat, n: nat, l: seq<int>, q: seq<int>, b: seq<int>, s: seq<int>,
                         req: seq<int>, needs: seq<int>): (inst: Instance)
    requires |l| == n && |q| == n && |b| == m && |s| == m
    requires |req| == n * m && |needs| == n * NoScen
    ensures inst.WellFormed()
    ensures |inst.b| == m && |inst.c| == n && inst.p == ScenarioProbabilities()
    ensures forall i :: 0 <= i < n ==> inst.c[i] == l[i] - q[i]
    ensures inst.b == b && inst.s == s
  {
    Instance(Reshape(req, n, m), Reshape(needs, n, NoScen), b, s, NetCost(l, q),
      ScenarioProbabilities())
  }

  /** The built requirement and demand matrices hold the flat samples in row-major order. */
  lemma BuiltMatrices(m: nat, n: nat, l: seq<int>, q: seq<int>, b: seq<int>, s: seq<int>,
                      req: seq<int>, needs: seq<int>)
    requires |l| == n && |q| == n && |b| == m && |s| == m
    requires |req| == n * m && |needs| == n * NoScen
    ensures forall i, j :: 0 <= i < n && 0 <= j < m ==>
      BuildInstance(m, n, l, q, b, s, req, needs).A[i][j] == req[RowMajor(i, j, n, m)]
    ensures forall i, k :: 0 <= i < n && 0 <= k < NoScen ==>
      BuildInstance(m, n, l, q, b, s, req, needs).d[i][k] == needs[RowMajor(i, k, n, NoScen)]
  {
    ReshapeRowMajor(req, n, m);
    ReshapeRowMajor(needs, n, NoScen);
  }

  /** Requirements and demands of a generated instance keep their sampling ranges. */
  lemma GeneratedShapes(m: nat, n: nat, l: seq<int>, q: seq<int>, b: seq<int>, s: seq<int>,
                        req: seq<int>, needs: seq<int>)
    requires |l| == n && |q| == n && |b| == m && |s| == m
    requires |req| == n * m && |needs| == n * NoScen
    requires InRange(req, 0, 10) && InRange(needs, 0, 15)
    ensures forall i, j :: 0 <= i < n && 0 <= j < m ==>
      0 <= BuildInstance(m, n, l, q, b, s, req, needs).A[i][j] < 10
    ensures forall i, k :: 0 <= i < n && 0 <= k < NoScen ==>
      0 <= BuildInstance(m, n, l, q, b, s, req, needs).d[i][k] < 15
  {
    var inst := BuildInstance(m, n, l, q, b, s, req, needs);
    BuiltMatrices(m, n, l, q, b, s, req, needs);
    forall i, j | 0 <= i < n && 0 <= j < m
      ensures 0 <= inst.A[i][j] < 10
    {
    }
    forall i, k | 0 <= i < n && 0 <= k < NoScen
      ensures 0 <= inst.d[i][k] < 15
    {
    }
  }

  /** An instance generated as the script does it (sampling ranges of lines
      13-18, then the repair pass) has nonnegative requirements and demands,
      salvage values below preorder costs and in [-10, 10), net costs in
      [-449, 99] (negative when the selling price exceeds the additional
      cost), and the all-zero point as a feasible point of cost 0; so the
      solver never faces an empty feasible set. */
  lemma GeneratedInstance(m: nat, n: nat, l: seq<int>, q: seq<int>, b: seq<int>, s: seq<int>,
                          req: seq<int>, needs: seq<int>)
    requires |l| == n && |q| == n && |b| == m && |s| == m
    requires |req| == n * m && |needs| == n * NoScen
    requires InRange(l, 50, 200) && InRange(q, 100, 500)
    requires InRange(b, 0, 20) && InRange(s, 0, 10)
    requires InRange(req, 0, 10) && InRange(needs, 0, 15)
    ensures var inst := BuildInstance(m, n, l, q, b, RepairedAll(b, s), req, needs);
      && (forall i, j :: 0 <= i < n && 0 <= j < m ==> 0 <= inst.A[i][j] < 10)
      && (forall i, k :: 0 <= i < n && 0 <= k < NoScen ==> 0 <= inst.d[i][k] < 15)
      && (forall j :: 0 <= j < m ==> -10 <= inst.s[j] < 10 && inst.s[j] < inst.b[j])
      && (forall i :: 0 <= i < n ==> -449 <= inst.c[i] <= 99)
      && Feasible(inst, ZeroPoint(inst)) && Objective(inst, ZeroPoint(inst)) == 0.0
  {
    var inst := BuildInstance(m, n, l, q, b, RepairedAll(b, s), req, needs);
    GeneratedShapes(m, n, l, q, b, RepairedAll(b, s), req, needs);
    RepairedRange(b, s);
    ZeroPointFeasible(inst);
  }

  /** In the built instance, the second-stage cost of scenario k is the
      additional production cost, minus the sales revenue, minus the salvage value. */
  lemma RecourseInPrices(m: nat, n: nat, l: seq<int>, q: seq<int>, b: seq<int>, s: seq<int>,
                         req: seq<int>, needs: seq<int>, pt: Point, k: nat)
    requires |l| == n && |q| == n && |b| == m && |s| == m
    requires |req| == n * m && |needs| == n * NoScen
    requires Shaped(BuildInstance(m, n, l, q, b, s, req, needs), pt) && k < NoScen
    ensures Recourse(BuildInstance(m, n, l, q, b, s, req, needs), pt, k) ==
      Dot(AsReal(l), Column(pt.z, k)) - Dot(AsReal(q), Column(pt.z, k))
      - Dot(AsReal(s), Column(pt.y, k))
  {
    var inst := BuildInstance(m, n, l, q, b, s, req, needs);
    DotDifference(AsReal(inst.c), AsReal(l), AsReal(q), Column(pt.z, k));
  }

  /** The objective of the built instance, written out: order cost plus half of
      each scenario's production cost (additional cost minus revenue) minus salvage. */
  lemma ObjectiveInPrices(m: nat, n: nat, l: seq<int>, q: seq<int>, b: seq<int>, s: seq<int>,
                          req: seq<int>, needs: seq<int>, pt: Point)
    requires |l| == n && |q| == n && |b| == m && |s| == m
    requires |req| == n * m && |needs| == n * NoScen
    requires Shaped(BuildInstance(m, n, l, q, b, s, req, needs), pt)
    ensures Objective(BuildInstance(m, n, l, q, b, s, req, needs), pt) ==
      Dot(AsReal(b), pt.x)
      + 0.5 * (Dot(AsReal(l), Column(pt.z, 0)) - Dot(AsReal(q), Column(pt.z, 0))
               - Dot(AsReal(s), Column(pt.y, 0)))
      + 0.5 * (Dot(AsReal(l), Column(pt.z, 1)) - Dot(AsReal(q), Column(pt.z, 1))
               - Dot(AsReal(s), Column(pt.y, 1)))
  {
    var inst := BuildInstance(m, n, l, q, b, s, req, needs);
    ObjectiveTwoScenarios(inst, pt);
    RecourseInPrices(m, n, l, q, b, s, req, needs, pt, 0);
    RecourseInPrices(m, n, l, q, b, s, req, needs, pt, 1);
  }
}
