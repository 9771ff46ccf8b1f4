/** From an optimizer result to an executable route. */
module RouteBuilder {
  import opened Common
  import opened Allocations
  import opened Flows
  import opened TwoStageSplit
  import opened RouteGraph

  const DIRECT_GROUP := "direct"
  const FIRST_GROUP := "intermediate_input"
  const SECOND_GROUP := "intermediate_output"

  /** The allocations that actually receive input, as branches. */
  function Branches(allocations: seq<SplitAllocation>): seq<Branch> {
    if |allocations| == 0 then []
    else
      var last := allocations[|allocations| - 1];
      Branches(allocations[..|allocations| - 1]) +
        if last.amountIn == 0 then [] else [Branch(last.curveID, last.amountIn, last.amountOut)]
  }

  method ExecutionBranches(allocations: seq<SplitAllocation>) returns (r: seq<Branch>)
    ensures r == Branches(allocations)
  {
    r := [];
    for i := 0 to |allocations|
      invariant r == Branches(allocations[..i])
    {
      assert allocations[..i + 1][..i] == allocations[..i];
      if allocations[i].amountIn != 0 {
        r := r + [Branch(allocations[i].curveID, allocations[i].amountIn, allocations[i].amountOut)];
      }
    }
    assert allocations[..|allocations|] == allocations;
  }

  /** Every branch that receives input produces output. */
  ghost predicate Paying(allocations: seq<SplitAllocation>) {
    forall i :: 0 <= i < |allocations| && allocations[i].amountIn > 0 ==> allocations[i].amountOut > 0
  }

  ghost predicate AllPaying(r: Result) { Paying(r.direct) && Paying(r.first) && Paying(r.second) }

  ghost predicate DistinctNames(allocations: seq<SplitAllocation>) {
    && (forall i :: 0 <= i < |allocations| ==> allocations[i].curveID != "")
    && (forall i, j :: 0 <= i < j < |allocations| ==> allocations[i].curveID != allocations[j].curveID)
  }

  /** How many of the allocations receive input. */
  function Funded(allocations: seq<SplitAllocation>): nat {
    if |allocations| == 0 then 0 else (if allocations[0].amountIn > 0 then 1 else 0) + Funded(allocations[1..])
  }

  lemma {:induction false} FundedAppend(allocations: seq<SplitAllocation>, last: SplitAllocation)
    ensures Funded(allocations + [last]) == Funded(allocations) + if last.amountIn > 0 then 1 else 0
  {
    if |allocations| > 0 {
      assert (allocations + [last])[1..] == allocations[1..] + [last];
      FundedAppend(allocations[1..], last);
    }
  }

  /** There are as many branches as funded allocations, in their order: each
      funded allocation is the branch after those funded before it, with its own
      pool, input and output. */
  lemma {:induction false} BranchAt(allocations: seq<SplitAllocation>, k: nat)
    requires k < |allocations|
    ensures |Branches(allocations)| == Funded(allocations)
    ensures allocations[k].amountIn > 0 ==>
              && Funded(allocations[..k]) < |Branches(allocations)|
              && Branches(allocations)[Funded(allocations[..k])] == Branch(allocations[k].curveID, allocations[k].amountIn, allocations[k].amountOut)
  {
    var front, last := allocations[..|allocations| - 1], allocations[|allocations| - 1];
    assert allocations == front + [last];
    FundedAppend(front, last);
    if k < |front| {
      BranchAt(front, k);
      assert front[..k] == allocations[..k];
    } else {
      assert allocations[..k] == front;
      if |front| > 0 { BranchAt(front, 0); }
    }
  }

  /** Every branch is named after one of the allocations. */
  lemma {:induction false} BranchMarket(allocations: seq<SplitAllocation>, i: nat) returns (k: nat)
    requires i < |Branches(allocations)|
    ensures k < |allocations| && Branches(allocations)[i].market == allocations[k].curveID
  {
    var n := |allocations| - 1;
    if i < |Branches(allocations[..n])| {
      k := BranchMarket(allocations[..n], i);
    } else {
      k := n;
    }
  }

  lemma BranchesOkAppend(bs: seq<Branch>, b: Branch)
    requires b.market != "" && b.plannedInput > 0 && forall i :: 0 <= i < |bs| ==> bs[i].market != b.market
    ensures BranchesOk(bs + [b]) <==> BranchesOk(bs) && b.expectedOutput > 0
  {
    var all := bs + [b];
    assert all[|bs|] == b && forall i :: 0 <= i < |bs| ==> all[i] == bs[i];
    if BranchesOk(all) {
      forall i, j | 0 <= i < j < |bs| ensures bs[i].market != bs[j].market { assert all[i].market != all[j].market; }
    }
  }

  /** The branches are valid exactly when the allocations pay. */
  lemma {:induction false} BranchesValid(allocations: seq<SplitAllocation>)
    requires DistinctNames(allocations)
    ensures BranchesOk(Branches(allocations)) <==> Paying(allocations)
  {
    if |allocations| > 0 {
      var n := |allocations| - 1;
      var last, bs := allocations[n], Branches(allocations[..n]);
      BranchesValid(allocations[..n]);
      if last.amountIn > 0 {
        forall i | 0 <= i < |bs| ensures bs[i].market != last.curveID {
          var k := BranchMarket(allocations[..n], i);
          assert allocations[k].curveID != last.curveID;
        }
        BranchesOkAppend(bs, Branch(last.curveID, last.amountIn, last.amountOut));
      } else {
        assert bs + [] == bs;
      }
      assert Paying(allocations) <==> Paying(allocations[..n]) && (last.amountIn > 0 ==> last.amountOut > 0);
    }
  }

  /** Leaving out what receives nothing changes neither sum. */
  lemma {:induction false} BranchSums(curves: seq<Curve>, a: seq<nat>, allocations: seq<SplitAllocation>)
    requires Materialized(curves, a, allocations)
    ensures Planned(Branches(allocations)) == Sum(a) && Expected(Branches(allocations)) == Output(curves, a)
  {
    if |a| > 0 {
      var n := |a| - 1;
      var last := allocations[n];
      BranchSums(curves[..n], a[..n], allocations[..n]);
      var bs := Branches(allocations[..n]);
      if last.amountIn > 0 {
        var b := Branch(last.curveID, last.amountIn, last.amountOut);
        assert (bs + [b])[..|bs|] == bs;
      } else {
        assert bs + [] == bs;
      }
    }
  }

  lemma MaterializedNames(curves: seq<Curve>, a: seq<nat>, allocations: seq<SplitAllocation>)
    requires Materialized(curves, a, allocations) && UniqueIDs(curves)
    requires forall i :: 0 <= i < |curves| ==> !Blank(curves[i].id)
    ensures DistinctNames(allocations)
  {
  }

  // ---------- the shape of a built route ----------

  function DirectGroups(direct: seq<Branch>, inputToken: string, outputToken: string): seq<Group> {
    if |direct| > 0 then [Group(DIRECT_GROUP, "", inputToken, outputToken, direct)] else []
  }

  /** The groups built from the branches of the three families. */
  function Groups(direct: seq<Branch>, first: seq<Branch>, second: seq<Branch>,
                  inputToken: string, intermediateToken: string, outputToken: string): seq<Group> {
    DirectGroups(direct, inputToken, outputToken) +
    if |first| > 0 || |second| > 0
    then [Group(FIRST_GROUP, "", inputToken, intermediateToken, first),
          Group(SECOND_GROUP, FIRST_GROUP, intermediateToken, outputToken, second)]
    else []
  }

  /** The two intermediate families come together, over a token of their own. */
  ghost predicate Paired(first: seq<Branch>, second: seq<Branch>, input: string, mid: string, output: string) {
    || (first == [] && second == [])
    || (first != [] && second != [] && mid != "" && mid != input && mid != output)
  }

  ghost predicate DistinctTokens(x: string, y: string, z: string) {
    x != "" && y != "" && z != "" && x != y && y != z && x != z
  }

  /** Facts about the three families of a balanced result. */
  ghost predicate FamilyFacts(result: Result, total: nat) {
    && Planned(Branches(result.direct)) + Planned(Branches(result.first)) == total == result.totalInput
    && Planned(Branches(result.second)) == Expected(Branches(result.first))
    && Expected(Branches(result.direct)) + Expected(Branches(result.second)) == result.totalOutput
    && (BranchesOk(Branches(result.direct)) <==> Paying(result.direct))
    && (BranchesOk(Branches(result.first)) <==> Paying(result.first))
    && (BranchesOk(Branches(result.second)) <==> Paying(result.second))
  }

  lemma BalancedFacts(o: Objective, total: nat, result: Result)
    requires Balanced(o, total, result) && Accepted(o)
    ensures FamilyFacts(result, total)
  {
    BranchSums(o.direct, Ins(result.direct), result.direct);
    BranchSums(o.first, Ins(result.first), result.first);
    BranchSums(o.second, Ins(result.second), result.second);
    var all := o.direct + o.first + o.second;
    forall i, j | 0 <= i < j < |o.direct| ensures o.direct[i].id != o.direct[j].id { assert all[i].id != all[j].id; }
    forall i, j | 0 <= i < j < |o.first| ensures o.first[i].id != o.first[j].id {
      assert all[|o.direct| + i].id != all[|o.direct| + j].id;
    }
    forall i, j | 0 <= i < j < |o.second| ensures o.second[i].id != o.second[j].id {
      assert all[|o.direct| + |o.first| + i].id != all[|o.direct| + |o.first| + j].id;
    }
    MaterializedNames(o.direct, Ins(result.direct), result.direct);
    MaterializedNames(o.first, Ins(result.first), result.first);
    MaterializedNames(o.second, Ins(result.second), result.second);
    BranchesValid(result.direct);
    BranchesValid(result.first);
    BranchesValid(result.second);
  }

  /** Valid branches add up to something when there are any, and only then. */
  lemma {:induction false} ValidSums(bs: seq<Branch>)
    requires BranchesOk(bs)
    ensures |bs| > 0 ==> Planned(bs) > 0 && Expected(bs) > 0
    ensures |bs| == 0 ==> Planned(bs) == 0 && Expected(bs) == 0
  {
    if |bs| > 0 { ValidSums(bs[..|bs| - 1]); }
  }

  // ---------- building ----------

  /** The three families of branches fit together. */
  ghost predicate Fits(direct: seq<Branch>, first: seq<Branch>, second: seq<Branch>, input: int, output: int) {
    && Planned(direct) + Planned(first) == input
    && Planned(second) == Expected(first)
    && Expected(direct) + Expected(second) == output
  }

  ghost predicate AllValid(direct: seq<Branch>, first: seq<Branch>, second: seq<Branch>) {
    BranchesOk(direct) && BranchesOk(first) && BranchesOk(second)
  }

  lemma OneGroupSound(route: Route, g: Group)
    requires route.groups == [g] && GroupOk(g) && g.parent == ""
    requires g.inputToken == route.input.token && g.outputToken == route.expectedOutput.token
    requires route.input.units == Planned(g.branches) && route.expectedOutput.units == Expected(g.branches)
    ensures Sound(route)
  {
    ValidSums(g.branches);
    assert route.groups[..0] == [];
    assert Joins(route, 0);
  }

  ghost predicate PairShape(route: Route, at: nat, first: Group, second: Group) {
    && at <= 1 && |route.groups| == at + 2 && route.groups[at] == first && route.groups[at + 1] == second
    && first.id == FIRST_GROUP && first.parent == "" && second.id == SECOND_GROUP && second.parent == FIRST_GROUP
    && first.inputToken == route.input.token && second.outputToken == route.expectedOutput.token
    && (at == 1 ==> route.groups[0].id == DIRECT_GROUP && route.groups[0].parent == "" &&
                    route.groups[0].inputToken == route.input.token &&
                    route.groups[0].outputToken == route.expectedOutput.token)
  }

  lemma DistinctGroupNames()
    ensures DIRECT_GROUP != FIRST_GROUP && FIRST_GROUP != SECOND_GROUP && DIRECT_GROUP != SECOND_GROUP
    ensures DIRECT_GROUP != "" && FIRST_GROUP != "" && SECOND_GROUP != ""
  {
    assert DIRECT_GROUP[0] != FIRST_GROUP[0] && FIRST_GROUP[13] != SECOND_GROUP[13] && DIRECT_GROUP[0] != SECOND_GROUP[0];
  }

  lemma PairJoins(route: Route, at: nat, first: Group, second: Group)
    requires PairShape(route, at, first, second) && GroupOk(first) && GroupOk(second) && Feeds(first, second)
    requires at == 1 ==> GroupOk(route.groups[0])
    ensures GroupsOk(route, |route.groups|)
  {
    DistinctGroupNames();
    if at == 1 { assert Joins(route, 0); }
    assert Joins(route, at);
    assert Feeds(route.groups[at], route.groups[at + 1]);
    assert Joins(route, at + 1);
  }

  lemma PairSums(route: Route, at: nat, first: Group, second: Group)
    requires PairShape(route, at, first, second)
    ensures RootInput(route.groups) == Planned(first.branches) + if at == 1 then Planned(route.groups[0].branches) else 0
  {
    DistinctGroupNames();
    var g := route.groups;
    assert g[..at + 1][..at] == g[..at];
    assert RootInput(g) == RootInput(g[..at + 1]);
    assert RootInput(g[..at + 1]) == RootInput(g[..at]) + Planned(g[at].branches);
    if at == 1 { assert RootInput(g[..1]) == RootInput(g[..1][..0]) + Planned(g[0].branches); }
  }

  lemma PairTerminals(route: Route, at: nat, first: Group, second: Group)
    requires PairShape(route, at, first, second)
    ensures TerminalToken(route, |route.groups|)
    ensures TerminalOutput(route.groups, route.groups)
         == Expected(second.branches) + if at == 1 then Expected(route.groups[0].branches) else 0
  {
    var g := route.groups;
    DistinctGroupNames();
    assert !Terminal(g, FIRST_GROUP) && Terminal(g, SECOND_GROUP) && Terminal(g, DIRECT_GROUP);
    assert g[..at + 1][..at] == g[..at];
    assert TerminalOutput(g, g) == TerminalOutput(g, g[..at + 1]) + Expected(g[at + 1].branches);
    assert TerminalOutput(g, g[..at + 1]) == TerminalOutput(g, g[..at]);
    if at == 1 { assert TerminalOutput(g, g[..1]) == TerminalOutput(g, g[..1][..0]) + Expected(g[0].branches); }
  }

  /** Valid branches that fit together make a sound route. */
  lemma ValidRouteSound(direct: seq<Branch>, first: seq<Branch>, second: seq<Branch>, route: Route, mid: string)
    requires AllValid(direct, first, second) && Fits(direct, first, second, route.input.units, route.expectedOutput.units)
    requires route.input.units > 0 && DistinctTokens(route.input.token, mid, route.expectedOutput.token)
    requires route.groups == Groups(direct, first, second, route.input.token, mid, route.expectedOutput.token)
    ensures Sound(route)
  {
    ValidSums(direct);
    ValidSums(first);
    ValidSums(second);
    DistinctGroupNames();
    if |first| == 0 {
      OneGroupSound(route, Group(DIRECT_GROUP, "", route.input.token, route.expectedOutput.token, direct));
    } else {
      var at := if |direct| > 0 then 1 else 0;
      var f := Group(FIRST_GROUP, "", route.input.token, mid, first);
      var s := Group(SECOND_GROUP, FIRST_GROUP, mid, route.expectedOutput.token, second);
      PairJoins(route, at, f, s);
      PairSums(route, at, f, s);
      PairTerminals(route, at, f, s);
    }
  }

  /** A route that carries an invalid branch is not sound. */
  lemma InvalidIsUnsound(route: Route, i: nat)
    requires i < |route.groups| && !BranchesOk(route.groups[i].branches)
    ensures !Sound(route)
  {
    assert !Joins(route, i);
  }

  /** The built route is sound exactly when every branch is valid. */
  lemma BuiltIsSound(direct: seq<Branch>, first: seq<Branch>, second: seq<Branch>, route: Route, mid: string)
    requires Fits(direct, first, second, route.input.units, route.expectedOutput.units)
    requires route.input.units > 0 && DistinctTokens(route.input.token, mid, route.expectedOutput.token)
    requires route.groups == Groups(direct, first, second, route.input.token, mid, route.expectedOutput.token)
    ensures Sound(route) <==> AllValid(direct, first, second)
  {
    if AllValid(direct, first, second) {
      ValidRouteSound(direct, first, second, route, mid);
    } else {
      var at := if |direct| > 0 then 1 else 0;
      if !BranchesOk(direct) { InvalidIsUnsound(route, 0); }
      else if !BranchesOk(first) { InvalidIsUnsound(route, at); }
      else { InvalidIsUnsound(route, at + 1); }
    }
  }

  /** Valid branches have both intermediate families or neither. */
  lemma BothOrNeither(direct: seq<Branch>, first: seq<Branch>, second: seq<Branch>, input: int, output: int)
    requires AllValid(direct, first, second) && Fits(direct, first, second, input, output)
    ensures |first| > 0 <==> |second| > 0
  {
    ValidSums(first);
    ValidSums(second);
  }

  /** Build the graph and validate it. */
  method BuildRoute(direct: seq<Branch>, first: seq<Branch>, second: seq<Branch>, input: Amount, mid: string, output: Amount)
    returns (r: Option<Route>)
    ensures r.Some? <==> Paired(first, second, input.token, mid, output.token)
                         && Sound(Route(input, output, Groups(direct, first, second, input.token, mid, output.token)))
    ensures r.Some? ==> r.value == Route(input, output, Groups(direct, first, second, input.token, mid, output.token))
    ensures Fits(direct, first, second, input.units, output.units) && input.units > 0 && DistinctTokens(input.token, mid, output.token)
            ==> (r.Some? <==> AllValid(direct, first, second))
  {
    ghost var fits := Fits(direct, first, second, input.units, output.units) && input.units > 0 &&
                      DistinctTokens(input.token, mid, output.token);
    var groups := DirectGroups(direct, input.token, output.token);
    if |first| > 0 || |second| > 0 {
      if mid == "" || mid == input.token || mid == output.token || |first| == 0 || |second| == 0 {
        if fits && AllValid(direct, first, second) { BothOrNeither(direct, first, second, input.units, output.units); }
        return None;
      }
      groups := groups + [Group(FIRST_GROUP, "", input.token, mid, first),
                          Group(SECOND_GROUP, FIRST_GROUP, mid, output.token, second)];
    }
    assert groups == Groups(direct, first, second, input.token, mid, output.token);
    var route := Route(input, output, groups);
    var ok := Validate(route);
    if fits { BuiltIsSound(direct, first, second, route, mid); }
    if !ok { return None; }
    r := Some(route);
  }

  /** From an optimizer result to a route. For a balanced result over distinct
      tokens this succeeds exactly when every branch that gets input pays. */
  method BuildRouteAllocation(result: Result, inputToken: string, intermediateToken: string, outputToken: string,
                              ghost o: Objective, ghost total: nat)
    returns (r: Option<Route>)
    ensures r.Some? <==>
              && inputToken != "" && outputToken != "" && inputToken != outputToken
              && Paired(Branches(result.first), Branches(result.second), inputToken, intermediateToken, outputToken)
              && Sound(Route(Amount(inputToken, result.totalInput), Amount(outputToken, result.totalOutput),
                             Groups(Branches(result.direct), Branches(result.first), Branches(result.second),
                                    inputToken, intermediateToken, outputToken)))
    ensures r.Some? ==> r.value == Route(Amount(inputToken, result.totalInput), Amount(outputToken, result.totalOutput),
                                         Groups(Branches(result.direct), Branches(result.first), Branches(result.second),
                                                inputToken, intermediateToken, outputToken))
    ensures Balanced(o, total, result) && Accepted(o) && total > 0 && DistinctTokens(inputToken, intermediateToken, outputToken)
            ==> (r.Some? <==> AllPaying(result))
  {
    if inputToken == "" || outputToken == "" || inputToken == outputToken { return None; }
    var direct := ExecutionBranches(result.direct);
    var first := ExecutionBranches(result.first);
    var second := ExecutionBranches(result.second);
    if Balanced(o, total, result) && Accepted(o) { BalancedFacts(o, total, result); }
    r := BuildRoute(direct, first, second, Amount(inputToken, result.totalInput), intermediateToken,
                    Amount(outputToken, result.totalOutput));
  }

  /** The optimizer and the builder together. */
  method OptimizeAndBuild(request: Request, inputToken: string, intermediateToken: string, outputToken: string)
    returns (result: Option<Result>, route: Option<Route>)
    requires DistinctTokens(inputToken, intermediateToken, outputToken)
    ensures result.Some? ==> (route.Some? <==> AllPaying(result.value))
    ensures route.Some? ==> result.Some? && Sound(route.value)
    ensures route.Some? ==> route.value.input.token == inputToken && route.value.input.units == request.totalInput
    ensures route.Some? ==> route.value.expectedOutput == Amount(outputToken, result.value.totalOutput)
  {
    route := None;
    var replaced: bool;
    result, replaced := OptimizeTwoStageSplit(request);
    if result.None? { return; }
    route := BuildRouteAllocation(result.value, inputToken, intermediateToken, outputToken,
                                  Sorted(request), request.totalInput);
  }
}
