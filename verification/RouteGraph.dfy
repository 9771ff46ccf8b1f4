/** The executable route graph and its validator: groups of parallel branches,
    each fed by the leg input or by the whole output of one earlier group. */
module RouteGraph {
  import opened Common

  /** A missing amount is 0. */
  datatype Branch = Branch(market: string, plannedInput: int, expectedOutput: int)

  /** parent is empty for a group fed by the leg input. */
  datatype Group = Group(id: string, parent: string, inputToken: string, outputToken: string, branches: seq<Branch>)

  datatype Route = Route(input: Amount, expectedOutput: Amount, groups: seq<Group>)

  function Planned(bs: seq<Branch>): int {
    if |bs| == 0 then 0 else Planned(bs[..|bs| - 1]) + bs[|bs| - 1].plannedInput
  }

  function Expected(bs: seq<Branch>): int {
    if |bs| == 0 then 0 else Expected(bs[..|bs| - 1]) + bs[|bs| - 1].expectedOutput
  }

  // ---------- what a sound route is ----------

  ghost predicate BranchesOk(bs: seq<Branch>) {
    && (forall i :: 0 <= i < |bs| ==> bs[i].market != "" && bs[i].plannedInput > 0 && bs[i].expectedOutput > 0)
    && (forall i, j :: 0 <= i < j < |bs| ==> bs[i].market != bs[j].market)
  }

  predicate Complete(g: Group) {
    g.id != "" && g.inputToken != "" && g.outputToken != "" && g.inputToken != g.outputToken && |g.branches| > 0 && g.parent != g.id
  }

  /** A group by itself. */
  ghost predicate GroupOk(g: Group) { Complete(g) && BranchesOk(g.branches) }

  /** child spends the whole quoted output of parent, in its token. */
  predicate Feeds(parent: Group, child: Group) {
    child.parent == parent.id && parent.outputToken == child.inputToken && Planned(child.branches) == Expected(parent.branches)
  }

  /** Group i is fed by the leg, or by exactly one earlier group that feeds no
      other. */
  ghost predicate Fed(route: Route, i: int)
    requires 0 <= i < |route.groups|
  {
    var g := route.groups[i];
    if g.parent == "" then g.inputToken == route.input.token
    else
      && (exists j :: 0 <= j < i && Feeds(route.groups[j], g))
      && (forall k :: 0 <= k < i ==> route.groups[k].parent != g.parent)
  }

  ghost predicate FreshID(groups: seq<Group>, i: int)
    requires 0 <= i < |groups|
  {
    forall k :: 0 <= k < i ==> groups[k].id != groups[i].id
  }

  /** Group i may follow the groups before it. */
  ghost predicate Joins(route: Route, i: int)
    requires 0 <= i < |route.groups|
  {
    GroupOk(route.groups[i]) && FreshID(route.groups, i) && Fed(route, i)
  }

  ghost predicate GroupsOk(route: Route, bound: int) {
    forall i {:trigger Joins(route, i)} :: 0 <= i < bound && i < |route.groups| ==> Joins(route, i)
  }

  /** Nobody spends the output of this group. */
  ghost predicate Terminal(groups: seq<Group>, id: string) {
    forall k :: 0 <= k < |groups| ==> groups[k].parent != id
  }

  function RootInput(groups: seq<Group>): int {
    if |groups| == 0 then 0
    else
      var g := groups[|groups| - 1];
      RootInput(groups[..|groups| - 1]) + if g.parent == "" then Planned(g.branches) else 0
  }

  ghost function TerminalOutput(all: seq<Group>, groups: seq<Group>): int {
    if |groups| == 0 then 0
    else
      var g := groups[|groups| - 1];
      TerminalOutput(all, groups[..|groups| - 1]) + if Terminal(all, g.id) then Expected(g.branches) else 0
  }

  /** The conservation laws of a route: all leg input enters through the roots,
      every intermediate amount is spent once and whole, and what leaves is the
      expected output in its token. */
  ghost predicate Sound(route: Route) {
    && route.input.token != "" && route.input.units > 0
    && route.expectedOutput.token != "" && route.expectedOutput.units > 0
    && |route.groups| > 0
    && GroupsOk(route, |route.groups|)
    && RootInput(route.groups) == route.input.units
    && TerminalToken(route, |route.groups|)
    && TerminalOutput(route.groups, route.groups) == route.expectedOutput.units
  }

  // ---------- the validator ----------

  method CheckBranches(bs: seq<Branch>) returns (ok: bool, planned: int, expected: int)
    ensures ok == BranchesOk(bs)
    ensures ok ==> planned == Planned(bs) && expected == Expected(bs)
  {
    planned, expected := 0, 0;
    var seen: set<string> := {};
    for i := 0 to |bs|
      invariant BranchesOk(bs[..i])
      invariant seen == set k | 0 <= k < i :: bs[k].market
      invariant planned == Planned(bs[..i]) && expected == Expected(bs[..i])
    {
      if bs[i].market == "" || bs[i].plannedInput <= 0 || bs[i].expectedOutput <= 0 || bs[i].market in seen {
        return false, planned, expected;
      }
      seen := seen + {bs[i].market};
      planned, expected := planned + bs[i].plannedInput, expected + bs[i].expectedOutput;
      assert bs[..i + 1][..i] == bs[..i];
    }
    assert bs[..|bs|] == bs;
    ok := true;
  }

  /** known holds the groups below bound by ID, and consumed their parents. */
  ghost predicate Indexed(groups: seq<Group>, bound: nat, known: map<string, Group>, consumed: set<string>) {
    && bound <= |groups|
    && (forall k :: 0 <= k < bound ==> groups[k].id in known && known[groups[k].id] == groups[k])
    && (forall id :: id in known ==> exists k :: 0 <= k < bound && groups[k].id == id)
    && (forall k :: 0 <= k < bound && groups[k].parent != "" ==> groups[k].parent in consumed)
    && (forall id :: id in consumed ==> exists k :: 0 <= k < bound && groups[k].parent == id)
    && "" !in consumed
  }

  lemma IndexedNext(groups: seq<Group>, bound: nat, known: map<string, Group>, consumed: set<string>)
    requires Indexed(groups, bound, known, consumed) && bound < |groups| && groups[bound].id !in known
    ensures Indexed(groups, bound + 1, known[groups[bound].id := groups[bound]],
                    if groups[bound].parent == "" then consumed else consumed + {groups[bound].parent})
  {
    var g := groups[bound];
    var known', consumed' := known[g.id := g], if g.parent == "" then consumed else consumed + {g.parent};
    forall id | id in known' ensures exists k :: 0 <= k < bound + 1 && groups[k].id == id {
      if id == g.id { assert groups[bound].id == id; }
      else { var k :| 0 <= k < bound && groups[k].id == id; assert groups[k].id == id; }
    }
    forall id | id in consumed' ensures exists k :: 0 <= k < bound + 1 && groups[k].parent == id {
      if id == g.parent { assert groups[bound].parent == id; }
      else { var k :| 0 <= k < bound && groups[k].parent == id; assert groups[k].parent == id; }
    }
  }

  /** Whether the next group may join the groups accepted so far. */
  method CheckGroup(route: Route, i: nat, known: map<string, Group>, consumed: set<string>) returns (ok: bool, planned: int)
    requires i < |route.groups| && Indexed(route.groups, i, known, consumed)
    ensures ok == Joins(route, i)
    ensures ok ==> planned == Planned(route.groups[i].branches) && route.groups[i].id !in known
  {
    var g := route.groups[i];
    if !Complete(g) { return false, 0; }
    if g.id in known { return false, 0; }
    var expected: int;
    ok, planned, expected := CheckBranches(g.branches);
    if !ok { return; }
    if g.parent == "" {
      ok := g.inputToken == route.input.token;
      return;
    }
    if g.parent !in known { return false, planned; }
    var parent := known[g.parent];
    ghost var j :| 0 <= j < i && route.groups[j].id == g.parent;
    assert parent == route.groups[j];
    if parent.outputToken != g.inputToken || planned != Expected(parent.branches) {
      assert forall k :: 0 <= k < i && Feeds(route.groups[k], g) ==> route.groups[k] == parent;
      return false, planned;
    }
    assert Feeds(route.groups[j], g);
    ok := g.parent !in consumed;
  }

  /** Accept the groups one after the other. */
  method CheckGroups(route: Route) returns (ok: bool, rootInput: int, consumed: set<string>)
    ensures ok == GroupsOk(route, |route.groups|)
    ensures ok ==> rootInput == RootInput(route.groups) && ConsumedOk(route.groups, consumed)
  {
    var known: map<string, Group> := map[];
    rootInput, consumed := 0, {};
    for i := 0 to |route.groups|
      invariant Indexed(route.groups, i, known, consumed)
      invariant GroupsOk(route, i)
      invariant rootInput == RootInput(route.groups[..i])
    {
      var fits, planned := CheckGroup(route, i, known, consumed);
      if !fits {
        assert !Joins(route, i);
        return false, rootInput, consumed;
      }
      IndexedNext(route.groups, i, known, consumed);
      var g := route.groups[i];
      RootInputNext(route.groups, i);
      GroupsOkNext(route, i);
      known := known[g.id := g];
      if g.parent == "" { rootInput := rootInput + planned; } else { consumed := consumed + {g.parent}; }
    }
    assert route.groups[..|route.groups|] == route.groups;
    ConsumedMeansFed(route, known, consumed);
    ok := true;
  }

  lemma RootInputNext(groups: seq<Group>, i: nat)
    requires i < |groups|
    ensures RootInput(groups[..i + 1])
         == RootInput(groups[..i]) + if groups[i].parent == "" then Planned(groups[i].branches) else 0
  {
    assert groups[..i + 1][..i] == groups[..i];
  }

  lemma GroupsOkNext(route: Route, i: nat)
    requires i < |route.groups| && GroupsOk(route, i) && Joins(route, i)
    ensures GroupsOk(route, i + 1)
  {
  }

  /** Accept exactly the sound routes. */
  method Validate(route: Route) returns (ok: bool)
    ensures ok == Sound(route)
  {
    if route.input.token == "" || route.input.units == 0 || route.expectedOutput.token == "" ||
       route.expectedOutput.units == 0 || |route.groups| == 0 {
      return false;
    }
    var rootInput: int, consumed: set<string>;
    ok, rootInput, consumed := CheckGroups(route);
    if !ok { return; }
    if rootInput != route.input.units { return false; }
    ok := CheckTerminals(route, consumed);
  }

  /** A group was consumed exactly when it is not terminal. */
  ghost predicate ConsumedOk(groups: seq<Group>, consumed: set<string>) {
    forall i {:trigger groups[i]} :: 0 <= i < |groups| ==> (groups[i].id in consumed <==> !Terminal(groups, groups[i].id))
  }

  lemma ConsumedMeansFed(route: Route, known: map<string, Group>, consumed: set<string>)
    requires Indexed(route.groups, |route.groups|, known, consumed) && GroupsOk(route, |route.groups|)
    ensures ConsumedOk(route.groups, consumed)
  {
    forall i | 0 <= i < |route.groups|
      ensures route.groups[i].id in consumed <==> !Terminal(route.groups, route.groups[i].id)
    {
      assert Joins(route, i);
    }
  }

  ghost predicate TerminalToken(route: Route, bound: int) {
    forall k {:trigger route.groups[k]} :: 0 <= k < bound && k < |route.groups| && Terminal(route.groups, route.groups[k].id) ==>
      route.groups[k].outputToken == route.expectedOutput.token
  }

  method CheckTerminals(route: Route, consumed: set<string>) returns (ok: bool)
    requires ConsumedOk(route.groups, consumed)
    ensures ok == (TerminalToken(route, |route.groups|)
                   && TerminalOutput(route.groups, route.groups) == route.expectedOutput.units)
  {
    var output := 0;
    for i := 0 to |route.groups|
      invariant output == TerminalOutput(route.groups, route.groups[..i])
      invariant TerminalToken(route, i)
    {
      var g := route.groups[i];
      assert route.groups[..i + 1][..i] == route.groups[..i];
      if g.id !in consumed {
        if g.outputToken != route.expectedOutput.token { return false; }
        output := output + Expected(g.branches);
      }
    }
    assert route.groups[..|route.groups|] == route.groups;
    ok := output == route.expectedOutput.units;
  }

  // ---------- the balance of a whole route ----------

  ghost function AllPlanned(groups: seq<Group>): int {
    if |groups| == 0 then 0 else AllPlanned(groups[..|groups| - 1]) + Planned(groups[|groups| - 1].branches)
  }

  ghost function AllExpected(groups: seq<Group>): int {
    if |groups| == 0 then 0 else AllExpected(groups[..|groups| - 1]) + Expected(groups[|groups| - 1].branches)
  }

  /** Expected output of the groups with these IDs. */
  ghost function ExpectedOf(groups: seq<Group>, ids: set<string>): int {
    if |groups| == 0 then 0
    else
      var g := groups[|groups| - 1];
      ExpectedOf(groups[..|groups| - 1], ids) + if g.id in ids then Expected(g.branches) else 0
  }

  ghost function Parents(groups: seq<Group>, bound: nat): set<string>
    requires bound <= |groups|
  {
    set k | 0 <= k < bound && groups[k].parent != "" :: groups[k].parent
  }

  ghost predicate DistinctIDs(groups: seq<Group>) {
    forall i, j :: 0 <= i < j < |groups| ==> groups[i].id != groups[j].id
  }

  lemma {:induction false} ExpectedOfWithout(groups: seq<Group>, ids: set<string>, id: string)
    requires forall k :: 0 <= k < |groups| ==> groups[k].id != id
    ensures ExpectedOf(groups, ids + {id}) == ExpectedOf(groups, ids)
  {
    if |groups| > 0 { ExpectedOfWithout(groups[..|groups| - 1], ids, id); }
  }

  lemma {:induction false} ExpectedOfAdds(groups: seq<Group>, ids: set<string>, j: nat)
    requires DistinctIDs(groups) && j < |groups| && groups[j].id !in ids
    ensures ExpectedOf(groups, ids + {groups[j].id}) == ExpectedOf(groups, ids) + Expected(groups[j].branches)
  {
    var n := |groups| - 1;
    if j == n {
      ExpectedOfWithout(groups[..n], ids, groups[n].id);
    } else {
      ExpectedOfAdds(groups[..n], ids, j);
    }
  }

  /** What the groups take in is the leg input they are given and the outputs
      they consume. */
  lemma {:induction false} IntakeSplits(route: Route, bound: nat)
    requires bound <= |route.groups| && GroupsOk(route, |route.groups|) && DistinctIDs(route.groups)
    ensures AllPlanned(route.groups[..bound])
         == RootInput(route.groups[..bound]) + ExpectedOf(route.groups, Parents(route.groups, bound))
  {
    if bound == 0 {
      ExpectedOfNone(route.groups);
      assert Parents(route.groups, 0) == {};
    } else {
      var g := route.groups[bound - 1];
      IntakeSplits(route, bound - 1);
      assert route.groups[..bound][..bound - 1] == route.groups[..bound - 1];
      assert Joins(route, bound - 1);
      if g.parent == "" {
        assert Parents(route.groups, bound) == Parents(route.groups, bound - 1);
      } else {
        var j :| 0 <= j < bound - 1 && Feeds(route.groups[j], g);
        assert Parents(route.groups, bound) == Parents(route.groups, bound - 1) + {g.parent};
        ExpectedOfAdds(route.groups, Parents(route.groups, bound - 1), j);
      }
    }
  }

  lemma {:induction false} ExpectedOfNone(groups: seq<Group>)
    ensures ExpectedOf(groups, {}) == 0
  {
    if |groups| > 0 { ExpectedOfNone(groups[..|groups| - 1]); }
  }

  /** Every output is consumed by a group or leaves the route. */
  lemma {:induction false} OutputSplits(all: seq<Group>, groups: seq<Group>)
    requires forall k :: 0 <= k < |groups| ==> groups[k].id != ""
    ensures AllExpected(groups) == TerminalOutput(all, groups) + ExpectedOf(groups, Parents(all, |all|))
  {
    if |groups| > 0 {
      var n := |groups| - 1;
      OutputSplits(all, groups[..n]);
      assert groups[n].id in Parents(all, |all|) <==> !Terminal(all, groups[n].id);
    }
  }

  /** Nothing is created, lost or spent twice anywhere in a sound route: over
      all its groups, intake minus output is leg input minus expected output. */
  lemma FlowBalance(route: Route)
    requires Sound(route)
    ensures AllPlanned(route.groups) - AllExpected(route.groups) == route.input.units - route.expectedOutput.units
  {
    forall i, j | 0 <= i < j < |route.groups| ensures route.groups[i].id != route.groups[j].id {
      assert Joins(route, j);
    }
    forall k | 0 <= k < |route.groups| ensures route.groups[k].id != "" { assert Joins(route, k); }
    IntakeSplits(route, |route.groups|);
    OutputSplits(route.groups, route.groups);
    assert route.groups[..|route.groups|] == route.groups;
  }
}
