/** Dependent execution plans: stages that consume each other's settlements. */
module SequentialPlan {
  import opened Common

  datatype Policy = Transported | PrefundedSequential | PrefundedParallel | PrefundedTriggerFirst | UnsupportedPolicy

  datatype Kind = Buy | BridgeBase | Sell | BridgeQuoteReturn | UnsupportedKind

  /** An unset branch means the main one. */
  datatype Branch = UnsetBranch | MainBranch | CircuitBreakerBranch | UnsupportedBranch

  datatype Route = SellAtDestination | ReturnToOrigin | SellAtOrigin

  /** inputFrom 0 refers to no settlement; a swap has no destination chain and a
      bridge no market. */
  datatype Stage = Stage(
    ordinal: int, kind: Kind, branch: Branch, dependsOn: seq<int>, inputFrom: int,
    sourceChain: string, destinationChain: string, inputToken: string, outputToken: string, market: string)

  datatype Quotes = Quotes(buyIn: Amount, buyOut: Amount, sellIn: Amount, sellOut: Amount)

  datatype Opportunity = Opportunity(
    qualified: bool, selected: int, candidates: seq<Quotes>, buyMarket: string, sellMarket: string)

  datatype Plan = Plan(
    id: string, policy: Policy, opportunity: Opportunity, initialInput: Amount,
    stages: seq<Stage>, circuitBreaker: seq<Stage>,
    baseAsset: string, quoteAsset: string, decimals: map<string, nat>, dated: bool)

  // ---------- validity ----------

  predicate DistinctDependencies(stage: Stage) {
    && (forall i :: 0 <= i < |stage.dependsOn| ==> 1 <= stage.dependsOn[i] < stage.ordinal)
    && (forall i, j :: 0 <= i < j < |stage.dependsOn| ==> stage.dependsOn[i] != stage.dependsOn[j])
  }

  predicate KindOk(stage: Stage) {
    match stage.kind
    case Buy => stage.market != "" && stage.destinationChain == ""
    case Sell => stage.market != "" && stage.destinationChain == ""
    case BridgeBase => stage.destinationChain != "" && stage.destinationChain != stage.sourceChain && stage.market == ""
    case BridgeQuoteReturn => stage.destinationChain != "" && stage.destinationChain != stage.sourceChain && stage.market == ""
    case UnsupportedKind => false
  }

  predicate StageOk(stage: Stage) {
    && stage.ordinal >= 1 && stage.sourceChain != "" && stage.inputToken != "" && stage.outputToken != ""
    && stage.branch != UnsupportedBranch
    && 0 <= stage.inputFrom < stage.ordinal
    && DistinctDependencies(stage)
    && KindOk(stage)
  }

  predicate DualInventory(plan: Plan) { plan.policy == PrefundedParallel || plan.policy == PrefundedTriggerFirst }

  predicate SizesOk(plan: Plan) {
    match plan.policy
    case Transported => |plan.stages| == 4
    case UnsupportedPolicy => false
    case _ =>
      && |plan.stages| == 4 && |plan.circuitBreaker| == 1
      && (DualInventory(plan) ==> plan.baseAsset != "" && plan.quoteAsset != "" && plan.decimals != map[])
  }

  /** The two economic legs are independent and each feeds its own bridge. */
  predicate ParallelDependencies(plan: Plan)
    requires |plan.stages| == 4
  {
    && (forall i :: 0 <= i < 4 ==> plan.stages[i].ordinal == i + 1)
    && plan.stages[0].kind == Buy && plan.stages[0].inputFrom == 0 && plan.stages[0].dependsOn == []
    && plan.stages[1].kind == Sell && plan.stages[1].inputFrom == 0 && plan.stages[1].dependsOn == []
    && plan.stages[2].kind == BridgeBase && plan.stages[2].inputFrom == 1 && plan.stages[2].dependsOn == [1]
    && plan.stages[3].kind == BridgeQuoteReturn && plan.stages[3].inputFrom == 2 && plan.stages[3].dependsOn == [2]
  }

  function AllStages(plan: Plan): seq<Stage> { plan.stages + plan.circuitBreaker }

  predicate DistinctOrdinals(stages: seq<Stage>) {
    forall i, j :: 0 <= i < j < |stages| ==> stages[i].ordinal != stages[j].ordinal
  }

  predicate PlanOk(plan: Plan) {
    && plan.id != "" && plan.initialInput.units != 0 && plan.dated && SizesOk(plan)
    && (forall i :: 0 <= i < |AllStages(plan)| ==> StageOk(AllStages(plan)[i]))
    && DistinctOrdinals(AllStages(plan))
    && (DualInventory(plan) ==> ParallelDependencies(plan))
  }

  /** A stage is accepted exactly when it is well formed. */
  method ValidateStage(stage: Stage) returns (ok: bool)
    ensures ok == StageOk(stage)
  {
    if stage.ordinal < 1 || stage.sourceChain == "" || stage.inputToken == "" || stage.outputToken == "" { return false; }
    if stage.branch == UnsupportedBranch { return false; }
    if stage.inputFrom < 0 || stage.inputFrom >= stage.ordinal { return false; }
    var seen: set<int> := {};
    for i := 0 to |stage.dependsOn|
      invariant seen == set j | 0 <= j < i :: stage.dependsOn[j]
      invariant forall j :: 0 <= j < i ==> 1 <= stage.dependsOn[j] < stage.ordinal
      invariant forall j, k :: 0 <= j < k < i ==> stage.dependsOn[j] != stage.dependsOn[k]
    {
      var dependency := stage.dependsOn[i];
      if dependency < 1 || dependency >= stage.ordinal { return false; }
      if dependency in seen { return false; }
      seen := seen + {dependency};
    }
    match stage.kind
    case Buy => ok := stage.market != "" && stage.destinationChain == "";
    case Sell => ok := stage.market != "" && stage.destinationChain == "";
    case BridgeBase => ok := stage.destinationChain != "" && stage.destinationChain != stage.sourceChain && stage.market == "";
    case BridgeQuoteReturn => ok := stage.destinationChain != "" && stage.destinationChain != stage.sourceChain && stage.market == "";
    case UnsupportedKind => ok := false;
  }

  /** Validate the stages one after the other, collecting the ordinals. */
  method ValidateStages(stages: seq<Stage>) returns (ok: bool)
    ensures ok == ((forall i :: 0 <= i < |stages| ==> StageOk(stages[i])) && DistinctOrdinals(stages))
  {
    var ordinals: set<int> := {};
    for i := 0 to |stages|
      invariant ordinals == set j | 0 <= j < i :: stages[j].ordinal
      invariant forall j :: 0 <= j < i ==> StageOk(stages[j])
      invariant forall j, k :: 0 <= j < k < i ==> stages[j].ordinal != stages[k].ordinal
    {
      var valid := ValidateStage(stages[i]);
      if !valid { return false; }
      if stages[i].ordinal in ordinals { return false; }
      ordinals := ordinals + {stages[i].ordinal};
    }
    ok := true;
  }

  method ValidateParallelDependencies(plan: Plan) returns (ok: bool)
    requires |plan.stages| == 4
    ensures ok == ParallelDependencies(plan)
  {
    var kinds := [Buy, Sell, BridgeBase, BridgeQuoteReturn];
    var inputs := [0, 0, 1, 2];
    var dependencies := [[], [], [1], [2]];
    for i := 0 to 4
      invariant forall j :: 0 <= j < i ==> plan.stages[j].ordinal == j + 1
      invariant forall j :: 0 <= j < i ==> plan.stages[j].kind == kinds[j] && plan.stages[j].inputFrom == inputs[j]
      invariant forall j :: 0 <= j < i ==> plan.stages[j].dependsOn == dependencies[j]
    {
      var stage := plan.stages[i];
      if stage.ordinal != i + 1 || stage.kind != kinds[i] || stage.inputFrom != inputs[i] || stage.dependsOn != dependencies[i] {
        return false;
      }
    }
    ok := true;
  }

  /** A plan is accepted exactly when it is well formed. */
  method Validate(plan: Plan) returns (ok: bool)
    ensures ok == PlanOk(plan)
  {
    if plan.id == "" || plan.initialInput.units == 0 || !plan.dated || |plan.stages| == 0 { return false; }
    if !SizesOk(plan) { return false; }
    ok := ValidateStages(AllStages(plan));
    if !ok { return; }
    if DualInventory(plan) { ok := ValidateParallelDependencies(plan); }
  }

  // ---------- constructors ----------

  function NewStage(ordinal: int, kind: Kind, branch: Branch, dependsOn: seq<int>, inputFrom: int,
                    source: string, destination: string, tokenIn: string, tokenOut: string, market: string): Stage {
    Stage(ordinal, kind, branch, dependsOn, inputFrom, source, destination, tokenIn, tokenOut, market)
  }

  function TransportedStages(q: Quotes, o: Opportunity, buyChain: string, sellChain: string): seq<Stage> {
    [NewStage(1, Buy, UnsetBranch, [], 0, buyChain, "", q.buyIn.token, q.buyOut.token, o.buyMarket),
     NewStage(2, BridgeBase, UnsetBranch, [], 0, buyChain, sellChain, q.buyOut.token, q.sellIn.token, ""),
     NewStage(3, Sell, UnsetBranch, [], 0, sellChain, "", q.sellIn.token, q.sellOut.token, o.sellMarket),
     NewStage(4, BridgeQuoteReturn, UnsetBranch, [], 0, sellChain, buyChain, q.sellOut.token, q.buyIn.token, "")]
  }

  function PrefundedStages(q: Quotes, o: Opportunity, buyChain: string, sellChain: string): seq<Stage> {
    [NewStage(1, Buy, MainBranch, [], 0, buyChain, "", q.buyIn.token, q.buyOut.token, o.buyMarket),
     NewStage(2, Sell, MainBranch, [1], 1, sellChain, "", q.sellIn.token, q.sellOut.token, o.sellMarket),
     NewStage(3, BridgeBase, MainBranch, [1, 2], 1, buyChain, sellChain, q.buyOut.token, q.sellIn.token, ""),
     NewStage(4, BridgeQuoteReturn, MainBranch, [2, 3], 2, sellChain, buyChain, q.sellOut.token, q.buyIn.token, "")]
  }

  function BreakerStages(q: Quotes, o: Opportunity, buyChain: string): seq<Stage> {
    [NewStage(5, Sell, CircuitBreakerBranch, [1], 1, buyChain, "", q.buyOut.token, q.buyIn.token, o.buyMarket)]
  }

  predicate Selectable(o: Opportunity) { 0 <= o.selected < |o.candidates| }

  function NewSequentialPlan(id: string, o: Opportunity, initialInput: Amount, buyChain: string, sellChain: string, dated: bool): Option<Plan> {
    if id == "" || !dated then None
    else if !o.qualified || !Selectable(o) then None
    else if buyChain == "" || sellChain == "" || buyChain == sellChain then None
    else if initialInput.units == 0 || initialInput.token != o.candidates[o.selected].buyIn.token then None
    else
      var plan := Plan(id, Transported, o, initialInput, TransportedStages(o.candidates[o.selected], o, buyChain, sellChain),
                       [], "", "", map[], dated);
      if PlanOk(plan) then Some(plan) else None
  }

  function NewPrefundedSequentialPlan(id: string, o: Opportunity, initialInput: Amount, buyChain: string, sellChain: string, dated: bool): Option<Plan> {
    var transported := NewSequentialPlan(id, o, initialInput, buyChain, sellChain, dated);
    if transported.None? || !Selectable(o) then None
    else
      var q := o.candidates[o.selected];
      var plan := transported.value.(policy := PrefundedSequential,
        stages := PrefundedStages(q, o, buyChain, sellChain), circuitBreaker := BreakerStages(q, o, buyChain));
      if PlanOk(plan) then Some(plan) else None
  }

  /** The legs become independent; the valuation metadata comes later. */
  function NewPrefundedParallelPlan(id: string, o: Opportunity, initialInput: Amount, buyChain: string, sellChain: string, dated: bool): Option<Plan> {
    var plan := NewPrefundedSequentialPlan(id, o, initialInput, buyChain, sellChain, dated);
    if plan.None? || |plan.value.stages| != 4 then None else Some(Independent(plan.value))
  }

  function Independent(plan: Plan): Plan
    requires |plan.stages| == 4
  {
    var main := plan.stages;
    plan.(policy := PrefundedParallel, stages :=
      [main[0], main[1].(dependsOn := [], inputFrom := 0), main[2].(dependsOn := [1]), main[3].(dependsOn := [2])])
  }

  // ---------- what a plan says ----------

  /** The base token goes back over the first bridge and is sold where it was
      bought. */
  function ReturnExitStages(plan: Plan): Option<seq<Stage>> {
    if |plan.stages| != 4 || plan.stages[0].kind != Buy || plan.stages[1].kind != BridgeBase ||
       plan.stages[2].kind != Sell || plan.stages[3].kind != BridgeQuoteReturn then None
    else
      var buy, bridge := plan.stages[0], plan.stages[1];
      var back := NewStage(3, BridgeBase, UnsetBranch, [], 0, bridge.destinationChain, bridge.sourceChain, bridge.outputToken, bridge.inputToken, "");
      var sale := NewStage(4, Sell, UnsetBranch, [], 0, buy.sourceChain, "", buy.outputToken, buy.inputToken, buy.market);
      if StageOk(back) && StageOk(sale) then Some([back, sale]) else None
  }

  function ParallelSellInput(plan: Plan): Option<Amount> {
    if !DualInventory(plan) || !Selectable(plan.opportunity) then None
    else
      var q := plan.opportunity.candidates[plan.opportunity.selected];
      if q.buyIn.units == 0 || q.sellIn.units == 0 || plan.initialInput.units == 0 then None
      else
        var units := q.sellIn.units * plan.initialInput.units / q.buyIn.units;
        if units <= 0 then None else Some(Amount(q.sellIn.token, units))
  }

  function InputFor(plan: Plan, stage: Stage, outputs: map<int, Amount>): Option<Amount> {
    if DualInventory(plan) && stage.ordinal == 2 && stage.kind == Sell then ParallelSellInput(plan)
    else if stage.inputFrom == 0 then
      if stage.ordinal != 1 || plan.initialInput.token != stage.inputToken then None else Some(plan.initialInput)
    else if stage.inputFrom !in outputs || outputs[stage.inputFrom].units == 0 then None
    else Some(outputs[stage.inputFrom])
  }

  // ---------- what the constructors guarantee ----------

  /** Each stage hands its token to the next, and the last one ends in the token
      the first one started from. */
  ghost predicate Chained(stages: seq<Stage>, token: string) {
    && |stages| == 4
    && stages[0].inputToken == token
    && (forall i :: 0 <= i < 3 ==> stages[i].outputToken == stages[i + 1].inputToken)
    && stages[3].outputToken == token
  }

  /** A transported plan: predecessor-linked, in order, with one sale, whichever
      exit is taken. */
  ghost predicate TransportedShape(plan: Plan) {
    && PlanOk(plan) && plan.policy == Transported
    && (forall i :: 0 <= i < 4 ==> plan.stages[i].ordinal == i + 1 && plan.stages[i].inputFrom == 0 && plan.stages[i].dependsOn == [])
    && plan.stages[0].kind == Buy && plan.stages[1].kind == BridgeBase
    && plan.stages[2].kind == Sell && plan.stages[3].kind == BridgeQuoteReturn
    && Chained(plan.stages, plan.initialInput.token)
  }

  /** A trade on one chain, in one market. */
  predicate TradesAt(stage: Stage, kind: Kind, chain: string, market: string, tokenIn: string, tokenOut: string) {
    && stage.kind == kind && stage.sourceChain == chain && stage.destinationChain == "" && stage.market == market
    && stage.inputToken == tokenIn && stage.outputToken == tokenOut
  }

  /** A transfer from one chain to another. */
  predicate Crosses(stage: Stage, kind: Kind, from: string, to: string, tokenIn: string, tokenOut: string) {
    && stage.kind == kind && stage.sourceChain == from && stage.destinationChain == to && stage.market == ""
    && stage.inputToken == tokenIn && stage.outputToken == tokenOut
  }

  /** What every constructor asks for. */
  predicate Plannable(id: string, o: Opportunity, initialInput: Amount, buyChain: string, sellChain: string, dated: bool) {
    && id != "" && dated && o.qualified && 0 <= o.selected < |o.candidates|
    && buyChain != "" && sellChain != "" && buyChain != sellChain && o.buyMarket != "" && o.sellMarket != ""
    && var q := o.candidates[o.selected];
       && initialInput.units != 0 && initialInput.token == q.buyIn.token
       && q.buyIn.token != "" && q.buyOut.token != "" && q.sellIn.token != "" && q.sellOut.token != ""
  }

  /** The plan is of this operation, opportunity and size. */
  predicate PlansFor(plan: Plan, id: string, o: Opportunity, initialInput: Amount) {
    plan.id == id && plan.opportunity == o && plan.initialInput == initialInput && plan.dated
  }

  /** Buy on the buy chain, carry the base token over, sell on the sell chain and
      carry the proceeds back. */
  predicate TransportedPlaces(plan: Plan, o: Opportunity, buyChain: string, sellChain: string)
    requires |plan.stages| == 4 && 0 <= o.selected < |o.candidates|
  {
    var q := o.candidates[o.selected];
    && TradesAt(plan.stages[0], Buy, buyChain, o.buyMarket, q.buyIn.token, q.buyOut.token)
    && Crosses(plan.stages[1], BridgeBase, buyChain, sellChain, q.buyOut.token, q.sellIn.token)
    && TradesAt(plan.stages[2], Sell, sellChain, o.sellMarket, q.sellIn.token, q.sellOut.token)
    && Crosses(plan.stages[3], BridgeQuoteReturn, sellChain, buyChain, q.sellOut.token, q.buyIn.token)
  }

  lemma TransportedPlans(id: string, o: Opportunity, initialInput: Amount, buyChain: string, sellChain: string, dated: bool)
    ensures var plan := NewSequentialPlan(id, o, initialInput, buyChain, sellChain, dated);
            && (plan.Some? <==> Plannable(id, o, initialInput, buyChain, sellChain, dated))
            && (plan.Some? ==>
                  && TransportedShape(plan.value) && plan.value.circuitBreaker == [] && PlansFor(plan.value, id, o, initialInput)
                  && TransportedPlaces(plan.value, o, buyChain, sellChain))
  {
    if Plannable(id, o, initialInput, buyChain, sellChain, dated) {
      TransportedStagesOk(o.candidates[o.selected], o, buyChain, sellChain);
    }
    var plan := NewSequentialPlan(id, o, initialInput, buyChain, sellChain, dated);
    if plan.Some? {
      var all := AllStages(plan.value);
      assert StageOk(all[0]) && StageOk(all[2]);
    }
  }

  lemma TransportedStagesOk(q: Quotes, o: Opportunity, buyChain: string, sellChain: string)
    requires buyChain != "" && sellChain != "" && buyChain != sellChain && o.buyMarket != "" && o.sellMarket != ""
    requires q.buyIn.token != "" && q.buyOut.token != "" && q.sellIn.token != "" && q.sellOut.token != ""
    ensures var stages := TransportedStages(q, o, buyChain, sellChain);
            (forall i :: 0 <= i < 4 ==> StageOk(stages[i]) && stages[i].ordinal == i + 1) && DistinctOrdinals(stages)
  {
  }

  /** Whatever the plan, the return exit bridges back and sells, and ends in the
      starting token too. */
  lemma ReturnExitCloses(plan: Plan)
    requires TransportedShape(plan)
    ensures var back := ReturnExitStages(plan);
            && back.Some? && |back.value| == 2 && Chained(plan.stages[..2] + back.value, plan.initialInput.token)
            && back.value[0].ordinal == 3 && back.value[1].ordinal == 4
            && Crosses(back.value[0], BridgeBase, plan.stages[1].destinationChain, plan.stages[1].sourceChain,
                       plan.stages[1].outputToken, plan.stages[1].inputToken)
            && TradesAt(back.value[1], Sell, plan.stages[0].sourceChain, plan.stages[0].market,
                        plan.stages[0].outputToken, plan.stages[0].inputToken)
  {
    assert forall i :: 0 <= i < 4 ==> AllStages(plan)[i] == plan.stages[i];
    assert StageOk(plan.stages[0]) && StageOk(plan.stages[1]) by { assert StageOk(AllStages(plan)[0]) && StageOk(AllStages(plan)[1]); }
    var back := ReturnExitStages(plan).value;
    var all := plan.stages[..2] + back;
    assert all[0] == plan.stages[0] && all[1] == plan.stages[1] && all[2] == back[0] && all[3] == back[1];
  }

  /** A prefunded sequential plan: buy, sell, then both bridges; or buy and sell
      at the origin. */
  ghost predicate PrefundedShape(plan: Plan) {
    && PlanOk(plan) && plan.policy == PrefundedSequential
    && (forall i :: 0 <= i < 4 ==> plan.stages[i].ordinal == i + 1)
    && plan.stages[0].kind == Buy && plan.stages[1].kind == Sell
    && plan.stages[2].kind == BridgeBase && plan.stages[3].kind == BridgeQuoteReturn
    && plan.stages[0].inputFrom == 0 && plan.stages[0].dependsOn == []
    && plan.stages[1].inputFrom == 1 && plan.stages[2].inputFrom == 1 && plan.stages[3].inputFrom == 2
    && plan.circuitBreaker[0].ordinal == 5 && plan.circuitBreaker[0].kind == Sell && plan.circuitBreaker[0].inputFrom == 1
  }

  /** Buy on the buy chain, sell on the sell chain and carry both tokens back;
      the breaker sells where it was bought. */
  predicate PrefundedPlaces(plan: Plan, o: Opportunity, buyChain: string, sellChain: string)
    requires |plan.stages| == 4 && |plan.circuitBreaker| == 1 && 0 <= o.selected < |o.candidates|
  {
    var q := o.candidates[o.selected];
    && TradesAt(plan.stages[0], Buy, buyChain, o.buyMarket, q.buyIn.token, q.buyOut.token)
    && TradesAt(plan.stages[1], Sell, sellChain, o.sellMarket, q.sellIn.token, q.sellOut.token)
    && Crosses(plan.stages[2], BridgeBase, buyChain, sellChain, q.buyOut.token, q.sellIn.token)
    && Crosses(plan.stages[3], BridgeQuoteReturn, sellChain, buyChain, q.sellOut.token, q.buyIn.token)
    && TradesAt(plan.circuitBreaker[0], Sell, buyChain, o.buyMarket, q.buyOut.token, q.buyIn.token)
  }

  /** What each stage of a prefunded sequential plan waits for. */
  predicate PrefundedWaits(plan: Plan)
    requires |plan.stages| == 4 && |plan.circuitBreaker| == 1
  {
    && plan.stages[0].dependsOn == [] && plan.stages[1].dependsOn == [1]
    && plan.stages[2].dependsOn == [1, 2] && plan.stages[3].dependsOn == [2, 3] && plan.circuitBreaker[0].dependsOn == [1]
  }

  lemma PrefundedPlans(id: string, o: Opportunity, initialInput: Amount, buyChain: string, sellChain: string, dated: bool)
    ensures var plan := NewPrefundedSequentialPlan(id, o, initialInput, buyChain, sellChain, dated);
            && (plan.Some? <==> Plannable(id, o, initialInput, buyChain, sellChain, dated))
            && (plan.Some? ==>
                  && PrefundedShape(plan.value) && PrefundedWaits(plan.value) && PlansFor(plan.value, id, o, initialInput)
                  && PrefundedPlaces(plan.value, o, buyChain, sellChain))
  {
    TransportedPlans(id, o, initialInput, buyChain, sellChain, dated);
    if Plannable(id, o, initialInput, buyChain, sellChain, dated) {
      PrefundedStagesOk(o.candidates[o.selected], o, buyChain, sellChain);
    }
  }

  lemma PrefundedStagesOk(q: Quotes, o: Opportunity, buyChain: string, sellChain: string)
    requires buyChain != "" && sellChain != "" && buyChain != sellChain && o.buyMarket != "" && o.sellMarket != ""
    requires q.buyIn.token != "" && q.buyOut.token != "" && q.sellIn.token != "" && q.sellOut.token != ""
    ensures var stages := PrefundedStages(q, o, buyChain, sellChain) + BreakerStages(q, o, buyChain);
            (forall i :: 0 <= i < 5 ==> StageOk(stages[i]) && stages[i].ordinal == i + 1) && DistinctOrdinals(stages)
  {
  }

  /** Supplying the valuation metadata is all a parallel plan still needs; its
      legs wait for nothing, each bridge for its own leg. */
  lemma ParallelPlans(id: string, o: Opportunity, initialInput: Amount, buyChain: string, sellChain: string, dated: bool,
                      baseAsset: string, quoteAsset: string, decimals: map<string, nat>)
    requires baseAsset != "" && quoteAsset != "" && decimals != map[]
    ensures var plan := NewPrefundedParallelPlan(id, o, initialInput, buyChain, sellChain, dated);
            && (plan.Some? <==> Plannable(id, o, initialInput, buyChain, sellChain, dated))
            && (plan.Some? ==>
                  && PlanOk(plan.value.(baseAsset := baseAsset, quoteAsset := quoteAsset, decimals := decimals))
                  && plan.value.policy == PrefundedParallel && PlansFor(plan.value, id, o, initialInput)
                  && ParallelDependencies(plan.value) && |plan.value.circuitBreaker| == 1
                  && plan.value.circuitBreaker[0].ordinal == 5
                  && plan.value.circuitBreaker[0].inputFrom == 1 && plan.value.circuitBreaker[0].dependsOn == [1]
                  && PrefundedPlaces(plan.value, o, buyChain, sellChain))
  {
    PrefundedPlans(id, o, initialInput, buyChain, sellChain, dated);
    var sequential := NewPrefundedSequentialPlan(id, o, initialInput, buyChain, sellChain, dated);
    if sequential.Some? { IndependentOk(sequential.value, baseAsset, quoteAsset, decimals); }
  }

  lemma IndependentOk(plan: Plan, baseAsset: string, quoteAsset: string, decimals: map<string, nat>)
    requires PrefundedShape(plan) && baseAsset != "" && quoteAsset != "" && decimals != map[]
    ensures PlanOk(Independent(plan).(baseAsset := baseAsset, quoteAsset := quoteAsset, decimals := decimals))
  {
    var next := Independent(plan).(baseAsset := baseAsset, quoteAsset := quoteAsset, decimals := decimals);
    var before, after := AllStages(plan), AllStages(next);
    assert |before| == 5 && |after| == 5;
    forall i | 0 <= i < 5 ensures StageOk(after[i]) && after[i].ordinal == i + 1 { assert StageOk(before[i]); }
  }

  /** The fixed sale input is the discovery sale scaled to the execution size,
      rounded down. */
  lemma SellInputScales(plan: Plan)
    requires ParallelSellInput(plan).Some?
    ensures var q := plan.opportunity.candidates[plan.opportunity.selected];
            var units := ParallelSellInput(plan).value.units;
            units > 0 && units * q.buyIn.units <= q.sellIn.units * plan.initialInput.units < (units + 1) * q.buyIn.units
  {
  }
}
