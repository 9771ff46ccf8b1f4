/** The executor of a dual-inventory plan: both legs at once, then both bridges.
    Its workers are joined before their results are read, so their answers come
    as values; a crash is where the journal takes nothing more. */
module ParallelExecutor {
  import opened Common
  import opened SequentialPlan
  import opened SagaJournal

  /** One settlement a swap driver brought back: of the buy or of the sale. */
  datatype Swap = Swap(sale: bool, actualIn: Amount, actualOut: Amount, proven: bool, write: Write)

  /** One bridge: its converted input, what the driver answered and the write. */
  datatype Bridge = Bridge(converted: Option<Amount>, driven: Driven, write: Write)

  /** Everything the environment answers. failure: the swaps' error, if any;
      detached: the quote bridge runs on by itself. */
  datatype Answers = Answers(
    swaps: seq<Swap>, failure: Option<Disposition>, base: Bridge, quote: Bridge,
    detached: bool, admitted: bool, accounted: bool, resultKept: bool, finishWrite: Write)

  /** The operation as it is updated, and its journal. */
  datatype Operation = Operation(state: OperationState, currentStage: int, currentAmount: Amount, journal: Journal)

  /** What a driver is asked to do. */
  datatype Request = Request(stage: Stage, input: Amount)

  function Start(plan: Plan): Operation { Operation(Running, 0, plan.initialInput, Empty) }

  function Finish(s: Operation, state: OperationState, a: Answers): Operation {
    s.(state := state, journal := RecordState(s.journal, state, a.finishWrite))
  }

  /** A settlement is checked, made durable, and moves the operation on unless it
      comes after a later one. */
  function Record(s: Operation, settlement: Settlement, proven: bool, write: Write): (Operation, bool) {
    if !SettlementOk(settlement.stage, settlement.input, settlement.actualIn, settlement.actualOut, proven) then (s, false)
    else
      var (journal, ok) := RecordSettlement(s.journal, settlement, write);
      if !ok then (s.(journal := journal), false)
      else if settlement.stage.ordinal >= s.currentStage then
        (s.(journal := journal, currentStage := settlement.stage.ordinal, currentAmount := settlement.actualOut), true)
      else (s.(journal := journal), true)
  }

  function SwapSettlement(plan: Plan, sellInput: Amount, swap: Swap): Settlement
    requires |plan.stages| == 4
  {
    if swap.sale then Settlement(plan.stages[1], sellInput, swap.actualIn, swap.actualOut)
    else Settlement(plan.stages[0], plan.initialInput, swap.actualIn, swap.actualOut)
  }

  /** All swap settlements in turn, up to the first that is refused. */
  function RecordSwaps(plan: Plan, sellInput: Amount, s: Operation, swaps: seq<Swap>): (Operation, bool)
    requires |plan.stages| == 4
  {
    if |swaps| == 0 then (s, true)
    else
      var (before, ok) := RecordSwaps(plan, sellInput, s, swaps[..|swaps| - 1]);
      if !ok then (before, false)
      else Record(before, SwapSettlement(plan, sellInput, swaps[|swaps| - 1]), swaps[|swaps| - 1].proven, swaps[|swaps| - 1].write)
  }

  function SwapOutputs(swaps: seq<Swap>): map<int, Amount> {
    if |swaps| == 0 then map[]
    else SwapOutputs(swaps[..|swaps| - 1])[if swaps[|swaps| - 1].sale then 2 else 1 := swaps[|swaps| - 1].actualOut]
  }

  /** A bridge's settlement, if its driver brought one. */
  function RecordBridge(s: Operation, stage: Stage, input: Amount, b: Bridge): (Operation, bool) {
    match b.driven
    case Failed(_, _, _, _) => (s, false)
    case Settled(actualIn, actualOut, proven) => Record(s, Settlement(stage, input, actualIn, actualOut), proven, b.write)
  }

  function Complete(s: Operation, a: Answers): Operation {
    if !a.accounted then Finish(s, Manual, a)
    else if !a.resultKept then s
    else Finish(s, Completed, a)
  }

  /** Both bridges; the quote bridge is not waited for when it is detached. */
  function Rebalance(plan: Plan, s: Operation, outputs: map<int, Amount>, a: Answers): Operation
    requires |plan.stages| == 4
  {
    var base := ResolveInput(plan, plan.stages[2], plan.initialInput, outputs, a.base.converted);
    var quote := ResolveInput(plan, plan.stages[3], plan.initialInput, outputs, a.quote.converted);
    if base.None? || quote.None? then s
    else if a.detached && !a.admitted then s
    else
      var (t, first) := RecordBridge(s, plan.stages[2], base.value, a.base);
      if a.detached then if first then Complete(t, a) else Finish(t, Manual, a)
      else
        var (u, second) := RecordBridge(t, plan.stages[3], quote.value, a.quote);
        if first && second then Complete(u, a) else Finish(u, Manual, a)
  }

  /** The whole run. */
  function Run(plan: Plan, a: Answers): Operation
    requires |plan.stages| == 4
  {
    var s := Start(plan);
    var sellInput := ParallelSellInput(plan);
    if sellInput.None? || !RequestOk(plan.stages[0], plan.initialInput) || !RequestOk(plan.stages[1], sellInput.value) then s
    else
      var (t, ok) := RecordSwaps(plan, sellInput.value, s, a.swaps);
      if !ok then Finish(t, Manual, a)
      else if a.failure.Some? then
        Finish(t, if |a.swaps| == 0 && Definitive(a.failure.value) then Aborted else Manual, a)
      else if |a.swaps| != 2 then t
      else Rebalance(plan, t, SwapOutputs(a.swaps), a)
  }

  predicate Starts(plan: Plan)
    requires |plan.stages| == 4
  {
    ParallelSellInput(plan).Some? && RequestOk(plan.stages[0], plan.initialInput) && RequestOk(plan.stages[1], ParallelSellInput(plan).value)
  }

  /** The requests both bridges are started with, if they are. */
  function BridgeRequests(plan: Plan, outputs: map<int, Amount>, a: Answers): seq<Request>
    requires |plan.stages| == 4
  {
    var base := ResolveInput(plan, plan.stages[2], plan.initialInput, outputs, a.base.converted);
    var quote := ResolveInput(plan, plan.stages[3], plan.initialInput, outputs, a.quote.converted);
    if base.None? || quote.None? || (a.detached && !a.admitted) then []
    else [Request(plan.stages[2], base.value), Request(plan.stages[3], quote.value)]
  }

  /** Everything the drivers are asked during the run. */
  function Requests(plan: Plan, a: Answers): seq<Request>
    requires |plan.stages| == 4
  {
    if !Starts(plan) then []
    else
      var sellInput := ParallelSellInput(plan).value;
      [Request(plan.stages[0], plan.initialInput), Request(plan.stages[1], sellInput)]
      + if RecordSwaps(plan, sellInput, Start(plan), a.swaps).1 && a.failure.None? && |a.swaps| == 2
        then BridgeRequests(plan, SwapOutputs(a.swaps), a) else []
  }

  class Executor {
    const plan: Plan
    var state: OperationState
    var currentStage: int
    var currentAmount: Amount
    var journal: Journal
    var requests: seq<Request>

    ghost function View(): Operation
      reads this
    {
      Operation(state, currentStage, currentAmount, journal)
    }

    constructor (plan: Plan)
      ensures this.plan == plan && View() == Start(plan) && requests == []
    {
      this.plan := plan;
      state, currentStage, currentAmount, journal, requests := Running, 0, plan.initialInput, Empty, [];
    }

    method Stop(outcome: OperationState, a: Answers)
      modifies this`state, this`currentStage, this`currentAmount, this`journal
      ensures View() == Finish(old(View()), outcome, a)
    {
      state := outcome;
      journal := RecordState(journal, outcome, a.finishWrite);
    }

    method RecordParallelSettlement(settlement: Settlement, proven: bool, write: Write) returns (ok: bool)
      modifies this`state, this`currentStage, this`currentAmount, this`journal
      ensures (View(), ok) == Record(old(View()), settlement, proven, write)
    {
      if !SettlementOk(settlement.stage, settlement.input, settlement.actualIn, settlement.actualOut, proven) { return false; }
      var (written, recorded) := RecordSettlement(journal, settlement, write);
      journal := written;
      if !recorded { return false; }
      if settlement.stage.ordinal >= currentStage {
        currentStage := settlement.stage.ordinal;
        currentAmount := settlement.actualOut;
      }
      ok := true;
    }

    method RecordAll(sellInput: Amount, swaps: seq<Swap>) returns (ok: bool, outputs: map<int, Amount>)
      requires |plan.stages| == 4
      modifies this`state, this`currentStage, this`currentAmount, this`journal
      ensures (View(), ok) == RecordSwaps(plan, sellInput, old(View()), swaps)
      ensures ok ==> outputs == SwapOutputs(swaps)
    {
      outputs := map[];
      ghost var s, before := View(), View();
      for i := 0 to |swaps|
        invariant View() == s && RecordSwaps(plan, sellInput, before, swaps[..i]) == (s, true)
        invariant outputs == SwapOutputs(swaps[..i])
      {
        assert swaps[..i + 1][..i] == swaps[..i];
        var settlement := SwapSettlement(plan, sellInput, swaps[i]);
        ok := RecordParallelSettlement(settlement, swaps[i].proven, swaps[i].write);
        s := Record(s, settlement, swaps[i].proven, swaps[i].write).0;
        if !ok { RefusedAt(plan, sellInput, before, swaps, i); return; }
        outputs := outputs[if swaps[i].sale then 2 else 1 := swaps[i].actualOut];
      }
      assert swaps[..|swaps|] == swaps;
      ok := true;
    }

    method Bridges(outputs: map<int, Amount>, a: Answers)
      requires |plan.stages| == 4
      modifies this
      ensures View() == Rebalance(plan, old(View()), outputs, a)
      ensures requests == old(requests) + BridgeRequests(plan, outputs, a)
    {
      var base := ResolveInput(plan, plan.stages[2], plan.initialInput, outputs, a.base.converted);
      var quote := ResolveInput(plan, plan.stages[3], plan.initialInput, outputs, a.quote.converted);
      if base.None? || quote.None? || (a.detached && !a.admitted) { return; }
      requests := requests + [Request(plan.stages[2], base.value), Request(plan.stages[3], quote.value)];
      var first := BridgeOver(plan.stages[2], base.value, a.base);
      var second := true;
      if !a.detached { second := BridgeOver(plan.stages[3], quote.value, a.quote); }
      if !first || !second || !a.accounted { Stop(Manual, a); return; }
      if a.resultKept { Stop(Completed, a); }
    }

    method BridgeOver(stage: Stage, input: Amount, b: Bridge) returns (ok: bool)
      modifies this`state, this`currentStage, this`currentAmount, this`journal
      ensures (View(), ok) == RecordBridge(old(View()), stage, input, b)
    {
      match b.driven
      case Failed(_, _, _, _) => ok := false;
      case Settled(actualIn, actualOut, proven) => ok := RecordParallelSettlement(Settlement(stage, input, actualIn, actualOut), proven, b.write);
    }

    method Execute(a: Answers)
      requires |plan.stages| == 4 && View() == Start(plan) && requests == []
      modifies this
      ensures View() == Run(plan, a) && requests == Requests(plan, a)
    {
      var sellInput := ParallelSellInput(plan);
      if sellInput.None? || !RequestOk(plan.stages[0], plan.initialInput) || !RequestOk(plan.stages[1], sellInput.value) { return; }
      requests := [Request(plan.stages[0], plan.initialInput), Request(plan.stages[1], sellInput.value)];
      var ok, outputs := RecordAll(sellInput.value, a.swaps);
      if !ok { Stop(Manual, a); return; }
      if a.failure.Some? {
        Stop(if |a.swaps| == 0 && Definitive(a.failure.value) then Aborted else Manual, a);
        return;
      }
      if |a.swaps| == 2 { Bridges(outputs, a); }
    }
  }

  /** Nothing is recorded after the first refusal. */
  lemma {:induction false} RefusedAt(plan: Plan, sellInput: Amount, s: Operation, swaps: seq<Swap>, i: nat)
    requires |plan.stages| == 4 && i < |swaps| && !RecordSwaps(plan, sellInput, s, swaps[..i + 1]).1
    ensures RecordSwaps(plan, sellInput, s, swaps) == RecordSwaps(plan, sellInput, s, swaps[..i + 1])
  {
    if i + 1 == |swaps| {
      assert swaps[..i + 1] == swaps;
    } else {
      var shorter := swaps[..|swaps| - 1];
      assert shorter[..i + 1] == swaps[..i + 1];
      RefusedAt(plan, sellInput, s, shorter, i);
    }
  }
}
