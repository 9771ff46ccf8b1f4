/** What the sequential executor and its recovery share: driver answers, the
    durable journal and the rules both apply to them. */
module SagaJournal {
  import opened Common
  import opened SequentialPlan

  /** How a journal write went. Reported means that it is durable although an
      error came back. */
  datatype Write = Written | Lost | Reported

  datatype Disposition = Rejected | ConfirmedFailure | Possible

  /** Whether a failed stage had costs and whether they could be persisted. */
  datatype Costs = NoCosts | CostsRecorded | CostsNotRecorded

  datatype FailureKind = Temporary | InsufficientNative | Uncertain | Allowance | Signer | Configuration

  /** What a stage driver came back with. proven stands for the identities and
      evidence of a settlement, cancelled for a process that shuts down. */
  datatype Driven =
    | Settled(actualIn: Amount, actualOut: Amount, proven: bool)
    | Failed(disposition: Disposition, costs: Costs, kind: FailureKind, cancelled: bool)

  /** What an exit selector came back with; complete stands for the evidence. */
  datatype Decision = Decision(route: Route, complete: bool)

  /** A driver's settlement carries the request it was given. */
  datatype Settlement = Settlement(stage: Stage, input: Amount, actualIn: Amount, actualOut: Amount)

  datatype OperationState = Running | Completed | Aborted | Manual | Blocked

  datatype Journal = Journal(settlements: seq<Settlement>, decision: Option<Route>, state: OperationState)

  /** One driver call. */
  datatype Call = Call(stage: Stage, input: Amount, outcome: Driven)

  const Empty := Journal([], None, Running)

  predicate Definitive(d: Disposition) { d == Rejected || d == ConfirmedFailure }

  predicate RequestOk(stage: Stage, input: Amount) {
    StageOk(stage) && input.units != 0 && input.token == stage.inputToken
  }

  predicate SettlementOk(stage: Stage, input: Amount, actualIn: Amount, actualOut: Amount, proven: bool) {
    && RequestOk(stage, input) && proven
    && actualIn.units != 0 && actualIn.token == stage.inputToken
    && actualOut.units != 0 && actualOut.token == stage.outputToken
  }

  /** The ordinals that are durably settled, in order. */
  function Ordinals(settlements: seq<Settlement>): (r: seq<int>)
    ensures |r| == |settlements| && forall i :: 0 <= i < |r| ==> r[i] == settlements[i].stage.ordinal
  {
    seq(|settlements|, i requires 0 <= i < |settlements| => settlements[i].stage.ordinal)
  }

  function StageOrdinals(stages: seq<Stage>): (r: seq<int>)
    ensures |r| == |stages| && forall i :: 0 <= i < |r| ==> r[i] == stages[i].ordinal
  {
    seq(|stages|, i requires 0 <= i < |stages| => stages[i].ordinal)
  }

  /** A settlement reaches the journal; the caller learns whether it may go on. */
  function RecordSettlement(j: Journal, settlement: Settlement, write: Write): (Journal, bool) {
    (if write == Lost then j else j.(settlements := j.settlements + [settlement]), write == Written)
  }

  /** An exit decision reaches the journal if it is complete. */
  function RecordDecision(j: Journal, decision: Option<Decision>, write: Write): (Journal, bool) {
    if decision.None? || !decision.value.complete then (j, false)
    else (if write == Lost then j else j.(decision := Some(decision.value.route)), write == Written)
  }

  function RecordState(j: Journal, state: OperationState, write: Write): Journal {
    if write == Lost then j else j.(state := state)
  }

  /** The input of a stage: the predecessor's output where the stage refers to
      no settlement, otherwise the settlement it refers to; converted to the
      stage's own token where the tokens differ. */
  function ResolveInput(plan: Plan, stage: Stage, current: Amount, outputs: map<int, Amount>, converted: Option<Amount>): Option<Amount> {
    if exists i :: 0 <= i < |stage.dependsOn| && stage.dependsOn[i] !in outputs then None
    else
      var input := if stage.inputFrom == 0 && stage.ordinal > 1 then Some(current) else InputFor(plan, stage, outputs);
      if input.None? || input.value.token == stage.inputToken then input else converted
  }

  function Take<T>(s: seq<T>, n: nat): seq<T> { if n <= |s| then s[..n] else s }

  function Drop<T>(s: seq<T>, n: nat): seq<T> { if n <= |s| then s[n..] else [] }
}
