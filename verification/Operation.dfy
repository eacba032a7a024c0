/** The operation aggregate: the part of its lifecycle that dispatching reads and writes, and the
    revision guard every repository puts on `save`. */
module Operations {
  import opened Wrappers

  datatype Status = Pending | Running | Succeeded | Failed | Cancelled | TimedOut {
    predicate Terminal() { this !in {Pending, Running} }
  }

  datatype AttemptStatus = Unsent | Sent | Acked | Nacked | Expired | DeadLettered

  datatype Attempt = Attempt(id: nat, status: AttemptStatus)

  datatype Step = Step(id: nat, attempts: seq<Attempt>)

  /** `stepId` is the command's step id, or its command id when it has none. */
  datatype Operation = Operation(
    status: Status,
    stepId: nat,
    steps: seq<Step>,
    expectedEpoch: nat,
    revision: nat)

  /** Every store accepts a row whose revision is one above the stored one and nothing else. */
  predicate Accepts(stored: Operation, candidate: Operation) {
    candidate.revision == stored.revision + 1
  }

  /** Position of the first step named `id`, or |steps|. */
  function StepIndex(steps: seq<Step>, id: nat): (i: nat)
    ensures i <= |steps|
    ensures i < |steps| ==> steps[i].id == id
    ensures forall j | 0 <= j < i :: steps[j].id != id
  {
    if steps == [] || steps[0].id == id then 0 else 1 + StepIndex(steps[1..], id)
  }

  predicate HasStep(op: Operation) { StepIndex(op.steps, op.stepId) < |op.steps| }

  /** The attempts of the step the command belongs to. */
  function Attempts(op: Operation): (a: seq<Attempt>) {
    if HasStep(op) then op.steps[StepIndex(op.steps, op.stepId)].attempts else []
  }

  function WithAttempts(op: Operation, attempts: seq<Attempt>): (r: Operation)
    requires HasStep(op)
    ensures HasStep(r) && Attempts(r) == attempts
    ensures r == op.(steps := r.steps)
  {
    var i := StepIndex(op.steps, op.stepId);
    var r := op.(steps := op.steps[i := op.steps[i].(attempts := attempts)]);
    assert StepIndex(r.steps, r.stepId) == i by {
      var j := StepIndex(r.steps, r.stepId);
      assert r.steps[i].id == op.stepId;
    }
    r
  }

  predicate HasSentOrAcked(op: Operation) {
    exists k | 0 <= k < |Attempts(op)| :: Attempts(op)[k].status in {Sent, Acked}
  }

  predicate HasUnsent(op: Operation) {
    exists k | 0 <= k < |Attempts(op)| :: Attempts(op)[k].status == Unsent
  }

  /** The id of the last unsent attempt. */
  function FindUnsent(attempts: seq<Attempt>): (r: Option<nat>)
    ensures r.Some? ==> Attempt(r.value, Unsent) in attempts
    ensures r.None? ==> forall k | 0 <= k < |attempts| :: attempts[k].status != Unsent
  {
    if attempts == [] then None
    else if attempts[|attempts| - 1].status == Unsent then Some(attempts[|attempts| - 1].id)
    else FindUnsent(attempts[..|attempts| - 1])
  }

  function IndexOfAttempt(attempts: seq<Attempt>, id: nat): (i: nat)
    ensures i <= |attempts|
    ensures i < |attempts| ==> attempts[i].id == id
    ensures forall j | 0 <= j < i :: attempts[j].id != id
  {
    if attempts == [] || attempts[0].id == id then 0 else 1 + IndexOfAttempt(attempts[1..], id)
  }

  function Start(op: Operation): (r: Option<Operation>)
    ensures r.Some? <==> op.status == Pending
    ensures r.Some? ==> r.value.status == Running && Attempts(r.value) == Attempts(op)
    ensures r.Some? ==> Accepts(op, r.value) && r.value.stepId == op.stepId
  {
    if op.status != Pending then None
    else
      var steps := if op.steps == [] then [Step(op.stepId, [])] else op.steps;
      Some(op.(status := Running, steps := steps, revision := op.revision + 1))
  }

  function RecordAttempt(op: Operation, id: nat): (r: Option<Operation>)
    ensures r.Some? <==> HasStep(op)
    ensures r.Some? ==> Attempts(r.value) == Attempts(op) + [Attempt(id, Unsent)]
    ensures r.Some? ==> Accepts(op, r.value) && r.value == op.(steps := r.value.steps, revision := r.value.revision)
  {
    if !HasStep(op) then None
    else
      var marked := WithAttempts(op, Attempts(op) + [Attempt(id, Unsent)]);
      assert StepIndex(marked.(revision := op.revision + 1).steps, op.stepId) < |marked.steps|;
      Some(marked.(revision := op.revision + 1))
  }

  /** Sets the status of the first attempt named `id`. */
  function MarkAttempt(op: Operation, id: nat, status: AttemptStatus): (r: Option<Operation>)
    ensures r.Some? <==> HasStep(op) && IndexOfAttempt(Attempts(op), id) < |Attempts(op)|
    ensures r.Some? ==>
      Attempts(r.value) == Attempts(op)[IndexOfAttempt(Attempts(op), id) := Attempt(id, status)]
    ensures r.Some? ==> Accepts(op, r.value) && r.value == op.(steps := r.value.steps, revision := r.value.revision)
  {
    var i := IndexOfAttempt(Attempts(op), id);
    if !HasStep(op) || i == |Attempts(op)| then None
    else
      var marked := WithAttempts(op, Attempts(op)[i := Attempt(id, status)]);
      assert StepIndex(marked.(revision := op.revision + 1).steps, op.stepId) < |marked.steps|;
      Some(marked.(revision := op.revision + 1))
  }

  function Fail(op: Operation): (r: Option<Operation>)
    ensures r.Some? <==> op.status == Running
    ensures r.Some? ==> r.value.status == Failed && Attempts(r.value) == Attempts(op)
    ensures r.Some? ==> Accepts(op, r.value) && r.value.stepId == op.stepId
  {
    if op.status != Running then None
    else Some(op.(status := Failed, revision := op.revision + 1))
  }
}
