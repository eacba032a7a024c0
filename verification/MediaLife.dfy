/** The lives of media sessions, bindings and operations: what holds between any two moments of any
    sequence of lawful moves. */
module MediaLife {
  import opened Wrappers
  import opened Media
  import Operations

  // ---------------------------------------------------------------- sessions

  /** The public operations of a session; `Stopping` is reached by `Quit` and `Stop` only. */
  datatype SessionMove = GoTo(next: SessionState) | Quit | Stop | Cancel | Bump

  function AfterMove(s: Session, m: SessionMove): Option<Session> {
    match m
    case GoTo(next) => if next.Stopping? then None else s.To(next)
    case Quit => s.Quit()
    case Stop => s.Stop()
    case Cancel => s.(desired := WantStopped).To(Stopped)
    case Bump => s.BumpGeneration()
  }

  ghost predicate SessionStepAt(ss: seq<Session>, ms: seq<SessionMove>, i: nat)
    requires |ss| == |ms| + 1 && i < |ms|
  {
    AfterMove(ss[i], ms[i]) == Some(ss[i + 1])
  }

  ghost predicate SessionHistory(ss: seq<Session>, ms: seq<SessionMove>) {
    |ss| == |ms| + 1 && forall i: nat | i < |ms| :: SessionStepAt(ss, ms, i)
  }

  /** How far a session has come. */
  function Stage(state: SessionState): (n: nat)
    ensures n <= 5 && (n == 5 <==> state.Terminal())
  {
    match state
    case Requested => 0
    case Allocating => 1
    case Inviting => 2
    case Active => 3
    case Stopping => 4
    case _ => 5
  }

  function Bumps(ms: seq<SessionMove>, i: nat, j: nat): (n: nat)
    requires i <= j <= |ms|
    ensures n <= j - i
  {
    if i == j then 0 else Bumps(ms, i, j - 1) + if ms[j - 1].Bump? then 1 else 0
  }

  /** Between any two moments of a session's life every move took one revision, generations count the
      bumps, every other move went at least one stage further, so that there are at most five of them,
      nothing follows the end, and the wish to stop is recorded before stopping and never withdrawn. */
  lemma {:induction false} SessionLife(ss: seq<Session>, ms: seq<SessionMove>, i: nat, j: nat)
    requires SessionHistory(ss, ms) && i <= j <= |ms|
    ensures ss[j].revision == ss[i].revision + (j - i)
    ensures ss[j].generation == ss[i].generation + Bumps(ms, i, j) && ss[j].ownerEpoch == ss[i].ownerEpoch
    ensures Stage(ss[i].state) + (j - i) - Bumps(ms, i, j) <= Stage(ss[j].state) <= 5
    ensures ss[i].state.Terminal() ==> j == i
    ensures ss[i].desired == WantStopped ==> ss[j].desired == WantStopped
    ensures ss[i].Sound() ==> ss[j].Sound()
    decreases j
  {
    if i < j {
      SessionLife(ss, ms, i, j - 1);
      assert SessionStepAt(ss, ms, j - 1);
    }
  }

  // ---------------------------------------------------------------- bindings

  datatype BindingMove = BindingMove(next: BindingState, at: nat)

  ghost predicate BindingStepAt(bs: seq<Binding>, ms: seq<BindingMove>, i: nat)
    requires |bs| == |ms| + 1 && i < |ms|
  {
    bs[i].To(ms[i].next, ms[i].at) == Some(bs[i + 1])
  }

  ghost predicate BindingHistory(bs: seq<Binding>, ms: seq<BindingMove>) {
    |bs| == |ms| + 1 && forall i: nat | i < |ms| :: BindingStepAt(bs, ms, i)
  }

  /** Reserved, in use, being released, over. */
  function Era(state: BindingState): nat {
    match state
    case Reserved => 0
    case Bound => 1
    case NeedsVerification => 1
    case Releasing => 2
    case _ => 3
  }

  ghost predicate ReleasingWithin(bs: seq<Binding>, i: nat, j: nat) {
    exists k :: i <= k < j < |bs| && bs[k].state.Releasing?
  }

  /** Between any two moments of a binding's life every move took one revision and left session, node
      and epochs alone, the last move dates the binding, it never goes back to an earlier era, nothing
      follows the end, and it is released only after it was being released. */
  lemma {:induction false} BindingLife(bs: seq<Binding>, ms: seq<BindingMove>, i: nat, j: nat)
    requires BindingHistory(bs, ms) && i <= j <= |ms|
    ensures bs[j] == bs[i].(state := bs[j].state, revision := bs[i].revision + (j - i), updatedAt := bs[j].updatedAt)
    ensures i < j ==> bs[j].updatedAt == ms[j - 1].at
    ensures Era(bs[i].state) <= Era(bs[j].state)
    ensures bs[i].state.Releasing? && i < j ==> j == i + 1 && bs[j].state.Terminal()
    ensures bs[i].state.Terminal() ==> j == i
    ensures i < j && bs[j].state.Released? ==> ReleasingWithin(bs, i, j)
    decreases j
  {
    if i < j {
      BindingLife(bs, ms, i, j - 1);
      assert BindingStepAt(bs, ms, j - 1);
    }
  }

  // ---------------------------------------------------------------- operations

  datatype TaskMove = Begin | End(success: bool)

  ghost predicate TaskStepAt(ts: seq<Task>, ms: seq<TaskMove>, i: nat)
    requires |ts| == |ms| + 1 && i < |ms|
  {
    (match ms[i] case Begin => ts[i].Start() case End(success) => ts[i].Complete(success)) == Some(ts[i + 1])
  }

  ghost predicate TaskHistory(ts: seq<Task>, ms: seq<TaskMove>) {
    |ts| == |ms| + 1 && forall i: nat | i < |ms| :: TaskStepAt(ts, ms, i)
  }

  /** What the media service does to an operation is to begin it and to end it, each at most once and
      in this order, and its outcome is that of the end. */
  lemma TaskLife(ts: seq<Task>, ms: seq<TaskMove>)
    requires TaskHistory(ts, ms) && ts[0].status.Pending?
    ensures |ms| <= 2 && ts[|ms|].revision == ts[0].revision + |ms|
    ensures |ms| >= 1 ==> ms[0].Begin? && ts[1].status == Operations.Running
    ensures |ms| == 2 ==>
      ms[1].End? && ts[2].status == if ms[1].success then Operations.Succeeded else Operations.Failed
  {
    if |ms| >= 1 {
      assert TaskStepAt(ts, ms, 0);
      if |ms| >= 2 {
        assert TaskStepAt(ts, ms, 1);
        assert |ms| == 2 || TaskStepAt(ts, ms, 2);
      }
    }
  }
}
