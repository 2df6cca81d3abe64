// Validating a block as a transition system: each worker executes the transactions tagged
// for it, in block order and straight on the shared state, all workers at once; the master
// executes the orphans once every worker has reported.
module Validation {
  import opened Storage
  import opened TaintState
  import opened Program
  import opened Transactions
  import opened Protocol

  datatype Execution = Resting | Executing(tx: Transaction, steps: nat, prog: Prog)

  /** `told` is a report the master has not heard; `log` remembers what the worker has executed. */
  datatype Replayer = Replayer(inbox: seq<ToWorker>, execution: Execution, ended: bool, told: bool, log: seq<Body>)

  /** `heard` is an auxiliary record of whose reports have been counted. */
  datatype Checker = Checker(plan: seq<Send>, orphans: seq<Transaction>, workersDone: nat, closing: bool, played: nat,
                             heard: set<ThreadId>)

  datatype Check = Check(replayers: seq<Replayer>, state: StateMap, master: Checker, panicked: bool)

  datatype Event =
    | Distribute
    | Hear(from: ThreadId)
    | AllHeard
    | PlayOrphan
    | Take(worker: ThreadId)
    | OneAccess(worker: ThreadId)

  /** The orphans of a block, in its order. */
  function Orphans(block: seq<Transaction>): (r: seq<Transaction>)
    ensures forall t :: t in r ==> t in block && t.tag.OrphanTag?
  {
    if block == [] then []
    else
      var init, t := Orphans(block[..|block| - 1]), block[|block| - 1];
      if t.tag.OrphanTag? then init + [t] else init
  }

  /** The transactions of a block that some worker is to execute, in its order. */
  function Locals(block: seq<Transaction>): (r: seq<Transaction>)
    ensures forall t :: t in r ==> t in block && t.tag.DoneBy?
  {
    if block == [] then []
    else
      var init, t := Locals(block[..|block| - 1]), block[|block| - 1];
      if t.tag.DoneBy? then init + [t] else init
  }

  const NEW_REPLAYER := Replayer([], Resting, false, false, [])

  /** The task begins; a transaction that was never executed has no place in a block. */
  function BeginCheck(workers: nat, block: seq<Transaction>, state: StateMap): Check {
    Check(seq(workers, i => NEW_REPLAYER), state,
          Checker(Assignments(block) + Broadcast(workers, DistributionDone), Orphans(block), 0, false, 0, {}),
          exists i :: 0 <= i < |block| && block[i].tag.NotExecuted?)
  }

  predicate Possible(c: Check, e: Event) {
    !c.panicked &&
    match e
    case Distribute => c.master.plan != []
    case Hear(w) => c.master.plan == [] && !c.master.closing && w < |c.replayers| && c.replayers[w].told
    case AllHeard => c.master.plan == [] && !c.master.closing && c.master.workersDone == |c.replayers|
    case PlayOrphan => c.master.closing && c.master.played < |c.master.orphans|
    case Take(w) => w < |c.replayers| && c.replayers[w].execution.Resting? && !c.replayers[w].ended && c.replayers[w].inbox != []
    case OneAccess(w) => w < |c.replayers| && c.replayers[w].execution.Executing?
  }

  function SetReplayer(c: Check, w: ThreadId, v: Replayer): Check
    requires w < |c.replayers|
  {
    c.(replayers := c.replayers[w := v])
  }

  function Fail(c: Check): Check {
    c.(panicked := true)
  }

  function DoDistribute(c: Check): Check
    requires Possible(c, Distribute)
  {
    var Send(w, m) := c.master.plan[0];
    if w >= |c.replayers| then Fail(c)
    else
      var v := c.replayers[w];
      SetReplayer(c.(master := c.master.(plan := c.master.plan[1..])), w, v.(inbox := v.inbox + [m]))
  }

  function DoHear(c: Check, w: ThreadId): Check
    requires Possible(c, Hear(w))
  {
    SetReplayer(c.(master := c.master.(workersDone := c.master.workersDone + 1, heard := c.master.heard + {w})),
                 w, c.replayers[w].(told := false))
  }

  function DoTake(c: Check, w: ThreadId): Check
    requires Possible(c, Take(w))
  {
    var v := c.replayers[w];
    match v.inbox[0]
    case Assignment(t) =>
      SetReplayer(c, w, v.(inbox := v.inbox[1..], execution := Executing(t, t.body.call.steps, t.body.call.body)))
    case DistributionDone => SetReplayer(c, w, v.(inbox := v.inbox[1..], ended := true, told := true))
    case TaskDone => Fail(c)
  }

  /** One storage access of the sequential runtime, or the end of the call. Reads look through the taints, writes wipe them. */
  function DoOneAccess(c: Check, w: ThreadId): Check
    requires Possible(c, OneAccess(w))
  {
    var v := c.replayers[w];
    var Executing(t, n, p) := v.execution;
    match p
    case Done => SetReplayer(c, w, v.(execution := Resting, log := v.log + [t.body]))
    case LogicError(_) => SetReplayer(c, w, v.(execution := Resting, log := v.log + [t.body]))
    case Panic(_) => Fail(c)
    case Read(k, _, next) =>
      if n == 0 then Fail(c)
      else SetReplayer(c, w, v.(execution := Executing(t, n - 1, next(Get(Data(c.state), k)))))
    case Write(k, x, _, rest) =>
      if n == 0 then Fail(c)
      else SetReplayer(c.(state := c.state[k := Entry(x, None)]), w, v.(execution := Executing(t, n - 1, rest)))
  }

  function DoPlayOrphan(c: Check): Check
    requires Possible(c, PlayOrphan)
  {
    var call := c.master.orphans[c.master.played].body.call;
    var (outcome, state) := ExecState(call.steps, call.body, c.state);
    if outcome == Panicked then Fail(c)
    else c.(state := state, master := c.master.(played := c.master.played + 1))
  }

  function Happen(c: Check, e: Event): Check {
    if !Possible(c, e) then c
    else match e
      case Distribute => DoDistribute(c)
      case Hear(w) => DoHear(c, w)
      case AllHeard => c.(master := c.master.(closing := true))
      case PlayOrphan => DoPlayOrphan(c)
      case Take(w) => DoTake(c, w)
      case OneAccess(w) => DoOneAccess(c, w)
  }

  function HappenAll(c: Check, events: seq<Event>): Check {
    if events == [] then c
    else Happen(HappenAll(c, events[..|events| - 1]), events[|events| - 1])
  }

  /** The master has returned from `validate_block`. */
  predicate Validated(c: Check) {
    !c.panicked && c.master.closing && c.master.played == |c.master.orphans|
  }
}
