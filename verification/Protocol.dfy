// The authoring task as a transition system: a master, its workers, the queues between
// them and the shared state. A label names what happens next; a label that cannot happen
// (an empty queue, a busy worker) leaves the system as it is, so a schedule is any
// sequence of labels.
module Protocol {
  import opened Storage
  import opened TaintState
  import opened Program
  import opened Dispatch
  import opened Transactions

  datatype ToWorker = Assignment(tx: Transaction) | DistributionDone | TaskDone

  datatype ToMaster =
    | AuthoringReport(executed: nat, forwarded: nat)
    | WorkerExecuted(id: nat)
    | WorkerOrphan(id: nat)

  datatype Phase = Depleting | Serving | Stopped

  /**
    A worker's queues and counters. `others` is taken from in any order, which covers every
    order the senders can produce; `outbox` is what it has sent to the master, in order.
    `log` remembers what it has executed.
   */
  datatype Port = Port(inbox: seq<ToWorker>, others: seq<Transaction>, outbox: seq<ToMaster>,
                       phase: Phase, executed: nat, forwarded: nat, log: seq<Body>)

  datatype Job = Idle | Busy(tx: Transaction, stage: Stage)

  datatype Worker = Worker(port: Port, job: Job)

  datatype Send = Send(to: ThreadId, message: ToWorker)

  /** `plan` is what the master is about to send; `played` counts the orphans it has executed. */
  datatype Master = Master(closing: bool, plan: seq<Send>, pool: seq<Transaction>, orphans: seq<Transaction>,
                           executedWorkers: nat, executedLocal: nat, forwarded: nat, reported: nat, played: nat)

  /** Where a transaction has got to. */
  datatype Fate =
    | Fresh
    | Local
    | Travelling(to: ThreadId)
    | ExecutedBy(worker: ThreadId)
    | OrphanBy(worker: ThreadId)
    | Moved(owner: ThreadId)
    | Orphaned

  /** Auxiliary record of the run: no step depends on it. */
  datatype History = History(fates: map<nat, Fate>, moved: seq<Transaction>, heard: set<ThreadId>)

  datatype Sys = Sys(workers: seq<Worker>, state: StateMap, master: Master, history: History, panicked: bool)

  /** A task: the tagged pool, the number of workers (their ids are 0, 1, ...) and the state it starts from. */
  datatype Task = Task(workers: nat, pool: seq<Transaction>, initial: StateMap)

  datatype Label =
    | MasterSend
    | MasterReceive(from: ThreadId)
    | MasterBreak
    | MasterOrphan
    | Receive(worker: ThreadId)
    | ReceiveOther(worker: ThreadId, index: nat)
    | Access(worker: ThreadId)
    | CommitKey(worker: ThreadId, key: Key)
    | Settle(worker: ThreadId)

  // ---------------------------------------------------------------------------
  // The start of a task.

  function Assignments(txs: seq<Transaction>): seq<Send> {
    if txs == [] then []
    else
      var init, t := Assignments(txs[..|txs| - 1]), txs[|txs| - 1];
      match t.tag
      case DoneBy(w) => init + [Send(w, Assignment(t))]
      case _ => init
  }

  function Broadcast(workers: nat, m: ToWorker): seq<Send> {
    seq(workers, i requires 0 <= i => Send(i, m))
  }

  function FreshFates(txs: seq<Transaction>): map<nat, Fate> {
    map i | i in Ids(txs) :: Fresh
  }

  const NEW_PORT := Port([], [], [], Depleting, 0, 0, [])

  function Init(task: Task): Sys {
    Sys(seq(task.workers, i => Worker(NEW_PORT, Idle)), task.initial,
        Master(false, Assignments(task.pool) + Broadcast(task.workers, DistributionDone), task.pool, [], 0, 0, 0, 0, 0),
        History(FreshFates(task.pool), [], {}), false)
  }

  // ---------------------------------------------------------------------------
  // The steps.

  function Panics(s: Sys): Sys {
    s.(panicked := true)
  }

  function SetPort(s: Sys, w: ThreadId, p: Port): Sys
    requires w < |s.workers|
  {
    s.(workers := s.workers[w := s.workers[w].(port := p)])
  }

  function SetJob(s: Sys, w: ThreadId, j: Job): Sys
    requires w < |s.workers|
  {
    s.(workers := s.workers[w := s.workers[w].(job := j)])
  }

  function SetFate(s: Sys, id: nat, f: Fate): Sys {
    s.(history := s.history.(fates := s.history.fates[id := f]))
  }

  predicate BreakCondition(s: Sys) {
    s.master.reported == |s.workers| &&
    s.master.forwarded == s.master.executedLocal + |s.master.orphans|
  }

  predicate Ready(s: Sys, l: Label) {
    !s.panicked &&
    match l
    case MasterSend => s.master.plan != []
    case MasterReceive(w) =>
      !s.master.closing && s.master.plan == [] && w < |s.workers| && s.workers[w].port.outbox != []
    case MasterBreak => !s.master.closing && s.master.plan == [] && BreakCondition(s)
    case MasterOrphan => s.master.closing && s.master.plan == [] && s.master.played < |s.master.orphans|
    case Receive(w) =>
      w < |s.workers| && s.workers[w].job.Idle? && s.workers[w].port.inbox != [] && !s.workers[w].port.phase.Stopped?
    case ReceiveOther(w, i) =>
      w < |s.workers| && s.workers[w].job.Idle? && s.workers[w].port.phase.Serving? && i < |s.workers[w].port.others|
    case Access(w) => w < |s.workers| && s.workers[w].job.Busy? && s.workers[w].job.stage.Running?
    case CommitKey(w, k) =>
      w < |s.workers| && s.workers[w].job.Busy? && s.workers[w].job.stage.Committing? && k in s.workers[w].job.stage.rest
    case Settle(w) =>
      w < |s.workers| && s.workers[w].job.Busy? &&
      (s.workers[w].job.stage.Tainted? ||
       (s.workers[w].job.stage.Committing? && s.workers[w].job.stage.rest == map[]))
  }

  function Apply(s: Sys, l: Label): Sys {
    if !Ready(s, l) then s
    else match l
      case MasterSend => DoSend(s)
      case MasterReceive(w) => DoMasterReceive(s, w)
      case MasterBreak =>
        s.(master := s.master.(closing := true, plan := Broadcast(|s.workers|, TaskDone)))
      case MasterOrphan => DoOrphan(s)
      case Receive(w) => DoReceive(s, w)
      case ReceiveOther(w, i) => DoReceiveOther(s, w, i)
      case Access(w) => DoAccess(s, w)
      case CommitKey(w, k) => DoCommit(s, w, k)
      case Settle(w) => DoSettle(s, w)
  }

  function DoSend(s: Sys): Sys
    requires Ready(s, MasterSend)
  {
    var Send(w, m) := s.master.plan[0];
    if w >= |s.workers| then Panics(s)
    else
      var p := s.workers[w].port;
      SetPort(s.(master := s.master.(plan := s.master.plan[1..])), w, p.(inbox := p.inbox + [m]))
  }

  /** The master takes the next message of worker `w` in its collection loop. */
  function DoMasterReceive(s: Sys, w: ThreadId): Sys
    requires Ready(s, MasterReceive(w))
  {
    var p := s.workers[w].port;
    var s1 := SetPort(s, w, p.(outbox := p.outbox[1..]));
    match p.outbox[0]
    case AuthoringReport(e, f) => HearReport(s1, w, e, f)
    case WorkerOrphan(id) => HearOrphan(s1, id)
    case WorkerExecuted(id) => HearExecuted(s1, w, id)
  }

  function HearReport(s: Sys, w: ThreadId, e: nat, f: nat): Sys {
    var m := s.master;
    s.(master := m.(executedWorkers := m.executedWorkers + e, forwarded := m.forwarded + f, reported := m.reported + 1),
       history := s.history.(heard := s.history.heard + {w}))
  }

  function HearOrphan(s: Sys, id: nat): Sys {
    var m := s.master;
    var i := Position(m.pool, id);
    if i == |m.pool| then Panics(s)
    else
      SetFate(s.(master := m.(pool := Without(m.pool, i),
                              orphans := m.orphans + [m.pool[i].(tag := OrphanTag)])), id, Orphaned)
  }

  /** The transaction goes to the end of the pool, tagged with the worker that executed it. */
  function HearExecuted(s: Sys, w: ThreadId, id: nat): Sys {
    var m := s.master;
    var i := Position(m.pool, id);
    if i == |m.pool| || !m.pool[i].tag.DoneBy? || m.pool[i].tag.worker == w then Panics(s)
    else
      var t := m.pool[i].(tag := DoneBy(w));
      var s1 := SetFate(s.(master := m.(pool := Without(m.pool, i) + [t], executedLocal := m.executedLocal + 1)),
                        id, Moved(w));
      s1.(history := s1.history.(moved := s1.history.moved + [t]))
  }

  /** The master's runtime executes an orphan: sequentially, straight on the state, wiping the taints of what it writes. */
  function ExecState(n: nat, p: Prog, s: StateMap): (r: (Outcome, StateMap))
    ensures r.0 == Exec(n, p, Data(s)).outcome && Data(r.1) == Exec(n, p, Data(s)).store
    decreases n
  {
    match p
    case Done => (Success, s)
    case LogicError(why) => (Failure(why), s)
    case Panic(_) => (Panicked, s)
    case Read(k, _, next) => if n == 0 then (Panicked, s) else ExecState(n - 1, next(Get(Data(s), k)), s)
    case Write(k, v, _, rest) =>
      if n == 0 then (Panicked, s)
      else
        assert Data(s[k := Entry(v, None)]) == Data(s)[k := v];
        ExecState(n - 1, rest, s[k := Entry(v, None)])
  }

  function DoOrphan(s: Sys): Sys
    requires Ready(s, MasterOrphan)
  {
    var c := s.master.orphans[s.master.played].body.call;
    var (outcome, state) := ExecState(c.steps, c.body, s.state);
    if outcome == Panicked then Panics(s)
    else s.(state := state, master := s.master.(played := s.master.played + 1))
  }

  function DoReceive(s: Sys, w: ThreadId): Sys
    requires Ready(s, Receive(w))
  {
    var p := s.workers[w].port;
    var s1 := SetPort(s, w, p.(inbox := p.inbox[1..]));
    match p.phase
    case Depleting => (
      match p.inbox[0]
      case Assignment(tx) => SetJob(s1, w, Busy(tx, Start(tx.body.call)))
      case DistributionDone =>
        SetPort(s, w, p.(inbox := p.inbox[1..], phase := Serving,
                         outbox := p.outbox + [AuthoringReport(p.executed, p.forwarded)]))
      case TaskDone => Panics(s))
    case Serving => (
      match p.inbox[0]
      case TaskDone => SetPort(s, w, p.(inbox := p.inbox[1..], phase := Stopped))
      case _ => Panics(s))
    case Stopped => s
  }

  function DoReceiveOther(s: Sys, w: ThreadId, i: nat): Sys
    requires Ready(s, ReceiveOther(w, i))
  {
    var p := s.workers[w].port;
    var tx := p.others[i].(status := Forwarded);
    SetJob(SetPort(s, w, p.(others := Without(p.others, i))), w, Busy(tx, Start(tx.body.call)))
  }

  function DoAccess(s: Sys, w: ThreadId): Sys
    requires Ready(s, Access(w))
  {
    var Busy(tx, stage) := s.workers[w].job;
    match Advance(stage, s.state, w)
    case Crash => Panics(s)
    case Move(stage', state') => SetJob(s.(state := state'), w, Busy(tx, stage'))
  }

  function DoCommit(s: Sys, w: ThreadId, k: Key): Sys
    requires Ready(s, CommitKey(w, k))
  {
    var Busy(tx, stage) := s.workers[w].job;
    var m := Commit(stage, s.state, k, w);
    SetJob(s.(state := m.state), w, Busy(tx, m.stage))
  }

  /** What becomes of the transaction once its dispatch has ended: executed, forwarded, or reported as orphan. */
  function DoSettle(s: Sys, w: ThreadId): Sys
    requires Ready(s, Settle(w))
  {
    var Busy(tx, stage) := s.workers[w].job;
    var s1 := SetJob(s, w, Idle);
    match stage
    case Committing(_, _) => SettleExecuted(s1, w, tx)
    case Tainted(owner, corrupt) =>
      if tx.status.Initial? && !corrupt then
        if owner >= |s.workers| then Panics(s) else SettleForward(s1, w, tx, owner)
      else SettleOrphan(s1, w, tx)
    case Running(_, _, _) => s
  }

  function SettleExecuted(s: Sys, w: ThreadId, tx: Transaction): Sys
    requires w < |s.workers|
  {
    var p := s.workers[w].port;
    var p1 := p.(log := p.log + [tx.body], executed := if p.phase.Depleting? then p.executed + 1 else p.executed);
    if tx.status.Forwarded? then
      SetFate(SetPort(s, w, p1.(outbox := p.outbox + [WorkerExecuted(tx.body.id)])), tx.body.id, ExecutedBy(w))
    else SetFate(SetPort(s, w, p1), tx.body.id, Local)
  }

  function SettleForward(s: Sys, w: ThreadId, tx: Transaction, to: ThreadId): Sys
    requires w < |s.workers| && to < |s.workers|
  {
    var p := s.workers[w].port;
    var s1 := SetPort(s, w, p.(forwarded := if p.phase.Depleting? then p.forwarded + 1 else p.forwarded));
    var q := s1.workers[to].port;
    SetFate(SetPort(s1, to, q.(others := q.others + [tx])), tx.body.id, Travelling(to))
  }

  function SettleOrphan(s: Sys, w: ThreadId, tx: Transaction): Sys
    requires w < |s.workers|
  {
    var p := s.workers[w].port;
    SetFate(SetPort(s, w, p.(forwarded := if p.phase.Depleting? then p.forwarded + 1 else p.forwarded,
                             outbox := p.outbox + [WorkerOrphan(tx.body.id)])), tx.body.id, OrphanBy(w))
  }

  // ---------------------------------------------------------------------------
  // Whole schedules.

  function ApplyAll(s: Sys, schedule: seq<Label>): Sys {
    if schedule == [] then s
    else Apply(ApplyAll(s, schedule[..|schedule| - 1]), schedule[|schedule| - 1])
  }

  /** The master has returned from `run_author`. */
  predicate Finished(s: Sys) {
    !s.panicked && s.master.closing && s.master.plan == [] && s.master.played == |s.master.orphans|
  }

  /** The block the master produces: the pool as it then stands, followed by the orphans. */
  function BlockOf(s: Sys): seq<Transaction> {
    s.master.pool + s.master.orphans
  }

  // ---------------------------------------------------------------------------
  // What a task needs.

  /** Transaction ids are unique, every transaction is tagged with a worker, and initial taints are worker ids. */
  ghost predicate TaskValid(task: Task) {
    && Unique(task.pool)
    && (forall t :: t in task.pool ==> t.tag.DoneBy? && t.tag.worker < task.workers && t.status.Initial?)
    && (forall k :: Owner(task.initial, k) != None ==> Owner(task.initial, k).value < task.workers)
  }

  /** No transaction panics when executed from a store satisfying `inv`, and all follow the calls' discipline. */
  ghost predicate TaskSafe(task: Task, inv: Store -> bool) {
    && inv(Data(task.initial))
    && (forall t :: t in task.pool ==> DisciplinedCall(t.body.call) && Preserves(inv, t.body.call))
  }
}
