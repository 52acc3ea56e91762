/**
 The sandbox manager: start, stop, pause and unpause commands run as concurrent
 tasks. A per-sandbox lock is held across the runtime call, while the table of
 sandboxes is locked only for single reads and writes. The atomic meaning of
 each command is `Atomic`; `Step` is the interleaved execution.
 */
module SandboxLifecycle {
  import opened Prelude

  type SandboxId = string
  type ContainerId = string
  type TaskId = nat
  type LockId = nat

  datatype SandboxState = Running | Paused | Stopped | Failed

  datatype ContainerState = Up | Frozen

  datatype Entry = Entry(container: ContainerId, hostPort: nat, state: SandboxState)

  datatype Error = InvalidId | SandboxNotFound | RuntimeFailure

  type Outcome = Result<SandboxState, Error>

  datatype Op = Start | Stop | Pause | Unpause

  // ---- the container runtime, as an oracle with state ----

  /** `used` holds every id ever handed out, and the empty id of failed entries. */
  datatype Runtime = Runtime(live: map<ContainerId, ContainerState>, used: set<ContainerId>)

  datatype Call =
    | CreateAndStart
    | PauseContainer(c: ContainerId)
    | UnpauseContainer(c: ContainerId)
    | StopAndRemove(c: ContainerId)

  /** A failed creation may leave a container behind: the create deadline drops the call midway. */
  datatype Answer =
    | Created(c: ContainerId, port: nat)
    | NotCreated(leaked: Option<(ContainerId, ContainerState)>)
    | Done
    | Refused

  predicate Allowed(rt: Runtime, call: Call, answer: Answer) {
    match call
    case CreateAndStart =>
      (answer.Created? && answer.c !in rt.used) ||
      (answer.NotCreated? && (answer.leaked.Some? ==> answer.leaked.value.0 !in rt.used))
    case PauseContainer(c) => (answer.Done? && c in rt.live) || answer.Refused?
    case UnpauseContainer(c) => (answer.Done? && c in rt.live) || answer.Refused?
    case StopAndRemove(c) => answer.Done? || answer.Refused?
  }

  function AfterCall(rt: Runtime, call: Call, answer: Answer): Runtime {
    match answer
    case Created(c, _) => Runtime(rt.live[c := Up], rt.used + {c})
    case NotCreated(Some((c, st))) => Runtime(rt.live[c := st], rt.used + {c})
    case Done =>
      (match call
       case PauseContainer(c) => rt.(live := rt.live[c := Frozen])
       case UnpauseContainer(c) => rt.(live := rt.live[c := Up])
       case StopAndRemove(c) => rt.(live := rt.live - {c})
       case CreateAndStart => rt)
    case _ => rt
  }

  // ---- the atomic meaning of one command ----

  /** What a command does once it has read its sandbox's entry. */
  datatype Plan = Reply(outcome: Outcome) | Ask(call: Call)

  function PlanFor(op: Op, slot: Option<Entry>): Plan {
    if op.Start? then Ask(CreateAndStart)
    else if slot.None? then Reply(Err(SandboxNotFound))
    else match op
      case Pause => if slot.value.state.Paused? then Reply(Ok(Paused)) else Ask(PauseContainer(slot.value.container))
      case Unpause =>
        if slot.value.state.Running? then Reply(Ok(Running)) else Ask(UnpauseContainer(slot.value.container))
      case _ => Ask(StopAndRemove(slot.value.container))
  }

  /** The write a command makes to its entry after the runtime answered. */
  datatype Update = Put(e: Entry) | SetState(st: SandboxState) | Delete

  function Written(u: Update, slot: Option<Entry>): Option<Entry> {
    match u
    case Put(e) => Some(e)
    case SetState(st) => if slot.Some? then Some(slot.value.(state := st)) else None
    case Delete => None
  }

  /** None: the command returns without touching the table. */
  function UpdateFor(op: Op, answer: Answer): Option<Update> {
    match op
    case Start => Some(Put(if answer.Created? then Entry(answer.c, answer.port, Running) else Entry("", 0, Failed)))
    case Pause => if answer.Done? then Some(SetState(Paused)) else None
    case Unpause => if answer.Done? then Some(SetState(Running)) else None
    case Stop => if answer.Done? then Some(Delete) else None
  }

  function OutcomeFor(op: Op, answer: Answer): Outcome {
    match op
    case Start => if answer.Created? then Ok(Running) else Err(RuntimeFailure)
    case Pause => if answer.Done? then Ok(Paused) else Err(RuntimeFailure)
    case Unpause => if answer.Done? then Ok(Running) else Err(RuntimeFailure)
    case Stop => if answer.Done? then Ok(Stopped) else Err(RuntimeFailure)
  }

  datatype World = World(entries: map<SandboxId, Entry>, rt: Runtime)

  function SetSlot(entries: map<SandboxId, Entry>, id: SandboxId, slot: Option<Entry>): map<SandboxId, Entry> {
    if slot.Some? then entries[id := slot.value] else entries - {id}
  }

  function Atomic(w: World, id: SandboxId, op: Op, answer: Answer): (World, Outcome) {
    var slot := Lookup(w.entries, id);
    match PlanFor(op, slot)
    case Reply(out) => (w, out)
    case Ask(call) =>
      var u := UpdateFor(op, answer);
      (World(
         if u.Some? then SetSlot(w.entries, id, Written(u.value, slot)) else w.entries,
         AfterCall(w.rt, call, answer)),
       OutcomeFor(op, answer))
  }

  predicate AtomicAllowed(w: World, id: SandboxId, op: Op, answer: Answer) {
    var plan := PlanFor(op, Lookup(w.entries, id));
    plan.Ask? ==> Allowed(w.rt, plan.call, answer)
  }

  const EMPTY := World(map[], Runtime(map[], {""}))

  /** One command of a sequential history. */
  datatype Event = Event(task: TaskId, id: SandboxId, op: Op, answer: Answer)

  /** The world and the replies after running the events one at a time. */
  function Replay(log: seq<Event>): (World, map<TaskId, Outcome>) {
    if log == [] then (EMPTY, map[])
    else
      var (w, replies) := Replay(log[..|log| - 1]);
      var e := log[|log| - 1];
      var (w', out) := Atomic(w, e.id, e.op, e.answer);
      (w', replies[e.task := out])
  }

  predicate Possible(log: seq<Event>) {
    log == [] ||
    (Possible(log[..|log| - 1]) &&
     var e := log[|log| - 1];
     AtomicAllowed(Replay(log[..|log| - 1]).0, e.id, e.op, e.answer))
  }

  function TasksOf(log: seq<Event>, id: SandboxId): seq<TaskId> {
    if log == [] then []
    else TasksOf(log[..|log| - 1], id) + if log[|log| - 1].id == id then [log[|log| - 1].task] else []
  }

  // ---- what every sequential history keeps ----

  /** An entry marked Running or Paused names a live container in exactly that state. */
  ghost predicate Agrees(w: World) {
    && "" in w.rt.used && "" !in w.rt.live
    && (forall c <- w.rt.live :: c in w.rt.used)
    && (forall id <- w.entries ::
      && w.entries[id].container in w.rt.used
      && (w.entries[id].state.Running? ==> Lookup(w.rt.live, w.entries[id].container) == Some(Up))
      && (w.entries[id].state.Paused? ==> Lookup(w.rt.live, w.entries[id].container) == Some(Frozen)))
    && (forall a <- w.entries, b <- w.entries ::
      a != b && w.entries[a].container == w.entries[b].container ==> w.entries[a].container == "")
  }

  lemma StartKeepsAgreement(w: World, id: SandboxId, answer: Answer)
    requires Agrees(w) && AtomicAllowed(w, id, Start, answer)
    ensures Agrees(Atomic(w, id, Start, answer).0)
  {
  }

  lemma StopKeepsAgreement(w: World, id: SandboxId, answer: Answer)
    requires Agrees(w) && AtomicAllowed(w, id, Stop, answer)
    ensures Agrees(Atomic(w, id, Stop, answer).0)
  {
  }

  lemma AtomicKeepsAgreement(w: World, id: SandboxId, op: Op, answer: Answer)
    requires Agrees(w) && AtomicAllowed(w, id, op, answer)
    ensures Agrees(Atomic(w, id, op, answer).0)
  {
    if op.Start? {
      StartKeepsAgreement(w, id, answer);
    } else if op.Stop? {
      StopKeepsAgreement(w, id, answer);
    }
  }

  // ---- what a reply means ----

  /** The container a command is about: the one its entry names, or the one its start brought up. */
  function Concerns(w: World, id: SandboxId, op: Op, answer: Answer): Option<ContainerId> {
    if op.Start? then
      if answer.Created? then Some(answer.c)
      else if answer.NotCreated? && answer.leaked.Some? then Some(answer.leaked.value.0) else None
    else if id in w.entries then Some(w.entries[id].container) else None
  }

  /** No other sandbox and no other container is touched. */
  ghost predicate LeavesOthers(w: World, w': World, id: SandboxId, concerned: Option<ContainerId>) {
    && (forall other: SandboxId :: other != id ==> Lookup(w'.entries, other) == Lookup(w.entries, other))
    && (forall c: ContainerId :: Some(c) != concerned ==> Lookup(w'.rt.live, c) == Lookup(w.rt.live, c))
  }

  /** The sandbox's entry is in this state, and so is its container. */
  predicate IsIn(w: World, id: SandboxId, st: SandboxState, cs: ContainerState) {
    id in w.entries && w.entries[id].state == st && Lookup(w.rt.live, w.entries[id].container) == Some(cs)
  }

  /** The sandbox is already where a pause or unpause would take it. */
  predicate AlreadyThere(w: World, id: SandboxId, op: Op) {
    id in w.entries &&
    ((op.Pause? && w.entries[id].state.Paused?) || (op.Unpause? && w.entries[id].state.Running?))
  }

  /** When a command succeeds, and with what. */
  predicate SucceedsRightly(w: World, id: SandboxId, op: Op, answer: Answer, out: Outcome) {
    && (op.Start? ==> (out.Ok? <==> answer.Created?))
    && (!op.Start? ==> (out.Ok? <==> id in w.entries && (AlreadyThere(w, id, op) || answer.Done?)))
    && (out.Err? ==> out.error == if !op.Start? && id !in w.entries then SandboxNotFound else RuntimeFailure)
    && (out.Ok? ==> out.value == if op.Stop? then Stopped else if op.Pause? then Paused else Running)
  }

  /** The sandbox has the container and the port it had. */
  predicate KeepsIdentity(w: World, w': World, id: SandboxId) {
    if id in w.entries then
      && id in w'.entries && w'.entries[id].container == w.entries[id].container
      && w'.entries[id].hostPort == w.entries[id].hostPort
    else id !in w'.entries
  }

  /** A reply says what has become of the sandbox, its container and everything else. */
  ghost predicate Truthful(w: World, w': World, id: SandboxId, op: Op, answer: Answer, out: Outcome) {
    && SucceedsRightly(w, id, op, answer, out)
    && LeavesOthers(w, w', id, Concerns(w, id, op, answer))
    && (out.Err? && !op.Start? ==> w' == w)
    && (AlreadyThere(w, id, op) ==> w' == w)
    && (out == Ok(Stopped) ==> id in w.entries && id !in w'.entries && w.entries[id].container !in w'.rt.live)
    && (out == Ok(Running) ==> IsIn(w', id, Running, Up))
    && (out == Ok(Paused) ==> IsIn(w', id, Paused, Frozen))
    && (op.Pause? || op.Unpause? ==> KeepsIdentity(w, w', id))
    && (op.Start? && answer.Created? ==> Lookup(w'.entries, id) == Some(Entry(answer.c, answer.port, Running)))
    && (op.Start? && !answer.Created? ==> Lookup(w'.entries, id) == Some(Entry("", 0, Failed)))
  }

  lemma StartIsTruthful(w: World, id: SandboxId, answer: Answer)
    requires Agrees(w) && AtomicAllowed(w, id, Start, answer)
    ensures Truthful(w, Atomic(w, id, Start, answer).0, id, Start, answer, Atomic(w, id, Start, answer).1)
  {
  }

  lemma StopIsTruthful(w: World, id: SandboxId, answer: Answer)
    requires Agrees(w) && AtomicAllowed(w, id, Stop, answer)
    ensures Truthful(w, Atomic(w, id, Stop, answer).0, id, Stop, answer, Atomic(w, id, Stop, answer).1)
  {
  }

  /** Every command, on every world that agrees with its runtime and for every answer, replies truthfully. */
  lemma RepliesTellTheTruth(w: World, id: SandboxId, op: Op, answer: Answer)
    requires Agrees(w) && AtomicAllowed(w, id, op, answer)
    ensures Truthful(w, Atomic(w, id, op, answer).0, id, op, answer, Atomic(w, id, op, answer).1)
  {
    match op
    case Start => StartIsTruthful(w, id, answer);
    case Stop => StopIsTruthful(w, id, answer);
    case _ =>
      if id in w.entries { assert w.entries[id].container in w.rt.used; }
  }

  lemma {:induction false} ReplayAgrees(log: seq<Event>)
    requires Possible(log)
    ensures Agrees(Replay(log).0)
  {
    if log != [] {
      var e := log[|log| - 1];
      ReplayAgrees(log[..|log| - 1]);
      AtomicKeepsAgreement(Replay(log[..|log| - 1]).0, e.id, e.op, e.answer);
    }
  }

  // ---- the interleaved execution ----

  datatype Pc =
    | Invoked
    | Queued(lock: LockId)
    | Locked(lock: LockId)
    | Asking(lock: LockId, call: Call)
    | Committing(lock: LockId, update: Update, out: Outcome)
    | Leaving(lock: LockId, out: Outcome)
    | Returned(out: Outcome)

  /** `target` is None when the raw sandbox id does not parse. */
  datatype Task = Task(op: Op, target: Option<SandboxId>, pc: Pc)

  /** `log` and `acquired` are histories: linearization points and lock acquisitions. */
  datatype State = State(
    locks: map<SandboxId, LockId>,
    nextLock: LockId,
    holder: map<LockId, TaskId>,
    entries: map<SandboxId, Entry>,
    rt: Runtime,
    tasks: map<TaskId, Task>,
    log: seq<Event>,
    acquired: map<SandboxId, seq<TaskId>>)

  const INIT := State(map[], 0, map[], map[], EMPTY.rt, map[], [], map[])

  datatype Action =
    | Invoke(t: TaskId, op: Op, target: Option<SandboxId>)
    | FetchLock(t: TaskId)
    | Acquire(t: TaskId)
    | Decide(t: TaskId)
    | RuntimeCall(t: TaskId, answer: Answer)
    | Commit(t: TaskId)
    | Release(t: TaskId)

  predicate Enabled(s: State, a: Action) {
    if a.Invoke? then a.t !in s.tasks
    else
      a.t in s.tasks &&
      var pc := s.tasks[a.t].pc;
      match a
      case FetchLock(_) => pc.Invoked?
      case Acquire(t) => pc.Queued? && pc.lock !in s.holder && s.tasks[t].target.Some?
      case Decide(t) => pc.Locked? && s.tasks[t].target.Some?
      case RuntimeCall(t, answer) => pc.Asking? && s.tasks[t].target.Some? && Allowed(s.rt, pc.call, answer)
      case Commit(t) => pc.Committing? && s.tasks[t].target.Some?
      case Release(_) => pc.Leaving?
      case Invoke(_, _, _) => true
  }

  function Acquired(s: State, id: SandboxId): seq<TaskId> {
    if id in s.acquired then s.acquired[id] else []
  }

  /** Where the acting task goes next. */
  function NextPc(s: State, a: Action): Pc
    requires Enabled(s, a) && !a.Invoke?
  {
    var task := s.tasks[a.t];
    match a
    case Invoke(_, _, _) => Invoked
    case FetchLock(_) =>
      if task.target.None? then Returned(Err(InvalidId))
      else if task.target.value in s.locks then Queued(s.locks[task.target.value])
      else Queued(s.nextLock)
    case Acquire(_) => Locked(task.pc.lock)
    case Decide(_) =>
      (match PlanFor(task.op, Lookup(s.entries, task.target.value))
       case Reply(out) => Leaving(task.pc.lock, out)
       case Ask(call) => Asking(task.pc.lock, call))
    case RuntimeCall(_, answer) =>
      var u, out := UpdateFor(task.op, answer), OutcomeFor(task.op, answer);
      if u.Some? then Committing(task.pc.lock, u.value, out) else Leaving(task.pc.lock, out)
    case Commit(_) => Leaving(task.pc.lock, task.pc.out)
    case Release(_) => Returned(task.pc.out)
  }

  /** A lock is created the first time its sandbox is named, and never dropped. */
  predicate CreatesLock(s: State, a: Action)
    requires Enabled(s, a)
  {
    a.FetchLock? && s.tasks[a.t].target.Some? && s.tasks[a.t].target.value !in s.locks
  }

  /** The linearization point a step is: the runtime's answer, or the lookup that already decides the reply. */
  function Logged(s: State, a: Action): seq<Event>
    requires Enabled(s, a)
  {
    if a.RuntimeCall?
       || (a.Decide? && PlanFor(s.tasks[a.t].op, Lookup(s.entries, s.tasks[a.t].target.value)).Reply?) then
      [Event(a.t, s.tasks[a.t].target.value, s.tasks[a.t].op, if a.RuntimeCall? then a.answer else Refused)]
    else []
  }

  function Step(s: State, a: Action): State
    requires Enabled(s, a)
  {
    var task := if a.Invoke? then Task(a.op, a.target, Invoked) else s.tasks[a.t].(pc := NextPc(s, a));
    State(
      if CreatesLock(s, a) then s.locks[task.target.value := s.nextLock] else s.locks,
      if CreatesLock(s, a) then s.nextLock + 1 else s.nextLock,
      if a.Acquire? then s.holder[task.pc.lock := a.t]
      else if a.Release? then s.holder - {s.tasks[a.t].pc.lock} else s.holder,
      if a.Commit? then
        SetSlot(s.entries, task.target.value, Written(s.tasks[a.t].pc.update, Lookup(s.entries, task.target.value)))
      else s.entries,
      if a.RuntimeCall? then AfterCall(s.rt, s.tasks[a.t].pc.call, a.answer) else s.rt,
      s.tasks[a.t := task],
      s.log + Logged(s, a),
      if a.Acquire? then s.acquired[task.target.value := Acquired(s, task.target.value) + [a.t]] else s.acquired)
  }

  /** The state after a run, if every action of it was possible in turn. */
  function Exec(run: seq<Action>): Option<State> {
    if run == [] then Some(INIT)
    else
      var before := Exec(run[..|run| - 1]);
      if before.Some? && Enabled(before.value, run[|run| - 1]) then Some(Step(before.value, run[|run| - 1])) else None
  }

  // ---- the invariant ----

  predicate Inside(pc: Pc) {
    pc.Locked? || pc.Asking? || pc.Committing? || pc.Leaving?
  }

  /** A task past the lock table uses its sandbox's one lock, and holds it while inside. */
  predicate TaskOk(s: State, t: TaskId)
    requires t in s.tasks
  {
    var task := s.tasks[t];
    task.pc.Queued? || Inside(task.pc) ==>
      && task.target.Some?
      && Lookup(s.locks, task.target.value) == Some(task.pc.lock)
      && (Inside(task.pc) ==> Lookup(s.holder, task.pc.lock) == Some(t))
  }

  ghost predicate LocksOk(s: State) {
    && (forall id <- s.locks :: s.locks[id] < s.nextLock)
    && (forall l <- s.holder :: l < s.nextLock)
    && (forall t <- s.tasks :: TaskOk(s, t))
  }

  /** Which command is inside the critical section of `id`, if any. */
  function Owner(s: State, id: SandboxId): Option<TaskId> {
    if id in s.locks && s.locks[id] in s.holder then
      var t := s.holder[s.locks[id]];
      if t in s.tasks && s.tasks[t].target == Some(id) && Inside(s.tasks[t].pc) then Some(t) else None
    else None
  }

  /** The entry of `id` once the write its owner still has to make is made. */
  function Settling(s: State, id: SandboxId): Option<Entry> {
    var slot, owner := Lookup(s.entries, id), Owner(s, id);
    if owner.Some? && s.tasks[owner.value].pc.Committing? then Written(s.tasks[owner.value].pc.update, slot) else slot
  }

  /** The owner's plan still fits the entry, and a state change will find it. */
  predicate PlanOk(s: State, id: SandboxId) {
    var slot, owner := Lookup(s.entries, id), Owner(s, id);
    owner.Some? ==>
      var task := s.tasks[owner.value];
      && (task.pc.Asking? ==> PlanFor(task.op, slot) == Ask(task.pc.call))
      && (task.pc.Committing? && task.pc.update.SetState? ==> slot.Some?)
  }

  /** The owner of `id` when it has not reached its linearization point. */
  function Undecided(s: State, id: SandboxId): seq<TaskId> {
    var owner := Owner(s, id);
    if owner.Some? && (s.tasks[owner.value].pc.Locked? || s.tasks[owner.value].pc.Asking?) then [owner.value] else []
  }

  predicate SlotOk(s: State, id: SandboxId) {
    && Settling(s, id) == Lookup(Replay(s.log).0.entries, id)
    && PlanOk(s, id)
    && Acquired(s, id) == TasksOf(s.log, id) + Undecided(s, id)
  }

  ghost predicate SlotsOk(s: State) {
    forall id: SandboxId :: SlotOk(s, id)
  }

  predicate HasReply(task: Task) {
    task.target.Some? && (task.pc.Committing? || task.pc.Leaving? || task.pc.Returned?)
  }

  predicate ReplyOk(s: State, replies: map<TaskId, Outcome>, t: TaskId)
    requires t in s.tasks
  {
    Lookup(replies, t) == if HasReply(s.tasks[t]) then Some(s.tasks[t].pc.out) else None
  }

  ghost predicate RepliesOk(s: State) {
    var replies := Replay(s.log).1;
    && replies.Keys <= s.tasks.Keys
    && (forall t <- s.tasks :: ReplyOk(s, replies, t))
  }

  ghost predicate Inv(s: State) {
    && LocksOk(s) && SlotsOk(s) && RepliesOk(s)
    && s.rt == Replay(s.log).0.rt && Possible(s.log)
  }

  // ---- every step keeps it ----

  lemma ReplayMore(log: seq<Event>, e: Event)
    ensures var (w, replies) := Replay(log);
            var (w', out) := Atomic(w, e.id, e.op, e.answer);
            Replay(log + [e]) == (w', replies[e.task := out])
    ensures Possible(log + [e]) <==> Possible(log) && AtomicAllowed(Replay(log).0, e.id, e.op, e.answer)
    ensures forall id: SandboxId :: TasksOf(log + [e], id) == TasksOf(log, id) + if e.id == id then [e.task] else []
  {
    assert (log + [e])[..|log + [e]| - 1] == log;
  }

  lemma AtomicIsLocal(w: World, id: SandboxId, op: Op, answer: Answer, other: SandboxId)
    requires other != id
    ensures Lookup(Atomic(w, id, op, answer).0.entries, other) == Lookup(w.entries, other)
  {
  }

  lemma StepKeepsOwnTask(s: State, a: Action)
    requires LocksOk(s) && Enabled(s, a)
    ensures TaskOk(Step(s, a), a.t)
  {
    if a.t in s.tasks { assert TaskOk(s, a.t); }
  }

  lemma StepKeepsOtherTasks(s: State, a: Action, u: TaskId)
    requires LocksOk(s) && Enabled(s, a) && u in s.tasks && u != a.t
    ensures Step(s, a).tasks[u] == s.tasks[u] && TaskOk(Step(s, a), u)
  {
    assert TaskOk(s, u);
    if a.t in s.tasks { assert TaskOk(s, a.t); }
  }

  lemma StepKeepsLocks(s: State, a: Action)
    requires LocksOk(s) && Enabled(s, a)
    ensures LocksOk(Step(s, a))
  {
    if a.t in s.tasks { assert TaskOk(s, a.t); }
    StepKeepsOwnTask(s, a);
    forall u | u in s.tasks && u != a.t
      ensures TaskOk(Step(s, a), u)
    {
      StepKeepsOtherTasks(s, a, u);
    }
  }

  /** A step leaves the owner, and hence the critical section, of every other sandbox alone. */
  lemma StepKeepsOtherOwners(s: State, a: Action, id: SandboxId)
    requires LocksOk(s) && Enabled(s, a)
    requires a.t in s.tasks ==> s.tasks[a.t].target != Some(id)
    ensures Owner(Step(s, a), id) == Owner(s, id)
    ensures Owner(s, id).Some? ==> Step(s, a).tasks[Owner(s, id).value] == s.tasks[Owner(s, id).value]
  {
    if a.t in s.tasks { assert TaskOk(s, a.t); }
  }

  lemma StepKeepsOtherHistory(s: State, a: Action, id: SandboxId)
    requires Enabled(s, a)
    requires a.t in s.tasks ==> s.tasks[a.t].target != Some(id)
    ensures Lookup(Replay(Step(s, a).log).0.entries, id) == Lookup(Replay(s.log).0.entries, id)
    ensures TasksOf(Step(s, a).log, id) == TasksOf(s.log, id)
  {
    var more := Logged(s, a);
    if more == [] {
      assert s.log + more == s.log;
    } else {
      ReplayMore(s.log, more[0]);
      AtomicIsLocal(Replay(s.log).0, more[0].id, more[0].op, more[0].answer, id);
    }
  }

  lemma StepKeepsOtherEntries(s: State, a: Action, id: SandboxId)
    requires Enabled(s, a)
    requires a.t in s.tasks ==> s.tasks[a.t].target != Some(id)
    ensures Lookup(Step(s, a).entries, id) == Lookup(s.entries, id) && Acquired(Step(s, a), id) == Acquired(s, id)
  {
  }

  lemma SlotFrame(s: State, s': State, id: SandboxId)
    requires SlotOk(s, id)
    requires Lookup(s'.entries, id) == Lookup(s.entries, id) && Acquired(s', id) == Acquired(s, id)
    requires Lookup(Replay(s'.log).0.entries, id) == Lookup(Replay(s.log).0.entries, id)
    requires TasksOf(s'.log, id) == TasksOf(s.log, id)
    requires Owner(s', id) == Owner(s, id)
    requires Owner(s, id).Some? ==> s'.tasks[Owner(s, id).value] == s.tasks[Owner(s, id).value]
    ensures SlotOk(s', id)
  {
  }

  lemma StepKeepsOtherSlots(s: State, a: Action, id: SandboxId)
    requires LocksOk(s) && SlotOk(s, id) && Enabled(s, a)
    requires a.t in s.tasks ==> s.tasks[a.t].target != Some(id)
    ensures SlotOk(Step(s, a), id)
  {
    StepKeepsOtherOwners(s, a, id);
    StepKeepsOtherHistory(s, a, id);
    StepKeepsOtherEntries(s, a, id);
    SlotFrame(s, Step(s, a), id);
  }

  lemma CommitKeepsOwnSlot(s: State, a: Action, id: SandboxId)
    requires a.t in s.tasks && TaskOk(s, a.t) && SlotOk(s, id) && Enabled(s, a) && a.Commit? &&
             s.tasks[a.t].target == Some(id)
    ensures SlotOk(Step(s, a), id)
  {
    OwnerIsInside(s, a.t, id);
    OwnerIsInside(Step(s, a), a.t, id);
    assert s.log + [] == s.log;
  }

  lemma InsideStepKeepsOwnSlot(s: State, a: Action, id: SandboxId)
    requires a.t in s.tasks && TaskOk(s, a.t) && SlotOk(s, id) && Enabled(s, a) && s.tasks[a.t].target == Some(id)
    requires Logged(s, a) == [] && !a.Commit? && Inside(s.tasks[a.t].pc)
    ensures SlotOk(Step(s, a), id)
  {
    OwnerIsInside(s, a.t, id);
    assert s.log + Logged(s, a) == s.log;
  }

  lemma FetchKeepsOwner(s: State, a: Action, id: SandboxId)
    requires LocksOk(s) && Enabled(s, a) && a.FetchLock? && s.tasks[a.t].target == Some(id)
    ensures Owner(Step(s, a), id) == Owner(s, id)
    ensures Owner(s, id).Some? ==> Step(s, a).tasks[Owner(s, id).value] == s.tasks[Owner(s, id).value]
  {
  }

  lemma FetchKeepsOwnSlot(s: State, a: Action, id: SandboxId)
    requires LocksOk(s) && SlotOk(s, id) && Enabled(s, a) && a.FetchLock? && s.tasks[a.t].target == Some(id)
    ensures SlotOk(Step(s, a), id)
  {
    FetchKeepsOwner(s, a, id);
    NilPlus(s.log);
    SlotFrame(s, Step(s, a), id);
  }

  lemma AcquireTakesSlot(s: State, a: Action, id: SandboxId)
    requires a.t in s.tasks && TaskOk(s, a.t) && Enabled(s, a) && a.Acquire? && s.tasks[a.t].target == Some(id)
    ensures Owner(s, id) == None && Owner(Step(s, a), id) == Some(a.t) && Step(s, a).tasks[a.t].pc.Locked?
  {
  }

  lemma AcquireKeepsOwnSlot(s: State, a: Action, id: SandboxId)
    requires a.t in s.tasks && TaskOk(s, a.t) && SlotOk(s, id) && Enabled(s, a) && a.Acquire?
    requires s.tasks[a.t].target == Some(id)
    ensures SlotOk(Step(s, a), id)
  {
    AcquireTakesSlot(s, a, id);
    NilPlus(s.log);
    NilPlus(TasksOf(s.log, id));
  }

  /** Steps that are no linearization point: the replayed history does not move. */
  lemma SilentStepKeepsOwnSlot(s: State, a: Action, id: SandboxId)
    requires LocksOk(s) && SlotOk(s, id) && Enabled(s, a) && a.t in s.tasks && s.tasks[a.t].target == Some(id)
    requires Logged(s, a) == []
    ensures SlotOk(Step(s, a), id)
  {
    assert TaskOk(s, a.t);
    if a.Commit? {
      CommitKeepsOwnSlot(s, a, id);
    } else if Inside(s.tasks[a.t].pc) {
      InsideStepKeepsOwnSlot(s, a, id);
    } else if a.FetchLock? {
      FetchKeepsOwnSlot(s, a, id);
    } else {
      AcquireKeepsOwnSlot(s, a, id);
    }
  }

  lemma OwnerIsInside(s: State, t: TaskId, id: SandboxId)
    requires t in s.tasks && TaskOk(s, t) && Inside(s.tasks[t].pc) && s.tasks[t].target == Some(id)
    ensures Owner(s, id) == Some(t)
  {
  }

  /** The one event a linearization point logs. */
  lemma LoggedIsOne(s: State, a: Action) returns (e: Event)
    requires Enabled(s, a) && Logged(s, a) != []
    ensures Logged(s, a) == [e] && Step(s, a).log == s.log + [e]
    ensures e.task == a.t && e.op == s.tasks[a.t].op && s.tasks[a.t].target == Some(e.id)
    ensures a.RuntimeCall? ==> e.answer == a.answer
  {
    e := Logged(s, a)[0];
  }

  /** Before its linearization point a command sees the replayed entry, and its plan is made for it. */
  lemma OwnerSeesReplay(s: State, a: Action, w: World)
    requires Enabled(s, a) && Logged(s, a) != [] && TaskOk(s, a.t)
    requires var id := s.tasks[a.t].target.value; Settling(s, id) == Lookup(w.entries, id) && PlanOk(s, id)
    ensures var id := s.tasks[a.t].target.value;
            && Lookup(w.entries, id) == Lookup(s.entries, id)
            && (a.RuntimeCall? ==> PlanFor(s.tasks[a.t].op, Lookup(w.entries, id)) == Ask(s.tasks[a.t].pc.call))
  {
    OwnerIsInside(s, a.t, s.tasks[a.t].target.value);
  }

  /** A linearization point does what the command does at once to a world with the same entry and runtime. */
  lemma LoggedIsAtomic(s: State, a: Action, e: Event, w: World)
    requires Enabled(s, a) && Logged(s, a) == [e] && s.rt == w.rt
    requires Lookup(w.entries, e.id) == Lookup(s.entries, e.id)
    requires a.RuntimeCall? ==> PlanFor(e.op, Lookup(w.entries, e.id)) == Ask(s.tasks[a.t].pc.call)
    ensures AtomicAllowed(w, e.id, e.op, e.answer) && HasReply(Step(s, a).tasks[a.t])
    ensures Atomic(w, e.id, e.op, e.answer).0.rt == Step(s, a).rt
    ensures Atomic(w, e.id, e.op, e.answer).1 == Step(s, a).tasks[a.t].pc.out
  {
  }

  lemma LoggedStepSettles(s: State, a: Action, e: Event, w: World)
    requires Enabled(s, a) && Logged(s, a) == [e] && TaskOk(s, a.t) && TaskOk(Step(s, a), a.t)
    requires Lookup(w.entries, e.id) == Lookup(s.entries, e.id)
    requires a.RuntimeCall? ==> PlanFor(e.op, Lookup(w.entries, e.id)) == Ask(s.tasks[a.t].pc.call)
    ensures Settling(Step(s, a), e.id) == Lookup(Atomic(w, e.id, e.op, e.answer).0.entries, e.id)
    ensures PlanOk(Step(s, a), e.id)
  {
    OwnerIsInside(Step(s, a), a.t, e.id);
  }

  lemma LoggedStepTakesTurn(s: State, a: Action, e: Event)
    requires Enabled(s, a) && Logged(s, a) == [e] && TaskOk(s, a.t) && TaskOk(Step(s, a), a.t)
    ensures Acquired(Step(s, a), e.id) == Acquired(s, e.id)
    ensures Undecided(s, e.id) == [a.t] && Undecided(Step(s, a), e.id) == []
  {
    OwnerIsInside(s, a.t, e.id);
    OwnerIsInside(Step(s, a), a.t, e.id);
  }

  lemma LoggedStepKeepsOwnSlot(s: State, a: Action, id: SandboxId)
    requires LocksOk(s) && SlotOk(s, id) && Enabled(s, a) && a.t in s.tasks && s.tasks[a.t].target == Some(id)
    requires Logged(s, a) != []
    ensures SlotOk(Step(s, a), id)
  {
    assert TaskOk(s, a.t);
    StepKeepsOwnTask(s, a);
    var e := LoggedIsOne(s, a);
    var w := Replay(s.log).0;
    OwnerSeesReplay(s, a, w);
    LoggedStepSettles(s, a, e, w);
    LoggedStepTakesTurn(s, a, e);
    ReplayMore(s.log, e);
    NilPlus(TasksOf(s.log + [e], id));
  }

  lemma LoggedStepKeepsReplay(s: State, a: Action)
    requires Enabled(s, a) && Logged(s, a) != []
    requires TaskOk(s, a.t) && SlotOk(s, s.tasks[a.t].target.value)
    requires s.rt == Replay(s.log).0.rt && Possible(s.log)
    ensures Step(s, a).rt == Replay(Step(s, a).log).0.rt && Possible(Step(s, a).log)
    ensures HasReply(Step(s, a).tasks[a.t])
    ensures Replay(Step(s, a).log).1 == Replay(s.log).1[a.t := Step(s, a).tasks[a.t].pc.out]
  {
    var e := LoggedIsOne(s, a);
    var w := Replay(s.log).0;
    OwnerSeesReplay(s, a, w);
    LoggedIsAtomic(s, a, e, w);
    ReplayMore(s.log, e);
  }

  lemma SilentStepKeepsReplies(s: State, a: Action)
    requires Enabled(s, a) && Logged(s, a) == [] && a.t in s.tasks
    ensures Step(s, a).log == s.log && Step(s, a).rt == s.rt
    ensures HasReply(Step(s, a).tasks[a.t]) <==> HasReply(s.tasks[a.t])
    ensures HasReply(s.tasks[a.t]) ==> Step(s, a).tasks[a.t].pc.out == s.tasks[a.t].pc.out
  {
  }

  lemma StepKeepsOwnReply(s: State, a: Action)
    requires Inv(s) && Enabled(s, a)
    ensures Step(s, a).rt == Replay(Step(s, a).log).0.rt && Possible(Step(s, a).log)
    ensures ReplyOk(Step(s, a), Replay(Step(s, a).log).1, a.t)
    ensures forall u: TaskId :: u != a.t ==> Lookup(Replay(Step(s, a).log).1, u) == Lookup(Replay(s.log).1, u)
  {
    if Logged(s, a) != [] {
      assert TaskOk(s, a.t) && SlotOk(s, s.tasks[a.t].target.value);
      LoggedStepKeepsReplay(s, a);
    } else {
      assert Step(s, a).log == s.log;
      if a.t in s.tasks {
        assert ReplyOk(s, Replay(s.log).1, a.t);
        SilentStepKeepsReplies(s, a);
      }
    }
  }

  lemma RepliesFrame(s: State, s': State, t: TaskId)
    requires RepliesOk(s)
    requires s'.tasks.Keys == s.tasks.Keys + {t} && ReplyOk(s', Replay(s'.log).1, t)
    requires forall u <- s.tasks :: u != t ==> s'.tasks[u] == s.tasks[u]
    requires forall u: TaskId :: u != t ==> Lookup(Replay(s'.log).1, u) == Lookup(Replay(s.log).1, u)
    ensures RepliesOk(s')
  {
    forall u | u in s.tasks && u != t
      ensures ReplyOk(s', Replay(s'.log).1, u)
    {
      assert ReplyOk(s, Replay(s.log).1, u);
    }
    forall u | u in Replay(s'.log).1
      ensures u in s'.tasks
    {
      assert u != t ==> Lookup(Replay(s.log).1, u).Some?;
    }
  }

  lemma StepTouchesOwnTask(s: State, a: Action)
    requires Enabled(s, a)
    ensures Step(s, a).tasks.Keys == s.tasks.Keys + {a.t}
    ensures forall u <- s.tasks :: u != a.t ==> Step(s, a).tasks[u] == s.tasks[u]
  {
  }

  lemma StepKeepsInv(s: State, a: Action)
    requires Inv(s) && Enabled(s, a)
    ensures Inv(Step(s, a))
  {
    StepKeepsLocks(s, a);
    StepKeepsOwnReply(s, a);
    StepTouchesOwnTask(s, a);
    RepliesFrame(s, Step(s, a), a.t);
    forall id: SandboxId
      ensures SlotOk(Step(s, a), id)
    {
      assert SlotOk(s, id);
      if a.t in s.tasks && s.tasks[a.t].target == Some(id) {
        if Logged(s, a) == [] { SilentStepKeepsOwnSlot(s, a, id); } else { LoggedStepKeepsOwnSlot(s, a, id); }
      } else {
        StepKeepsOtherSlots(s, a, id);
      }
    }
  }

  lemma {:induction false} RunKeepsInv(run: seq<Action>)
    requires Exec(run).Some?
    ensures Inv(Exec(run).value)
  {
    if run != [] {
      RunKeepsInv(run[..|run| - 1]);
      StepKeepsInv(Exec(run[..|run| - 1]).value, run[|run| - 1]);
    }
  }

  // ---- main results, over every run ----

  /** No command is inside the critical section of `id`. */
  predicate Idle(s: State, id: SandboxId) {
    forall t <- s.tasks :: s.tasks[t].target == Some(id) ==> !Inside(s.tasks[t].pc)
  }

  lemma IdleHasNoOwner(s: State, id: SandboxId)
    requires Idle(s, id)
    ensures Owner(s, id).None?
  {
  }

  lemma OneInside(run: seq<Action>, t: TaskId, u: TaskId)
    requires Exec(run).Some?
    requires t in Exec(run).value.tasks && u in Exec(run).value.tasks
    requires Inside(Exec(run).value.tasks[t].pc) && Inside(Exec(run).value.tasks[u].pc)
    requires Exec(run).value.tasks[t].target == Exec(run).value.tasks[u].target
    ensures t == u
  {
    RunKeepsInv(run);
    var s := Exec(run).value;
    assert TaskOk(s, t) && TaskOk(s, u);
  }

  /**
   Every run has the containers, the replies and, per idle sandbox, the entry of its
   log run one command at a time.
   */
  lemma Linearizable(run: seq<Action>)
    requires Exec(run).Some?
    ensures var s := Exec(run).value;
            var (w, replies) := Replay(s.log);
            && Possible(s.log)
            && s.rt == w.rt
            && (forall t <- s.tasks ::
              Lookup(replies, t) == if HasReply(s.tasks[t]) then Some(s.tasks[t].pc.out) else None)
            && (forall id: SandboxId :: Idle(s, id) ==>
              Lookup(s.entries, id) == Lookup(w.entries, id) && Acquired(s, id) == TasksOf(s.log, id))
  {
    RunKeepsInv(run);
    var s := Exec(run).value;
    forall t | t in s.tasks
      ensures Lookup(Replay(s.log).1, t) == if HasReply(s.tasks[t]) then Some(s.tasks[t].pc.out) else None
    {
      assert ReplyOk(s, Replay(s.log).1, t);
    }
    forall id: SandboxId | Idle(s, id)
      ensures Lookup(s.entries, id) == Lookup(Replay(s.log).0.entries, id) && Acquired(s, id) == TasksOf(s.log, id)
    {
      IdleHasNoOwner(s, id);
      assert SlotOk(s, id);
    }
  }

  /** With every command returned, the whole table is the replayed one. */
  lemma QuiescentIsSequential(run: seq<Action>)
    requires Exec(run).Some?
    requires forall t <- Exec(run).value.tasks :: !Inside(Exec(run).value.tasks[t].pc)
    ensures World(Exec(run).value.entries, Exec(run).value.rt) == Replay(Exec(run).value.log).0
  {
    var s := Exec(run).value;
    var w := Replay(s.log).0;
    Linearizable(run);
    forall id: SandboxId
      ensures Lookup(s.entries, id) == Lookup(w.entries, id)
    {
      assert Idle(s, id);
    }
    assert forall id :: id in s.entries <==> Lookup(s.entries, id).Some?;
    assert forall id :: id in w.entries <==> Lookup(w.entries, id).Some?;
    assert forall id <- s.entries :: Lookup(s.entries, id) == Some(s.entries[id]);
    assert s.entries == w.entries;
  }

  lemma {:induction false} LogOnlyGrows(run: seq<Action>, more: seq<Action>)
    requires Exec(run + more).Some?
    ensures Exec(run).Some? && Exec(run).value.log <= Exec(run + more).value.log
  {
    if more == [] {
      assert run + more == run;
    } else {
      assert (run + more)[..|run + more| - 1] == run + more[..|more| - 1];
      LogOnlyGrows(run, more[..|more| - 1]);
    }
  }

  lemma {:induction false} RepliesAreOfEvents(log: seq<Event>, t: TaskId)
    ensures t in Replay(log).1 <==> exists i :: 0 <= i < |log| && log[i].task == t
  {
    if log != [] {
      var front, e := log[..|log| - 1], log[|log| - 1];
      RepliesAreOfEvents(front, t);
      assert t in Replay(log).1 <==> t in Replay(front).1 || e.task == t;
      if exists i :: 0 <= i < |log| && log[i].task == t {
        var i :| 0 <= i < |log| && log[i].task == t;
        assert i < |front| ==> front[i].task == t;
      }
      if t in Replay(front).1 {
        var i :| 0 <= i < |front| && front[i].task == t;
        assert log[i].task == t;
      }
    }
  }

  /** A command takes effect once. */
  lemma {:induction false} EffectsHappenOnce(run: seq<Action>, i: nat, j: nat)
    requires Exec(run).Some? && i < j < |Exec(run).value.log|
    ensures Exec(run).value.log[i].task != Exec(run).value.log[j].task
  {
    var before, a := Exec(run[..|run| - 1]).value, run[|run| - 1];
    if j < |before.log| {
      EffectsHappenOnce(run[..|run| - 1], i, j);
    } else {
      RunKeepsInv(run[..|run| - 1]);
      assert ReplyOk(before, Replay(before.log).1, a.t);
      RepliesAreOfEvents(before.log, a.t);
      assert before.log[i] == Exec(run).value.log[i];
    }
  }

  lemma RepliedIsLogged(run: seq<Action>, t: TaskId)
    requires Exec(run).Some? && t in Exec(run).value.tasks && HasReply(Exec(run).value.tasks[t])
    ensures var log := Exec(run).value.log; exists i :: 0 <= i < |log| && log[i].task == t
  {
    RunKeepsInv(run);
    var s := Exec(run).value;
    assert ReplyOk(s, Replay(s.log).1, t);
    RepliesAreOfEvents(s.log, t);
  }

  lemma {:induction false} NewcomerIsNotLogged(run: seq<Action>, u: TaskId)
    requires Exec(run).Some? && u !in Exec(run).value.tasks
    ensures var log := Exec(run).value.log; forall i :: 0 <= i < |log| ==> log[i].task != u
  {
    RunKeepsInv(run);
    RepliesAreOfEvents(Exec(run).value.log, u);
  }

  lemma {:induction false} PossiblePrefix(log: seq<Event>, n: nat)
    requires Possible(log) && n <= |log|
    ensures Possible(log[..n])
    decreases |log|
  {
    if n < |log| {
      PossiblePrefix(log[..|log| - 1], n);
      assert log[..|log| - 1][..n] == log[..n];
    } else {
      assert log[..n] == log;
    }
  }

  /** A reply stands once no later event is of the same command. */
  lemma {:induction false} ReplyStands(log: seq<Event>, n: nat, t: TaskId)
    requires n <= |log| && forall j :: n <= j < |log| ==> log[j].task != t
    ensures Lookup(Replay(log).1, t) == Lookup(Replay(log[..n]).1, t)
    decreases |log|
  {
    if n < |log| {
      ReplyStands(log[..|log| - 1], n, t);
      assert log[..|log| - 1][..n] == log[..n];
    } else {
      assert log[..n] == log;
    }
  }

  /** What a sequential history says of the command at one place in it. */
  ghost predicate TruthfulAt(log: seq<Event>, i: nat, out: Outcome)
    requires i < |log|
  {
    Truthful(Replay(log[..i]).0, Replay(log[..i + 1]).0, log[i].id, log[i].op, log[i].answer, out)
  }

  /** The reply a history gives is the one its last event of that command gave, and that one is truthful. */
  lemma {:induction false} HistoryIsTruthful(log: seq<Event>, i: nat)
    requires Possible(log) && i < |log|
    requires forall j :: i < j < |log| ==> log[j].task != log[i].task
    ensures log[i].task in Replay(log).1 && TruthfulAt(log, i, Replay(log).1[log[i].task])
  {
    var e := log[i];
    PossiblePrefix(log, i + 1);
    assert log[..i + 1][..i] == log[..i];
    ReplayAgrees(log[..i]);
    RepliesTellTheTruth(Replay(log[..i]).0, e.id, e.op, e.answer);
    ReplyStands(log, i + 1, e.task);
  }

  /** Every event is of an invoked command, with that command's verb and target. */
  lemma {:induction false} EventsAreCommands(run: seq<Action>, i: nat)
    requires Exec(run).Some? && i < |Exec(run).value.log|
    ensures var s := Exec(run).value;
            var e := s.log[i];
            e.task in s.tasks && s.tasks[e.task].op == e.op && s.tasks[e.task].target == Some(e.id)
  {
    var before, a := Exec(run[..|run| - 1]).value, run[|run| - 1];
    if i < |before.log| {
      EventsAreCommands(run[..|run| - 1], i);
    } else {
      RunKeepsInv(run[..|run| - 1]);
      assert TaskOk(before, a.t);
    }
  }

  /** The event behind a reply: of that command, and truthful about the worlds around it. */
  ghost predicate Explains(s: State, t: TaskId, i: nat)
    requires i < |s.log| && t in s.tasks && HasReply(s.tasks[t])
  {
    && s.log[i].task == t && s.log[i].op == s.tasks[t].op && Some(s.log[i].id) == s.tasks[t].target
    && TruthfulAt(s.log, i, s.tasks[t].pc.out)
  }

  /** Every reply of every run is true of what its command did, at the place where it took effect. */
  lemma {:induction false} EveryReplyIsTrue(run: seq<Action>, t: TaskId)
    requires Exec(run).Some? && t in Exec(run).value.tasks && HasReply(Exec(run).value.tasks[t])
    ensures exists i: nat :: i < |Exec(run).value.log| && Explains(Exec(run).value, t, i)
  {
    var s := Exec(run).value;
    RepliedIsLogged(run, t);
    var i :| 0 <= i < |s.log| && s.log[i].task == t;
    forall j | i < j < |s.log|
      ensures s.log[j].task != t
    {
      EffectsHappenOnce(run, i, j);
    }
    ReplyIsReplayed(run, t);
    HistoryIsTruthful(s.log, i);
    EventsAreCommands(run, i);
    assert Explains(s, t, i);
  }

  /** A command whose id does not parse does nothing and is told so. */
  lemma {:induction false} UnparsableIsRefused(run: seq<Action>, t: TaskId)
    requires Exec(run).Some? && t in Exec(run).value.tasks && Exec(run).value.tasks[t].target.None?
    ensures var s := Exec(run).value;
            && (s.tasks[t].pc == Invoked || s.tasks[t].pc == Returned(Err(InvalidId)))
            && forall e <- s.log :: e.task != t
  {
    var before := Exec(run[..|run| - 1]).value;
    if t in before.tasks {
      UnparsableIsRefused(run[..|run| - 1], t);
    } else {
      NewcomerIsNotLogged(run[..|run| - 1], t);
    }
  }

  lemma ReplyIsReplayed(run: seq<Action>, t: TaskId)
    requires Exec(run).Some? && t in Exec(run).value.tasks && HasReply(Exec(run).value.tasks[t])
    ensures var s := Exec(run).value;
            Possible(s.log) && Lookup(Replay(s.log).1, t) == Some(s.tasks[t].pc.out)
  {
    Linearizable(run);
  }

  /** A command that returned before another was invoked takes effect before it. */
  lemma RealTimeOrder(run: seq<Action>, more: seq<Action>, t: TaskId, u: TaskId)
    requires Exec(run).Some? && Exec(run + more).Some?
    requires t in Exec(run).value.tasks && HasReply(Exec(run).value.tasks[t])
    requires u !in Exec(run).value.tasks
    requires u in Exec(run + more).value.tasks && HasReply(Exec(run + more).value.tasks[u])
    ensures var log := Exec(run + more).value.log;
            exists i, j :: 0 <= i < j < |log| && log[i].task == t && log[j].task == u
  {
    var log, log' := Exec(run).value.log, Exec(run + more).value.log;
    LogOnlyGrows(run, more);
    RepliedIsLogged(run, t);
    RepliedIsLogged(run + more, u);
    NewcomerIsNotLogged(run, u);
    var i :| 0 <= i < |log| && log[i].task == t;
    var j :| 0 <= j < |log'| && log'[j].task == u;
    assert log'[i].task == t;
    assert forall k :: 0 <= k < |log| ==> log[k] == log'[k];
  }

  /** An entry marked Running or Paused names a container in exactly that state, whenever no command is inside. */
  lemma RuntimeAgreement(run: seq<Action>, id: SandboxId)
    requires Exec(run).Some? && Idle(Exec(run).value, id) && id in Exec(run).value.entries
    ensures var s := Exec(run).value;
            && (s.entries[id].state.Running? ==> Lookup(s.rt.live, s.entries[id].container) == Some(Up))
            && (s.entries[id].state.Paused? ==> Lookup(s.rt.live, s.entries[id].container) == Some(Frozen))
  {
    Linearizable(run);
    ReplayAgrees(Exec(run).value.log);
  }

  /** The lookup after a pause or unpause call finds the entry it is about to change. */
  lemma RelookupFindsEntry(run: seq<Action>, t: TaskId)
    requires Exec(run).Some? && t in Exec(run).value.tasks
    requires Exec(run).value.tasks[t].pc.Committing? && Exec(run).value.tasks[t].pc.update.SetState?
    ensures Exec(run).value.tasks[t].target.Some? && Exec(run).value.tasks[t].target.value in Exec(run).value.entries
  {
    RunKeepsInv(run);
    var s := Exec(run).value;
    assert TaskOk(s, t);
    OwnerIsInside(s, t, s.tasks[t].target.value);
    assert SlotOk(s, s.tasks[t].target.value);
  }

  // ---- the manager's methods, each run without interference ----

  class SandboxManager {
    var sandboxes: map<SandboxId, Entry>
    var commandLocks: map<SandboxId, LockId>
    var nextLock: LockId
    var runtime: Runtime

    /** Sandboxes do not share locks, and the next lock is new. */
    ghost predicate Valid()
      reads this
    {
      && (forall id <- commandLocks :: commandLocks[id] < nextLock)
      && (forall a <- commandLocks, b <- commandLocks :: commandLocks[a] == commandLocks[b] ==> a == b)
    }

    constructor ()
      ensures Valid() && sandboxes == map[] && commandLocks == map[] && runtime == EMPTY.rt
    {
      sandboxes, commandLocks, nextLock, runtime := map[], map[], 0, EMPTY.rt;
    }

    function View(): World
      reads this
    {
      World(sandboxes, runtime)
    }

    /** Locks are only ever added: commands of one sandbox share one lock, and those of two never do. */
    method CommandLock(id: SandboxId) returns (lock: LockId)
      requires Valid()
      modifies this`commandLocks, this`nextLock
      ensures Valid()
      ensures commandLocks.Keys == old(commandLocks.Keys) + {id} && commandLocks[id] == lock
      ensures forall other <- old(commandLocks) :: commandLocks[other] == old(commandLocks[other])
      ensures forall other <- commandLocks :: commandLocks[other] == lock <==> other == id
    {
      if id !in commandLocks {
        commandLocks := commandLocks[id := nextLock];
        nextLock := nextLock + 1;
      }
      lock := commandLocks[id];
    }

    method StartSandbox(raw: Option<SandboxId>, answer: Answer) returns (out: Outcome)
      requires Valid() && Allowed(runtime, CreateAndStart, answer)
      modifies this
      ensures Valid()
      ensures raw.None? ==> View() == old(View()) && out == Err(InvalidId)
      ensures raw.Some? ==> (View(), out) == Atomic(old(View()), raw.value, Start, answer)
    {
      if raw.None? { return Err(InvalidId); }
      var id := raw.value;
      var _ := CommandLock(id);
      runtime := AfterCall(runtime, CreateAndStart, answer);
      if answer.Created? {
        sandboxes := sandboxes[id := Entry(answer.c, answer.port, Running)];
        return Ok(Running);
      } else {
        sandboxes := sandboxes[id := Entry("", 0, Failed)];
        return Err(RuntimeFailure);
      }
    }

    method PauseSandbox(raw: Option<SandboxId>, answer: Answer) returns (out: Outcome)
      requires Valid() && (raw.Some? ==> AtomicAllowed(View(), raw.value, Pause, answer))
      modifies this
      ensures Valid()
      ensures raw.None? ==> View() == old(View()) && out == Err(InvalidId)
      ensures raw.Some? ==> (View(), out) == Atomic(old(View()), raw.value, Pause, answer)
    {
      if raw.None? { return Err(InvalidId); }
      var id := raw.value;
      var _ := CommandLock(id);
      if id !in sandboxes { return Err(SandboxNotFound); }
      var entry := sandboxes[id];
      if entry.state == Paused { return Ok(Paused); }
      runtime := AfterCall(runtime, PauseContainer(entry.container), answer);
      if !answer.Done? { return Err(RuntimeFailure); }
      if id in sandboxes { sandboxes := sandboxes[id := sandboxes[id].(state := Paused)]; }
      return Ok(Paused);
    }

    method UnpauseSandbox(raw: Option<SandboxId>, answer: Answer) returns (out: Outcome)
      requires Valid() && (raw.Some? ==> AtomicAllowed(View(), raw.value, Unpause, answer))
      modifies this
      ensures Valid()
      ensures raw.None? ==> View() == old(View()) && out == Err(InvalidId)
      ensures raw.Some? ==> (View(), out) == Atomic(old(View()), raw.value, Unpause, answer)
    {
      if raw.None? { return Err(InvalidId); }
      var id := raw.value;
      var _ := CommandLock(id);
      if id !in sandboxes { return Err(SandboxNotFound); }
      var entry := sandboxes[id];
      if entry.state == Running { return Ok(Running); }
      runtime := AfterCall(runtime, UnpauseContainer(entry.container), answer);
      if !answer.Done? { return Err(RuntimeFailure); }
      if id in sandboxes { sandboxes := sandboxes[id := sandboxes[id].(state := Running)]; }
      return Ok(Running);
    }

    method StopSandbox(raw: Option<SandboxId>, answer: Answer) returns (out: Outcome)
      requires Valid() && (raw.Some? ==> AtomicAllowed(View(), raw.value, Stop, answer))
      modifies this
      ensures Valid()
      ensures raw.None? ==> View() == old(View()) && out == Err(InvalidId)
      ensures raw.Some? ==> (View(), out) == Atomic(old(View()), raw.value, Stop, answer)
    {
      if raw.None? { return Err(InvalidId); }
      var id := raw.value;
      var _ := CommandLock(id);
      if id !in sandboxes { return Err(SandboxNotFound); }
      var entry := sandboxes[id];
      runtime := AfterCall(runtime, StopAndRemove(entry.container), answer);
      if !answer.Done? { return Err(RuntimeFailure); }
      sandboxes := sandboxes - {id};
      return Ok(Stopped);
    }
  }
}
