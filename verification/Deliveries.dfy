/** Deliveries as they interleave: `deliverClaim` (src/session.ts) writing its
    frames through the per-stream write chain (src/stream-write.ts), while any
    other call of the manager runs at every `await`.

    A delivery that has handed a frame to the chain is a task. Its write waits
    behind earlier writes, is accepted, buffered or refused, drains or fails to
    drain, and only later does the delivery continue. */
module Deliveries {
  import opened Sessions

  datatype WriteResult = Wrote | Threw | DrainFailed

  datatype Status = Queued | Draining | Settled(result: WriteResult) | Finished

  /** `written` counts the frames the stream has taken, as `framesWritten` does. */
  datatype Task = Task(sid: Sid, exec: ExecId, pid: Pid, frames: nat, written: nat, status: Status)

  /** A write on a stream's chain: a result frame of a task, or anybody else's message. */
  datatype Item = Frame(task: nat) | OtherMessage

  datatype Sent = Sent(task: nat, frame: nat)

  datatype World = World(
    m: Manager,
    delivering: set<Pid>,
    tasks: seq<Task>,
    chains: map<Sid, seq<Item>>,
    wire: seq<Sent>)

  datatype Acceptance = Refused | Accepted | Buffered

  datatype Event =
    | SessionOpens(sid: Sid, host: Option<HostId>, createdAt: int)
    | Registers(sid: Sid, now: int)
    | PendingRegisters(sid: Sid, p: Pending, now: int)
    | Looks(key: Key, env: Env)
    | Claims(key: Key, env: Env)
    | Delivers(sid: Sid, exec: ExecId, pid: Pid, frames: nat, deferred: bool, env: Env)
    | OtherWrites(sid: Sid)
    | OtherSettles(sid: Sid)
    | WriteStarts(sid: Sid, acceptance: Acceptance)
    | WriteDrains(sid: Sid, ok: bool)
    | Continues(task: nat, env: Env)
    | Settles(sid: Sid, now: int)
    | Abandons(sid: Sid, now: int)
    | ForgetsHeld(sid: Sid, exec: ExecId, pid: Pid)
    | Aborts(sid: Sid, exec: ExecId)
    | Resolves(key: Key, now: int)
    | Closes(sid: Sid, reason: Reason, now: int)
    | PumpStarts(sid: Sid, owner: nat, now: int)
    | PumpEnds(sid: Sid, owner: nat, now: int)
    | StreamEnds(sid: Sid, reason: Reason, now: int)
      /** Another stream takes the session over, once the old one's writes have settled. */
    | ReplacesStream(sid: Sid)
    | Disposes(now: int)

  function Chain(w: World, sid: Sid): seq<Item> {
    if sid in w.chains then w.chains[sid] else []
  }

  /** The check `deliverClaim` repeats after every await. */
  predicate Available(m: Manager, sid: Sid, exec: ExecId, pid: Pid) {
    && Owed(m, sid, exec, pid) && !m.sessions[sid].closed
    && Key(sid, exec) in m.index && m.index[Key(sid, exec)] == sid
  }

  function Deliver(w: World, sid: Sid, exec: ExecId, pid: Pid, frames: nat, deferred: bool, env: Env): World {
    if !Available(w.m, sid, exec, pid) || pid >= |w.m.objs| then
      w.(m := Classify(w.m, Key(sid, exec), env).0)
    else
      var p := w.m.objs[pid];
      if p.phase != Claimed || pid in w.delivering then w
      else if env.expired then w.(m := Close(w.m, sid, HardCapExpired, env.now))
      else
        var w1 := w.(delivering := w.delivering + {pid});
        if frames == 0 && !p.bridged && !p.aborted && !p.answered && !deferred then
          w1.(m := Close(w.m, sid, ResultWriteFailed, env.now))
        else if frames == 0 then w1.(m := Complete(w.m, sid, exec, pid, env.now))
        else
          w1.(tasks := w.tasks + [Task(sid, exec, pid, frames, 0, Queued)],
              chains := w.chains[sid := Chain(w, sid) + [Frame(|w.tasks|)]])
  }

  function SetTask(w: World, t: nat, task: Task): World
    requires t < |w.tasks|
  {
    w.(tasks := w.tasks[t := task])
  }

  function WithResult(task: Task, result: WriteResult): Task {
    task.(status := Settled(result), written := task.written + if result == Threw then 0 else 1)
  }

  /** The write at the head of the chain settles and leaves it. */
  function SettleHead(w: World, sid: Sid, result: WriteResult): World
    requires Chain(w, sid) != [] && Chain(w, sid)[0].Frame? && Chain(w, sid)[0].task < |w.tasks|
  {
    var t := Chain(w, sid)[0].task;
    var w1 := w.(chains := w.chains[sid := Chain(w, sid)[1..]]);
    SetTask(w1, t, WithResult(w.tasks[t], result))
  }

  /** Closing a session destroys its stream: a later write is refused, and a drain
      that is awaited fails. */
  predicate StreamGone(m: Manager, sid: Sid) {
    sid in m.sessions && m.sessions[sid].closed
  }

  /** The head's turn: `write` throws, takes the frame, or buffers it and waits for drain. */
  function StartWrite(w: World, sid: Sid, acceptance: Acceptance): World {
    var chain := Chain(w, sid);
    if chain == [] || chain[0].OtherMessage? || chain[0].task >= |w.tasks| || w.tasks[chain[0].task].status != Queued then w
    else
      var t := chain[0].task;
      var sent := w.(wire := w.wire + [Sent(t, w.tasks[t].written)]);
      if acceptance == Refused || StreamGone(w.m, sid) then SettleHead(w, sid, Threw)
      else if acceptance == Accepted then SettleHead(sent, sid, Wrote)
      else SetTask(sent, t, w.tasks[t].(status := Draining))
  }

  function Drain(w: World, sid: Sid, ok: bool): World {
    var chain := Chain(w, sid);
    if chain == [] || chain[0].OtherMessage? || chain[0].task >= |w.tasks| || w.tasks[chain[0].task].status != Draining then w
    else SettleHead(w, sid, if ok && !StreamGone(w.m, sid) then Wrote else DrainFailed)
  }

  /** The delivery continues after its write settled. */
  function Continue(w: World, t: nat, env: Env): World {
    if t >= |w.tasks| || !w.tasks[t].status.Settled? then w
    else
      var task := w.tasks[t];
      var done := SetTask(w, t, task.(status := Finished));
      if !Available(w.m, task.sid, task.exec, task.pid) || task.pid >= |w.m.objs| then
        done.(m := Classify(w.m, Key(task.sid, task.exec), env).0)
      else if task.status.result != Wrote then
        done.(m := Close(w.m, task.sid, if task.written == 0 then ResultWriteFailed else AmbiguousPartialWrite, env.now))
      else if task.written < task.frames then
        SetTask(w, t, task.(status := Queued)).(chains := w.chains[task.sid := Chain(w, task.sid) + [Frame(t)]])
      else
        done.(m := Complete(w.m, task.sid, task.exec, task.pid, env.now))
  }

  function Registered(m: Manager, r: Option<Manager>): Manager {
    if r.Some? then r.value else m
  }

  predicate ManagerOnly(e: Event) {
    !(e.Delivers? || e.OtherWrites? || e.OtherSettles? || e.WriteStarts? || e.WriteDrains? || e.Continues?)
  }

  /** Any other call of the manager. */
  function Called(w: World, e: Event): Manager
    requires OpenIsLive(w.m) && ManagerOnly(e)
  {
    match e
    case SessionOpens(sid, host, createdAt) =>
      if sid in w.m.sessions then w.m
      else SetSession(w.m, sid, Session(false, host, map[], [], None, None, false, false, createdAt))
    case Registers(sid, now) => Registered(w.m, Register(w.m, sid, now))
    case PendingRegisters(sid, p, now) => Registered(w.m, RegisterPending(w.m, sid, p, now))
    case Looks(key, env) => Classify(w.m, key, env).0
    case Claims(key, env) => Claim(w.m, key, env).0
    case Settles(sid, now) => SettleBridged(w.m, sid, now)
    case Abandons(sid, now) => AbandonPending(w.m, sid, now)
    case ForgetsHeld(sid, exec, pid) => ForgetHeld(w.m, sid, exec, pid).0
    case Aborts(sid, exec) => MarkAborted(w.m, sid, exec).0
    case Resolves(key, now) => Resolve(w.m, key, now)
    case Closes(sid, reason, now) => Close(w.m, sid, reason, now)
    case PumpStarts(sid, owner, now) => Registered(w.m, BeginPump(w.m, sid, owner, now))
    case PumpEnds(sid, owner, now) => EndPump(w.m, sid, owner, now).0
    case StreamEnds(sid, reason, now) => StreamEnded(w.m, sid, reason, now)
    case ReplacesStream(sid) => if Chain(w, sid) == [] then StreamReplaced(w.m, sid) else w.m
    case Disposes(now) => Dispose(w.m, now)
  }

  function Next(w: World, e: Event): World
    requires OpenIsLive(w.m)
  {
    match e
    case Delivers(sid, exec, pid, frames, deferred, env) => Deliver(w, sid, exec, pid, frames, deferred, env)
    case OtherWrites(sid) => w.(chains := w.chains[sid := Chain(w, sid) + [OtherMessage]])
    case OtherSettles(sid) =>
      if Chain(w, sid) != [] && Chain(w, sid)[0].OtherMessage? then w.(chains := w.chains[sid := Chain(w, sid)[1..]]) else w
    case WriteStarts(sid, acceptance) => StartWrite(w, sid, acceptance)
    case WriteDrains(sid, ok) => Drain(w, sid, ok)
    case Continues(t, env) => Continue(w, t, env)
    case _ => w.(m := Called(w, e))
  }

  // ------------------------------------------- what no call of the manager does

  /** How the manager may change outside a completed delivery: entries keep
      their exec and at most become claimed, an entry that has left never
      comes back, and a closed session stays closed. */
  ghost predicate Evolves(m: Manager, r: Manager) {
    && m.sessions.Keys <= r.sessions.Keys
    && |m.objs| <= |r.objs|
    && (forall q | 0 <= q < |m.objs| :: PendingEvolves(m.objs[q], r.objs[q]))
    && (forall s, e, q: Pid | Owed(r, s, e, q) && q < |m.objs| :: Owed(m, s, e, q))
    && (forall s | s in m.sessions && m.sessions[s].closed :: r.sessions[s].closed)
  }

  ghost predicate PendingEvolves(p: Pending, q: Pending) {
    q.sid == p.sid && q.exec == p.exec && (q.phase == p.phase || (p.phase == Waiting && q.phase == Claimed))
  }

  lemma EvolvesTrans(a: Manager, b: Manager, c: Manager)
    requires Evolves(a, b) && Evolves(b, c)
    ensures Evolves(a, c)
  {}

  lemma {:induction false} DropAllEvolves(m: Manager, sid: Sid, execs: seq<ExecId>, mark: Option<Mark>, now: int)
    requires sid in m.sessions
    ensures Evolves(m, DropAll(m, sid, execs, mark, now))
  {
    DropAllFrame(m, sid, execs, mark, now);
    DropAllPending(m, sid, execs, mark, now);
  }

  lemma CloseEvolves(m: Manager, sid: Sid, reason: Reason, now: int)
    ensures Evolves(m, Close(m, sid, reason, now))
  {
    if sid in m.sessions && !m.sessions[sid].closed {
      CloseEffect(m, sid, reason, now);
    }
  }

  lemma SettleEvolves(m: Manager, sid: Sid, now: int)
    ensures Evolves(m, SettleBridged(m, sid, now)) && Evolves(m, AbandonPending(m, sid, now))
  {
    if sid in m.sessions && !m.sessions[sid].closed {
      DropAllEvolves(m, sid, Settleable(m, m.sessions[sid], m.sessions[sid].order), Some(WasDelivered), now);
      DropAllEvolves(m, sid, m.sessions[sid].order, Some(Left(HostInterrupted)), now);
    }
  }

  /** Other tables do not matter to `Evolves`. */
  lemma TablesEvolve(m: Manager, r: Manager)
    requires r.sessions == m.sessions && r.objs == m.objs
    ensures Evolves(m, r)
  {}

  lemma RefreshEvolves(m: Manager, key: Key, env: Env)
    ensures Evolves(m, Refresh(m, key, env))
  {
    if key !in m.index {
    } else if !Reachable(m, key, env) {
      var m1 := m.(index := m.index - {key});
      TablesEvolve(m, m1);
      CloseEvolves(m1, m.index[key], RemoteCleanClose, env.now);
      EvolvesTrans(m, m1, Refresh(m, key, env));
    } else if env.expired {
      CloseEvolves(m, m.index[key], HardCapExpired, env.now);
    }
  }

  lemma ClassifyEvolves(m: Manager, key: Key, env: Env)
    ensures Evolves(m, Classify(m, key, env).0)
  {
    if !(Reachable(m, key, env) && !env.expired) {
      var m1 := Refresh(m, key, env);
      RefreshEvolves(m, key, env);
      TablesEvolve(m1, AnswerFromTombstone(m1, key, env.now).0);
      EvolvesTrans(m, m1, AnswerFromTombstone(m1, key, env.now).0);
    }
  }

  lemma {:induction false} EnforceCapEvolves(m: Manager, keep: Sid, now: int)
    requires OpenIsLive(m)
    ensures Evolves(m, EnforceCap(m, keep, now))
    decreases |m.open|
  {
    var oldest := Oldest(m, keep, 0, None);
    if |m.open| > m.config.maxOpen && oldest.Some? {
      var m1 := Close(m, oldest.value, OpenSessionCapExceeded, now);
      CloseEvolves(m, oldest.value, OpenSessionCapExceeded, now);
      EnforceCapEvolves(m1, keep, now);
      EvolvesTrans(m, m1, EnforceCap(m1, keep, now));
    }
  }

  lemma SupersedeEvolves(m: Manager, sid: Sid, host: HostId, now: int)
    ensures Evolves(m, Supersede(m, sid, host, now))
  {
    var prior := if host in m.byHost then m.byHost[host] else sid;
    var settled := SettleBridged(m, prior, now);
    var ended := Close(settled, prior, SupersededByNewRun, now);
    var r := Supersede(m, sid, host, now);
    SettleEvolves(m, prior, now);
    CloseEvolves(settled, prior, SupersededByNewRun, now);
    EvolvesTrans(m, settled, ended);
    SupersedeCases(m, sid, host, now);
    if r == ended.(byHost := ended.byHost[host := sid]) {
      TablesEvolve(ended, r);
      EvolvesTrans(m, ended, r);
    } else if r == settled.(byHost := settled.byHost[host := sid]) {
      TablesEvolve(settled, r);
      EvolvesTrans(m, settled, r);
    } else {
      TablesEvolve(m, r);
    }
  }

  lemma RegisterEvolves(m: Manager, sid: Sid, now: int)
    requires OpenIsLive(m)
    ensures Evolves(m, Registered(m, Register(m, sid, now)))
  {
    if sid in m.sessions && !m.sessions[sid].closed && sid !in m.open {
      var m1 := m.(open := m.open + [sid]);
      TablesEvolve(m, m1);
      if m.sessions[sid].host.Some? {
        var m2 := Supersede(m1, sid, m.sessions[sid].host.value, now);
        SupersedeEvolves(m1, sid, m.sessions[sid].host.value, now);
        EvolvesTrans(m, m1, m2);
        EnforceCapEvolves(m2, sid, now);
        EvolvesTrans(m, m2, EnforceCap(m2, sid, now));
      } else {
        EnforceCapEvolves(m1, sid, now);
        EvolvesTrans(m, m1, EnforceCap(m1, sid, now));
      }
    }
  }

  lemma AddPendingEvolves(m: Manager, sid: Sid, p: Pending)
    requires sid in m.sessions
    ensures Evolves(m, AddPending(m, sid, p))
  {}

  lemma RegisterPendingEvolves(m: Manager, sid: Sid, p: Pending, now: int)
    requires OpenIsLive(m)
    ensures Evolves(m, Registered(m, RegisterPending(m, sid, p, now)))
  {
    RegisterEvolves(m, sid, now);
    if Register(m, sid, now).Some? {
      AddPendingEvolves(Register(m, sid, now).value, sid, p);
      EvolvesTrans(m, Register(m, sid, now).value, AddPending(Register(m, sid, now).value, sid, p));
    }
  }

  lemma {:induction false} CloseAllEvolves(m: Manager, sids: seq<Sid>, reason: Reason, now: int)
    ensures Evolves(m, CloseAll(m, sids, reason, now))
    decreases |sids|
  {
    if sids != [] {
      CloseEvolves(m, sids[0], reason, now);
      CloseAllEvolves(Close(m, sids[0], reason, now), sids[1..], reason, now);
      EvolvesTrans(m, Close(m, sids[0], reason, now), CloseAll(m, sids, reason, now));
    }
  }

  /** A session may change anything but what it owes and whether it is closed. */
  lemma SetSessionEvolves(m: Manager, sid: Sid, s: Session)
    requires sid in m.sessions ==> s.pending == m.sessions[sid].pending && s.closed == m.sessions[sid].closed
    requires sid !in m.sessions ==> s.pending == map[]
    ensures Evolves(m, SetSession(m, sid, s))
  {}

  lemma EndPumpEvolves(m: Manager, sid: Sid, owner: nat, now: int)
    ensures Evolves(m, EndPump(m, sid, owner, now).0)
  {
    if sid in m.sessions && m.sessions[sid].pump == Some(owner) {
      var s := m.sessions[sid];
      var m1 := SetSession(m, sid, s.(pump := None, deferred := None));
      var m2 := SetSession(m1, sid, s.(pump := None, deferred := Some(RemoteCleanClose)));
      SetSessionEvolves(m, sid, s.(pump := None, deferred := None));
      SetSessionEvolves(m1, sid, s.(pump := None, deferred := Some(RemoteCleanClose)));
      EvolvesTrans(m, m1, m2);
      if s.deferred.Some? {
        CloseEvolves(m1, sid, s.deferred.value, now);
        EvolvesTrans(m, m1, Close(m1, sid, s.deferred.value, now));
      }
    }
  }

  lemma StreamEndedEvolves(m: Manager, sid: Sid, reason: Reason, now: int)
    ensures Evolves(m, StreamEnded(m, sid, reason, now))
  {
    CloseEvolves(m, sid, reason, now);
    if sid in m.sessions {
      SetSessionEvolves(m, sid, m.sessions[sid].(deferred := Some(reason)));
    }
  }

  lemma BeginPumpEvolves(m: Manager, sid: Sid, owner: nat, now: int)
    requires OpenIsLive(m)
    ensures Evolves(m, Registered(m, BeginPump(m, sid, owner, now)))
  {
    RegisterEvolves(m, sid, now);
    if BeginPump(m, sid, owner, now).Some? {
      var r := Register(m, sid, now).value;
      SetSessionEvolves(r, sid, r.sessions[sid].(pump := Some(owner), answeredContinuation := false));
      EvolvesTrans(m, Register(m, sid, now).value, BeginPump(m, sid, owner, now).value);
    }
  }

  // --------------------------------------------------------------- the invariant

  function Count(wire: seq<Sent>, t: nat): nat {
    if wire == [] then 0
    else Count(wire[..|wire| - 1], t) + if wire[|wire| - 1].task == t then 1 else 0
  }

  /** Frames of this task the stream holds. */
  function SentBy(task: Task): nat {
    task.written + if task.status == Draining then 1 else 0
  }

  ghost predicate WInv(w: World) {
    MInv(w.m) && TasksOk(w) && ChainsOk(w) && WireOk(w)
  }

  ghost predicate TasksOk(w: World) {
    && (forall q | q in w.delivering :: q < |w.m.objs|)
    && (forall t | 0 <= t < |w.tasks| :: TaskOk(w.m, w.delivering, w.tasks[t]))
    && (forall t, u | 0 <= t < u < |w.tasks| :: w.tasks[t].pid != w.tasks[u].pid)
  }

  /** A task writes for an entry it alone delivers; the entry is delivered
      only once the task has written its last frame. */
  ghost predicate TaskOk(m: Manager, delivering: set<Pid>, task: Task) {
    && task.pid < |m.objs| && task.pid in delivering
    && m.objs[task.pid].sid == task.sid && m.objs[task.pid].exec == task.exec
    && m.objs[task.pid].phase != Waiting
    && task.written <= task.frames
    && (task.status in {Queued, Draining, Settled(Threw)} ==> task.written < task.frames)
    && (task.status == Settled(Wrote) ==> 0 < task.written)
    && (m.objs[task.pid].phase == Delivered ==> task.status == Finished && task.written == task.frames)
  }

  /** Only the head of a chain is being written, and a task waits in one place of
      its own session's chain: no queued frame is lost. */
  ghost predicate ChainsOk(w: World) {
    && (forall sid, i | sid in w.chains && 0 <= i < |w.chains[sid]| :: ItemOk(w.tasks, sid, i, w.chains[sid][i]))
    && (forall sid | sid in w.chains :: OncePerChain(w.chains[sid]))
    && (forall t | 0 <= t < |w.tasks| :: Placed(w.tasks, w.chains, t))
  }

  ghost predicate Placed(tasks: seq<Task>, chains: map<Sid, seq<Item>>, t: nat)
    requires t < |tasks|
  {
    && (tasks[t].status == Queued ==> tasks[t].sid in chains && Frame(t) in chains[tasks[t].sid])
    && (tasks[t].status == Draining ==>
          tasks[t].sid in chains && chains[tasks[t].sid] != [] && chains[tasks[t].sid][0] == Frame(t))
  }

  ghost predicate ItemOk(tasks: seq<Task>, sid: Sid, i: nat, item: Item) {
    item.Frame? ==>
      && item.task < |tasks| && tasks[item.task].sid == sid
      && (tasks[item.task].status == Queued || (tasks[item.task].status == Draining && i == 0))
  }

  ghost predicate OncePerChain(chain: seq<Item>) {
    forall i, j | 0 <= i < j < |chain| && chain[i].Frame? :: chain[j] != chain[i]
  }

  /** Frames of a task go out in order, each once. */
  ghost predicate WireOk(w: World) {
    && (forall i | 0 <= i < |w.wire| :: w.wire[i].task < |w.tasks| && w.wire[i].frame == Count(w.wire[..i], w.wire[i].task))
    && (forall t | 0 <= t < |w.tasks| :: Count(w.wire, t) == SentBy(w.tasks[t]))
  }

  lemma ManagerMoves(w: World, m: Manager)
    requires WInv(w) && Evolves(w.m, m) && MInv(m)
    ensures WInv(w.(m := m))
  {
    forall t | 0 <= t < |w.tasks| ensures TaskOk(m, w.delivering, w.tasks[t]) {
      assert TaskOk(w.m, w.delivering, w.tasks[t]);
      assert PendingEvolves(w.m.objs[w.tasks[t].pid], m.objs[w.tasks[t].pid]);
    }
  }

  /** `pid` becomes delivered and leaves; nothing else changes but what it owed. */
  ghost predicate Finishes(m: Manager, r: Manager, pid: Pid) {
    && pid < |m.objs| && m.objs[pid].phase == Claimed
    && r.objs == m.objs[pid := m.objs[pid].(phase := Delivered)]
    && r.sessions.Keys == m.sessions.Keys
    && (forall s, e, q: Pid | Owed(r, s, e, q) :: Owed(m, s, e, q) && q != pid)
    && (forall s | s in m.sessions :: r.sessions[s].closed == m.sessions[s].closed)
  }

  lemma CompleteFinishes(m: Manager, sid: Sid, exec: ExecId, pid: Pid, now: int)
    requires MInv(m) && Owed(m, sid, exec, pid)
    requires pid < |m.objs| && m.objs[pid].phase == Claimed
    ensures Finishes(m, Complete(m, sid, exec, pid, now), pid)
  {
    var r := Complete(m, sid, exec, pid, now);
    assert EntryOk(m, sid, exec);
    forall s, e, q: Pid | Owed(r, s, e, q) ensures Owed(m, s, e, q) && q != pid {
      assert EntryOk(m, s, e);
    }
  }

  lemma AppendCount(wire: seq<Sent>, x: Sent, t: nat)
    ensures Count(wire + [x], t) == Count(wire, t) + if x.task == t then 1 else 0
  {
    assert (wire + [x])[..|wire|] == wire;
  }

  lemma WireGrows(w: World, t: nat, tasks: seq<Task>)
    requires WireOk(w) && t < |w.tasks| && |tasks| == |w.tasks| && w.tasks[t].status == Queued
    requires SentBy(tasks[t]) == SentBy(w.tasks[t]) + 1
    requires forall u | 0 <= u < |tasks| && u != t :: tasks[u] == w.tasks[u]
    ensures WireOk(w.(tasks := tasks, wire := w.wire + [Sent(t, w.tasks[t].written)]))
  {
    var x := Sent(t, w.tasks[t].written);
    var wire := w.wire + [x];
    forall i | 0 <= i < |wire| ensures wire[i].task < |tasks| && wire[i].frame == Count(wire[..i], wire[i].task) {
      assert wire[..i] == w.wire[..i];
    }
    forall u | 0 <= u < |tasks| ensures Count(wire, u) == SentBy(tasks[u]) {
      AppendCount(w.wire, x, u);
    }
  }

  lemma {:induction false} NoneSentYet(w: World, t: nat, n: nat)
    requires n <= |w.wire| && forall i | 0 <= i < n :: w.wire[i].task != t
    ensures Count(w.wire[..n], t) == 0
  {
    if n > 0 {
      NoneSentYet(w, t, n - 1);
      assert w.wire[..n][..n - 1] == w.wire[..n - 1];
    }
  }

  lemma NewTask(w: World, task: Task)
    requires WInv(w) && task.pid !in w.delivering
    requires task.written == 0 < task.frames && task.status == Queued
    requires task.pid < |w.m.objs| && w.m.objs[task.pid].phase == Claimed
    requires w.m.objs[task.pid].sid == task.sid && w.m.objs[task.pid].exec == task.exec
    ensures WInv(w.(delivering := w.delivering + {task.pid}, tasks := w.tasks + [task],
                    chains := w.chains[task.sid := Chain(w, task.sid) + [Frame(|w.tasks|)]]))
  {
    var r := w.(delivering := w.delivering + {task.pid}, tasks := w.tasks + [task],
                chains := w.chains[task.sid := Chain(w, task.sid) + [Frame(|w.tasks|)]]);
    forall t | 0 <= t < |r.tasks| ensures TaskOk(r.m, r.delivering, r.tasks[t]) {
      if t < |w.tasks| {
        assert TaskOk(w.m, w.delivering, w.tasks[t]);
      }
    }
    forall t, u | 0 <= t < u < |r.tasks| ensures r.tasks[t].pid != r.tasks[u].pid {
      assert TaskOk(w.m, w.delivering, w.tasks[t]);
    }
    Enqueued(w, task.sid, |w.tasks|, r.tasks);
    assert w.wire[..|w.wire|] == w.wire;
    NoneSentYet(w, |w.tasks|, |w.wire|);
  }

  /** A task that is in no chain joins the end of its own. */
  lemma Enqueued(w: World, sid: Sid, t: nat, tasks: seq<Task>)
    requires ChainsOk(w) && |w.tasks| <= |tasks| && t < |tasks| && (|tasks| > |w.tasks| ==> |tasks| == t + 1 == |w.tasks| + 1)
    requires tasks[t].sid == sid && tasks[t].status == Queued
    requires forall u | 0 <= u < |w.tasks| && u != t :: tasks[u] == w.tasks[u]
    requires t < |w.tasks| ==> w.tasks[t].status !in {Queued, Draining}
    ensures ChainsOk(w.(tasks := tasks, chains := w.chains[sid := Chain(w, sid) + [Frame(t)]]))
  {
    var r := w.(tasks := tasks, chains := w.chains[sid := Chain(w, sid) + [Frame(t)]]);
    forall s, i | s in r.chains && 0 <= i < |r.chains[s]| ensures ItemOk(tasks, s, i, r.chains[s][i]) {
      if s in w.chains && i < |w.chains[s]| {
        assert ItemOk(w.tasks, s, i, w.chains[s][i]);
      }
    }
    forall s | s in r.chains ensures OncePerChain(r.chains[s]) {
      if s == sid {
        forall i | 0 <= i < |Chain(w, sid)| ensures Chain(w, sid)[i] != Frame(t) {
          assert ItemOk(w.tasks, sid, i, Chain(w, sid)[i]);
        }
      } else {
        assert OncePerChain(w.chains[s]);
      }
    }
    forall u | 0 <= u < |tasks| ensures Placed(r.tasks, r.chains, u) {
      if u == t {
        assert Frame(t) == Chain(r, sid)[|Chain(w, sid)|];
      } else {
        assert Placed(w.tasks, w.chains, u);
      }
    }
  }

  /** The head leaves its chain; the others are where they were. */
  lemma Dequeued(w: World, sid: Sid, tasks: seq<Task>)
    requires ChainsOk(w) && Chain(w, sid) != [] && |tasks| == |w.tasks|
    requires forall u | 0 <= u < |tasks| && Chain(w, sid)[0] != Frame(u) :: tasks[u] == w.tasks[u]
    requires Chain(w, sid)[0].Frame? && Chain(w, sid)[0].task < |tasks| ==> tasks[Chain(w, sid)[0].task].status !in {Queued, Draining}
    ensures ChainsOk(w.(tasks := tasks, chains := w.chains[sid := Chain(w, sid)[1..]]))
  {
    var r := w.(tasks := tasks, chains := w.chains[sid := Chain(w, sid)[1..]]);
    var head := Chain(w, sid)[0];
    assert ItemOk(w.tasks, sid, 0, head);
    forall s, i | s in r.chains && 0 <= i < |r.chains[s]| ensures ItemOk(tasks, s, i, r.chains[s][i]) {
      var k := if s == sid then i + 1 else i;
      assert ItemOk(w.tasks, s, k, w.chains[s][k]);
      assert r.chains[s][i] == w.chains[s][k];
      if s == sid {
        assert OncePerChain(w.chains[sid]);
        assert w.chains[sid][k].Frame? ==> w.chains[sid][0] != w.chains[sid][k];
      }
    }
    forall s | s in r.chains ensures OncePerChain(r.chains[s]) {
      assert OncePerChain(w.chains[s]);
    }
    forall u | 0 <= u < |tasks| ensures Placed(r.tasks, r.chains, u) {
      assert Placed(w.tasks, w.chains, u);
      if head != Frame(u) && tasks[u].status == Queued && tasks[u].sid == sid {
        assert Chain(w, sid) == [head] + Chain(r, sid);
      }
    }
  }

  lemma OtherMessageKeeps(w: World, sid: Sid)
    requires WInv(w)
    ensures WInv(w.(chains := w.chains[sid := Chain(w, sid) + [OtherMessage]]))
  {
    var r := w.(chains := w.chains[sid := Chain(w, sid) + [OtherMessage]]);
    forall s, i | s in r.chains && 0 <= i < |r.chains[s]| ensures ItemOk(r.tasks, s, i, r.chains[s][i]) {
      if s in w.chains && i < |w.chains[s]| {
        assert ItemOk(w.tasks, s, i, w.chains[s][i]);
      }
    }
    forall s | s in r.chains ensures OncePerChain(r.chains[s]) {
      if s in w.chains {
        assert OncePerChain(w.chains[s]);
      }
    }
    forall u | 0 <= u < |r.tasks| ensures Placed(r.tasks, r.chains, u) {
      assert Placed(w.tasks, w.chains, u);
    }
  }

  lemma TaskMoves(w: World, t: nat, task: Task)
    requires TasksOk(w) && t < |w.tasks| && task.pid == w.tasks[t].pid && TaskOk(w.m, w.delivering, task)
    ensures TasksOk(SetTask(w, t, task))
  {
    var r := SetTask(w, t, task);
    forall u | 0 <= u < |r.tasks| ensures TaskOk(r.m, r.delivering, r.tasks[u]) {
      assert TaskOk(w.m, w.delivering, w.tasks[u]);
    }
  }

  lemma TaskSettles(w: World, t: nat, result: WriteResult)
    requires TasksOk(w) && t < |w.tasks| && w.tasks[t].status == if result == Threw then Queued else Draining
    ensures TaskOk(w.m, w.delivering, WithResult(w.tasks[t], result))
    ensures SentBy(WithResult(w.tasks[t], result)) == SentBy(w.tasks[t])
  {
    assert TaskOk(w.m, w.delivering, w.tasks[t]);
  }

  lemma SameWire(w: World, t: nat, task: Task)
    requires WireOk(w) && t < |w.tasks| && SentBy(task) == SentBy(w.tasks[t])
    ensures WireOk(SetTask(w, t, task))
  {}

  /** The head settles without a new frame on the wire. */
  lemma HeadSettles(w: World, sid: Sid, result: WriteResult)
    requires WInv(w) && Chain(w, sid) != [] && Chain(w, sid)[0].Frame? && Chain(w, sid)[0].task < |w.tasks|
    requires w.tasks[Chain(w, sid)[0].task].status == if result == Threw then Queued else Draining
    ensures WInv(SettleHead(w, sid, result))
  {
    var t := Chain(w, sid)[0].task;
    var task := WithResult(w.tasks[t], result);
    TaskSettles(w, t, result);
    TaskMoves(w, t, task);
    SameWire(w, t, task);
    Dequeued(w, sid, w.tasks[t := task]);
  }

  /** The head's frame goes to the stream. */
  lemma HeadStarts(w: World, sid: Sid)
    requires WInv(w) && Chain(w, sid) != [] && Chain(w, sid)[0].Frame? && Chain(w, sid)[0].task < |w.tasks|
    requires w.tasks[Chain(w, sid)[0].task].status == Queued
    ensures var t := Chain(w, sid)[0].task;
            WInv(w.(tasks := w.tasks[t := w.tasks[t].(status := Draining)], wire := w.wire + [Sent(t, w.tasks[t].written)]))
  {
    var t := Chain(w, sid)[0].task;
    var task := w.tasks[t].(status := Draining);
    assert TaskOk(w.m, w.delivering, w.tasks[t]);
    TaskMoves(w, t, task);
    WireGrows(w, t, w.tasks[t := task]);
    HeadDrains(w, sid);
  }

  lemma StartKeepsInv(w: World, sid: Sid, acceptance: Acceptance)
    requires WInv(w)
    ensures WInv(StartWrite(w, sid, acceptance))
  {
    var chain := Chain(w, sid);
    if chain == [] || chain[0].OtherMessage? || chain[0].task >= |w.tasks| || w.tasks[chain[0].task].status != Queued {
    } else if acceptance == Refused || StreamGone(w.m, sid) {
      HeadSettles(w, sid, Threw);
    } else {
      var t := chain[0].task;
      var draining := w.(tasks := w.tasks[t := w.tasks[t].(status := Draining)], wire := w.wire + [Sent(t, w.tasks[t].written)]);
      HeadStarts(w, sid);
      if acceptance == Accepted {
        HeadSettles(draining, sid, Wrote);
        assert StartWrite(w, sid, acceptance) == SettleHead(draining, sid, Wrote);
      } else {
        assert StartWrite(w, sid, acceptance) == draining;
      }
    }
  }

  lemma HeadDrains(w: World, sid: Sid)
    requires ChainsOk(w) && Chain(w, sid) != [] && Chain(w, sid)[0].Frame? && Chain(w, sid)[0].task < |w.tasks|
    ensures ChainsOk(SetTask(w, Chain(w, sid)[0].task, w.tasks[Chain(w, sid)[0].task].(status := Draining)))
  {
    var t := Chain(w, sid)[0].task;
    var r := SetTask(w, t, w.tasks[t].(status := Draining));
    forall s, i | s in r.chains && 0 <= i < |r.chains[s]| ensures ItemOk(r.tasks, s, i, r.chains[s][i]) {
      assert ItemOk(w.tasks, s, i, w.chains[s][i]);
      assert ItemOk(w.tasks, sid, 0, w.chains[sid][0]);
      assert OncePerChain(w.chains[s]);
    }
    forall u | 0 <= u < |r.tasks| ensures Placed(r.tasks, r.chains, u) {
      assert Placed(w.tasks, w.chains, u);
      assert ItemOk(w.tasks, sid, 0, w.chains[sid][0]);
    }
  }

  lemma DrainKeepsInv(w: World, sid: Sid, ok: bool)
    requires WInv(w)
    ensures WInv(Drain(w, sid, ok))
  {
    var chain := Chain(w, sid);
    if chain == [] || chain[0].OtherMessage? || chain[0].task >= |w.tasks| || w.tasks[chain[0].task].status != Draining {
    } else {
      HeadSettles(w, sid, if ok && !StreamGone(w.m, sid) then Wrote else DrainFailed);
    }
  }

  /** A task in no chain may change its status without touching the chains. */
  lemma OutsideChains(w: World, t: nat, task: Task)
    requires ChainsOk(w) && t < |w.tasks| && w.tasks[t].status !in {Queued, Draining} && task.status !in {Queued, Draining}
    ensures ChainsOk(SetTask(w, t, task))
  {
    var r := SetTask(w, t, task);
    forall s, i | s in r.chains && 0 <= i < |r.chains[s]| ensures ItemOk(r.tasks, s, i, r.chains[s][i]) {
      assert ItemOk(w.tasks, s, i, w.chains[s][i]);
    }
    forall s | s in r.chains ensures OncePerChain(r.chains[s]) {
      assert OncePerChain(w.chains[s]);
    }
    forall u | 0 <= u < |r.tasks| ensures Placed(r.tasks, r.chains, u) {
      assert Placed(w.tasks, w.chains, u);
    }
  }

  /** The entry an available delivery owns is claimed and undelivered. */
  lemma AvailableClaimed(w: World, t: nat)
    requires WInv(w) && t < |w.tasks| && Available(w.m, w.tasks[t].sid, w.tasks[t].exec, w.tasks[t].pid)
    ensures w.tasks[t].pid < |w.m.objs| && w.m.objs[w.tasks[t].pid].phase == Claimed
  {
    assert TaskOk(w.m, w.delivering, w.tasks[t]);
    assert EntryOk(w.m, w.tasks[t].sid, w.tasks[t].exec);
  }

  /** A finished task and its entry, delivered together. */
  lemma DeliveredTogether(w: World, m: Manager, t: nat)
    requires WInv(w) && t < |w.tasks| && MInv(m) && Finishes(w.m, m, w.tasks[t].pid)
    requires w.tasks[t].status == Finished && w.tasks[t].written == w.tasks[t].frames
    ensures WInv(w.(m := m))
  {
    forall u | 0 <= u < |w.tasks| ensures TaskOk(m, w.delivering, w.tasks[u]) {
      assert TaskOk(w.m, w.delivering, w.tasks[u]);
    }
  }

  /** An entry with no frames to write is delivered without a task. */
  lemma DeliveredWithoutFrames(w: World, m: Manager, pid: Pid)
    requires WInv(w) && MInv(m) && Finishes(w.m, m, pid) && pid !in w.delivering
    ensures WInv(w.(m := m, delivering := w.delivering + {pid}))
  {
    forall u | 0 <= u < |w.tasks| ensures TaskOk(m, w.delivering + {pid}, w.tasks[u]) {
      assert TaskOk(w.m, w.delivering, w.tasks[u]);
    }
  }

  lemma DeliveringGrows(w: World, m: Manager, pid: Pid)
    requires WInv(w) && MInv(m) && Evolves(w.m, m) && pid < |w.m.objs|
    ensures WInv(w.(m := m, delivering := w.delivering + {pid}))
  {
    ManagerMoves(w, m);
    forall u | 0 <= u < |w.tasks| ensures TaskOk(m, w.delivering + {pid}, w.tasks[u]) {
      assert TaskOk(m, w.delivering, w.tasks[u]);
    }
  }

  lemma FinishedKeepsInv(w: World, t: nat)
    requires WInv(w) && t < |w.tasks| && w.tasks[t].status.Settled?
    ensures WInv(SetTask(w, t, w.tasks[t].(status := Finished)))
  {
    assert TaskOk(w.m, w.delivering, w.tasks[t]);
    TaskMoves(w, t, w.tasks[t].(status := Finished));
    OutsideChains(w, t, w.tasks[t].(status := Finished));
  }

  lemma RequeuedKeepsInv(w: World, t: nat)
    requires WInv(w) && t < |w.tasks| && w.tasks[t].status.Settled? && w.tasks[t].written < w.tasks[t].frames
    ensures var task := w.tasks[t];
            WInv(SetTask(w, t, task.(status := Queued)).(chains := w.chains[task.sid := Chain(w, task.sid) + [Frame(t)]]))
  {
    var task := w.tasks[t];
    assert TaskOk(w.m, w.delivering, task);
    TaskMoves(w, t, task.(status := Queued));
    Enqueued(w, task.sid, t, w.tasks[t := task.(status := Queued)]);
  }

  lemma ContinueKeepsInv(w: World, t: nat, env: Env)
    requires WInv(w)
    ensures WInv(Continue(w, t, env))
  {
    if t < |w.tasks| && w.tasks[t].status.Settled? {
      var task := w.tasks[t];
      var done := SetTask(w, t, task.(status := Finished));
      assert TaskOk(w.m, w.delivering, task);
      FinishedKeepsInv(w, t);
      if !Available(w.m, task.sid, task.exec, task.pid) {
        ClassifyKeepsInv(w.m, Key(task.sid, task.exec), env);
        ClassifyEvolves(w.m, Key(task.sid, task.exec), env);
        ManagerMoves(done, Classify(w.m, Key(task.sid, task.exec), env).0);
      } else if task.status.result != Wrote {
        var reason := if task.written == 0 then ResultWriteFailed else AmbiguousPartialWrite;
        CloseKeepsInv(w.m, task.sid, reason, env.now);
        CloseEvolves(w.m, task.sid, reason, env.now);
        ManagerMoves(done, Close(w.m, task.sid, reason, env.now));
      } else if task.written < task.frames {
        RequeuedKeepsInv(w, t);
      } else {
        AvailableClaimed(w, t);
        CompleteKeepsInv(w.m, task.sid, task.exec, task.pid, env.now);
        CompleteFinishes(w.m, task.sid, task.exec, task.pid, env.now);
        DeliveredTogether(done, Complete(w.m, task.sid, task.exec, task.pid, env.now), t);
      }
    }
  }

  lemma DeliverKeepsInv(w: World, sid: Sid, exec: ExecId, pid: Pid, frames: nat, deferred: bool, env: Env)
    requires WInv(w)
    ensures WInv(Deliver(w, sid, exec, pid, frames, deferred, env))
  {
    if !Available(w.m, sid, exec, pid) || pid >= |w.m.objs| {
      ClassifyKeepsInv(w.m, Key(sid, exec), env);
      ClassifyEvolves(w.m, Key(sid, exec), env);
      ManagerMoves(w, Classify(w.m, Key(sid, exec), env).0);
    } else if w.m.objs[pid].phase != Claimed || pid in w.delivering {
    } else {
      assert EntryOk(w.m, sid, exec);
      CloseKeepsInv(w.m, sid, HardCapExpired, env.now);
      CloseEvolves(w.m, sid, HardCapExpired, env.now);
      ManagerMoves(w, Close(w.m, sid, HardCapExpired, env.now));
      CloseKeepsInv(w.m, sid, ResultWriteFailed, env.now);
      CloseEvolves(w.m, sid, ResultWriteFailed, env.now);
      DeliveringGrows(w, Close(w.m, sid, ResultWriteFailed, env.now), pid);
      CompleteKeepsInv(w.m, sid, exec, pid, env.now);
      CompleteFinishes(w.m, sid, exec, pid, env.now);
      DeliveredWithoutFrames(w, Complete(w.m, sid, exec, pid, env.now), pid);
      if frames > 0 {
        NewTask(w, Task(sid, exec, pid, frames, 0, Queued));
      }
    }
  }

  lemma ManagerCallLocal(w: World, e: Event)
    requires OpenIsLive(w.m) && ManagerOnly(e)
    ensures Next(w, e) == w.(m := Next(w, e).m)
  {}

  /** The calls about whole sessions; the other calls of the manager are about one exec or its entries. */
  predicate SessionCall(e: Event) {
    e.SessionOpens? || e.Registers? || e.Closes? || e.PumpStarts? || e.PumpEnds? || e.StreamEnds? || e.ReplacesStream? || e.Disposes?
  }

  /** Every other call of the manager keeps its tables. */
  lemma ManagerCallKeepsInv(w: World, e: Event)
    requires WInv(w) && ManagerOnly(e)
    ensures MInv(Next(w, e).m)
  {
    if SessionCall(e) {
      SessionCallKeepsInv(w, e);
    } else {
      EntryCallKeepsInv(w, e);
    }
  }

  lemma SessionCallKeepsInv(w: World, e: Event)
    requires WInv(w) && SessionCall(e)
    ensures MInv(Called(w, e))
  {
    var m := w.m;
    match e
    case SessionOpens(sid, host, createdAt) => if sid !in m.sessions { OpenKeepsInv(m, sid, host, createdAt); }
    case Registers(sid, now) => if Register(m, sid, now).Some? { RegisterKeepsInv(m, sid, now); }
    case Closes(sid, reason, now) => CloseKeepsInv(m, sid, reason, now);
    case PumpStarts(sid, owner, now) => BeginPumpKeepsInv(m, sid, owner, now);
    case PumpEnds(sid, owner, now) => EndPumpKeepsInv(m, sid, owner, now);
    case StreamEnds(sid, reason, now) => StreamEndedKeepsInv(m, sid, reason, now);
    case ReplacesStream(sid) => StreamReplacedKeepsInv(m, sid);
    case Disposes(now) => DisposeKeepsInv(m, now);
  }

  lemma EntryCallKeepsInv(w: World, e: Event)
    requires WInv(w) && ManagerOnly(e) && !SessionCall(e)
    ensures MInv(Called(w, e))
  {
    var m := w.m;
    match e
    case PendingRegisters(sid, p, now) =>
      if Register(m, sid, now).Some? {
        RegisterKeepsInv(m, sid, now);
        AddPendingKeepsInv(Register(m, sid, now).value, sid, p);
      }
    case Looks(key, env) => ClassifyKeepsInv(m, key, env);
    case Claims(key, env) => ClaimKeepsInv(m, key, env);
    case Settles(sid, now) => SettleKeepsInv(m, sid, now);
    case Abandons(sid, now) => SettleKeepsInv(m, sid, now);
    case ForgetsHeld(sid, exec, pid) => if sid in m.sessions { DropKeepsInv(m, sid, exec); }
    case Aborts(sid, exec) => AbortKeepsInv(m, sid, exec);
    case Resolves(key, now) => ResolveKeepsInv(m, key, now);
  }

  lemma ManagerCallEvolves(w: World, e: Event)
    requires WInv(w) && ManagerOnly(e)
    ensures Evolves(w.m, Next(w, e).m)
  {
    if SessionCall(e) {
      SessionCallEvolves(w, e);
    } else {
      EntryCallEvolves(w, e);
    }
  }

  lemma SessionCallEvolves(w: World, e: Event)
    requires WInv(w) && SessionCall(e)
    ensures Evolves(w.m, Called(w, e))
  {
    var m := w.m;
    match e
    case SessionOpens(sid, host, createdAt) => if sid !in m.sessions { OpenKeepsInv(m, sid, host, createdAt); }
    case Registers(sid, now) => RegisterEvolves(m, sid, now);
    case Closes(sid, reason, now) => CloseEvolves(m, sid, reason, now);
    case PumpStarts(sid, owner, now) => BeginPumpEvolves(m, sid, owner, now);
    case PumpEnds(sid, owner, now) => EndPumpEvolves(m, sid, owner, now);
    case StreamEnds(sid, reason, now) => StreamEndedEvolves(m, sid, reason, now);
    case ReplacesStream(sid) => StreamReplacedEvolves(m, sid);
    case Disposes(now) =>
      CloseAllEvolves(m, m.open, ProcessDisposed, now);
      TablesEvolve(CloseAll(m, m.open, ProcessDisposed, now), Dispose(m, now));
      EvolvesTrans(m, CloseAll(m, m.open, ProcessDisposed, now), Dispose(m, now));
  }

  lemma EntryCallEvolves(w: World, e: Event)
    requires WInv(w) && ManagerOnly(e) && !SessionCall(e)
    ensures Evolves(w.m, Called(w, e))
  {
    var m := w.m;
    match e
    case PendingRegisters(sid, p, now) => RegisterPendingEvolves(m, sid, p, now);
    case Looks(key, env) => ClassifyEvolves(m, key, env);
    case Claims(key, env) => ClaimEvolves(m, key, env);
    case Settles(sid, now) => SettleEvolves(m, sid, now);
    case Abandons(sid, now) => SettleEvolves(m, sid, now);
    case ForgetsHeld(sid, exec, pid) => ForgetEvolves(m, sid, exec, pid);
    case Aborts(sid, exec) => AbortEvolves(m, sid, exec);
    case Resolves(key, now) => ResolveEvolves(m, key, now);
  }

  lemma StreamReplacedEvolves(m: Manager, sid: Sid)
    ensures Evolves(m, StreamReplaced(m, sid))
  {}

  lemma ForgetEvolves(m: Manager, sid: Sid, exec: ExecId, pid: Pid)
    ensures Evolves(m, ForgetHeld(m, sid, exec, pid).0)
  {}

  lemma OpenKeepsInv(m: Manager, sid: Sid, host: Option<HostId>, createdAt: int)
    requires MInv(m) && sid !in m.sessions
    ensures var r := SetSession(m, sid, Session(false, host, map[], [], None, None, false, false, createdAt));
            MInv(r) && Evolves(m, r)
  {
    var r := SetSession(m, sid, Session(false, host, map[], [], None, None, false, false, createdAt));
    forall s, e | s in r.sessions && e in r.sessions[s].pending ensures EntryOk(r, s, e) {
      assert EntryOk(m, s, e);
    }
  }

  lemma ClaimKeepsInv(m: Manager, key: Key, env: Env)
    requires MInv(m)
    ensures MInv(Claim(m, key, env).0)
  {
    ClassifyKeepsInv(m, key, env);
    var (m1, c) := Classify(m, key, env);
    if c.Deliverable? {
      SetPendingKeepsInv(m1, c.pid, m1.objs[c.pid].(phase := Claimed));
    }
  }

  lemma ClaimEvolves(m: Manager, key: Key, env: Env)
    ensures Evolves(m, Claim(m, key, env).0)
  {
    ClassifyEvolves(m, key, env);
  }

  lemma AbortKeepsInv(m: Manager, sid: Sid, exec: ExecId)
    requires MInv(m)
    ensures MInv(MarkAborted(m, sid, exec).0)
  {
    if MarkAborted(m, sid, exec).1 {
      var pid := m.sessions[sid].pending[exec];
      assert EntryOk(m, sid, exec);
      SetPendingKeepsInv(m, pid, m.objs[pid].(aborted := true));
    }
  }

  lemma AbortEvolves(m: Manager, sid: Sid, exec: ExecId)
    ensures Evolves(m, MarkAborted(m, sid, exec).0)
  {}

  lemma ResolveEvolves(m: Manager, key: Key, now: int)
    ensures Evolves(m, Resolve(m, key, now))
  {}

  lemma BeginPumpKeepsInv(m: Manager, sid: Sid, owner: nat, now: int)
    requires MInv(m)
    ensures MInv(Registered(m, BeginPump(m, sid, owner, now)))
  {
    if Register(m, sid, now).Some? {
      RegisterKeepsInv(m, sid, now);
      var r := Register(m, sid, now).value;
      SetSessionKeepsInv(r, sid, r.sessions[sid].(pump := Some(owner), answeredContinuation := false));
    }
  }

  lemma EndPumpKeepsInv(m: Manager, sid: Sid, owner: nat, now: int)
    requires MInv(m)
    ensures MInv(EndPump(m, sid, owner, now).0)
  {
    if EndPump(m, sid, owner, now).1 {
      var s := m.sessions[sid];
      var m1 := SetSession(m, sid, s.(pump := None, deferred := None));
      SetSessionKeepsInv(m, sid, s.(pump := None, deferred := None));
      SetSessionKeepsInv(m1, sid, s.(pump := None, deferred := Some(RemoteCleanClose)));
      if s.deferred.Some? {
        CloseKeepsInv(m1, sid, s.deferred.value, now);
      }
    }
  }

  lemma StreamEndedCases(m: Manager, sid: Sid, reason: Reason, now: int)
    ensures var r := StreamEnded(m, sid, reason, now);
            || r == m || r == Close(m, sid, reason, now)
            || (sid in m.sessions && r == SetSession(m, sid, m.sessions[sid].(deferred := Some(reason))))
  {}

  lemma StreamEndedKeepsInv(m: Manager, sid: Sid, reason: Reason, now: int)
    requires MInv(m)
    ensures MInv(StreamEnded(m, sid, reason, now))
  {
    StreamEndedCases(m, sid, reason, now);
    CloseKeepsInv(m, sid, reason, now);
    if sid in m.sessions {
      SetSessionKeepsInv(m, sid, m.sessions[sid].(deferred := Some(reason)));
    }
  }

  lemma StreamReplacedKeepsInv(m: Manager, sid: Sid)
    requires MInv(m)
    ensures MInv(StreamReplaced(m, sid))
  {
    if sid in m.sessions {
      SetSessionKeepsInv(m, sid, m.sessions[sid].(deferred := None));
    }
  }

  /** A swap strands no frame: with its chain settled no task of the session
      still waits for a write on the old stream. */
  lemma SwapStrandsNothing(w: World, sid: Sid, t: nat)
    requires WInv(w) && t < |w.tasks| && w.tasks[t].sid == sid
    requires Chain(w, sid) == []
    ensures w.tasks[t].status != Queued && w.tasks[t].status != Draining
  {
    assert Placed(w.tasks, w.chains, t);
  }

  /** Every step of every interleaving keeps the invariant. */
  lemma NextKeepsInv(w: World, e: Event)
    requires WInv(w)
    ensures WInv(Next(w, e))
  {
    if ManagerOnly(e) {
      ManagerCallKeeps(w, e);
    } else {
      WriteKeepsInv(w, e);
    }
  }

  lemma WriteKeepsInv(w: World, e: Event)
    requires WInv(w) && !ManagerOnly(e)
    ensures WInv(Next(w, e))
  {
    match e
    case Delivers(sid, exec, pid, frames, deferred, env) => DeliverKeepsInv(w, sid, exec, pid, frames, deferred, env);
    case OtherWrites(sid) => OtherMessageKeeps(w, sid);
    case OtherSettles(sid) => if Chain(w, sid) != [] && Chain(w, sid)[0].OtherMessage? { Dequeued(w, sid, w.tasks); }
    case WriteStarts(sid, acceptance) => StartKeepsInv(w, sid, acceptance);
    case WriteDrains(sid, ok) => DrainKeepsInv(w, sid, ok);
    case Continues(t, env) => ContinueKeepsInv(w, t, env);
  }

  lemma ManagerCallKeeps(w: World, e: Event)
    requires WInv(w) && ManagerOnly(e)
    ensures WInv(Next(w, e))
  {
    ManagerCallLocal(w, e);
    ManagerCallKeepsInv(w, e);
    ManagerCallEvolves(w, e);
    ManagerMoves(w, Next(w, e).m);
  }

  // ---------------------------------------------------------- whole interleavings

  function Run(w: World, events: seq<Event>): (r: World)
    requires WInv(w)
    ensures WInv(r)
    decreases |events|
  {
    if events == [] then w
    else
      NextKeepsInv(w, events[0]);
      Run(Next(w, events[0]), events[1..])
  }

  /** The entry a call of `deliverClaim` delivers at once, when it has no frame to write. */
  function DeliverCompletes(w: World, sid: Sid, exec: ExecId, pid: Pid, frames: nat, deferred: bool, env: Env): Option<Pid> {
    if Available(w.m, sid, exec, pid) && pid < |w.m.objs| && w.m.objs[pid].phase == Claimed
       && pid !in w.delivering && !env.expired && frames == 0
       && (w.m.objs[pid].bridged || w.m.objs[pid].aborted || w.m.objs[pid].answered || deferred)
    then Some(pid) else None
  }

  /** The entry a continued delivery completes. */
  function ContinueCompletes(w: World, t: nat): Option<Pid> {
    if t < |w.tasks| && w.tasks[t].status == Settled(Wrote) && w.tasks[t].written >= w.tasks[t].frames
       && Available(w.m, w.tasks[t].sid, w.tasks[t].exec, w.tasks[t].pid)
    then Some(w.tasks[t].pid) else None
  }

  /** Is this the step that delivers an entry? */
  function Completing(w: World, e: Event): Option<Pid> {
    match e
    case Delivers(sid, exec, pid, frames, deferred, env) => DeliverCompletes(w, sid, exec, pid, frames, deferred, env)
    case Continues(t, _) => ContinueCompletes(w, t)
    case _ => None
  }

  ghost predicate Moves(m: Manager, r: Manager, done: Option<Pid>) {
    match done
    case None => Evolves(m, r)
    case Some(pid) => Finishes(m, r, pid) && Owed(m, m.objs[pid].sid, m.objs[pid].exec, pid)
  }

  /** Apart from the entry a step delivers, every step only evolves the tables. */
  lemma StepEffect(w: World, e: Event)
    requires WInv(w)
    ensures Moves(w.m, Next(w, e).m, Completing(w, e))
  {
    if ManagerOnly(e) {
      ManagerCallEvolves(w, e);
    } else {
      WriteEffect(w, e);
    }
  }

  lemma WriteEffect(w: World, e: Event)
    requires WInv(w) && !ManagerOnly(e)
    ensures Moves(w.m, Next(w, e).m, Completing(w, e))
  {
    if e.Delivers? {
      DeliverEffect(w, e.sid, e.exec, e.pid, e.frames, e.deferred, e.env);
    } else if e.Continues? {
      ContinueEffect(w, e.task, e.env);
    } else {
      ChainEventLeavesManager(w, e);
      TablesEvolve(w.m, w.m);
    }
  }

  lemma ChainEventLeavesManager(w: World, e: Event)
    requires OpenIsLive(w.m) && (e.OtherWrites? || e.OtherSettles? || e.WriteStarts? || e.WriteDrains?)
    ensures Next(w, e).m == w.m && Completing(w, e) == None
  {}

  lemma DeliverCases(w: World, sid: Sid, exec: ExecId, pid: Pid, frames: nat, deferred: bool, env: Env)
    ensures var m := Deliver(w, sid, exec, pid, frames, deferred, env).m;
            match DeliverCompletes(w, sid, exec, pid, frames, deferred, env)
            case Some(_) => m == Complete(w.m, sid, exec, pid, env.now)
            case None =>
              || m == w.m || m == Classify(w.m, Key(sid, exec), env).0
              || m == Close(w.m, sid, HardCapExpired, env.now) || m == Close(w.m, sid, ResultWriteFailed, env.now)
  {}

  lemma DeliverEffect(w: World, sid: Sid, exec: ExecId, pid: Pid, frames: nat, deferred: bool, env: Env)
    requires WInv(w)
    ensures Moves(w.m, Deliver(w, sid, exec, pid, frames, deferred, env).m,
                  DeliverCompletes(w, sid, exec, pid, frames, deferred, env))
  {
    DeliverCases(w, sid, exec, pid, frames, deferred, env);
    if DeliverCompletes(w, sid, exec, pid, frames, deferred, env).Some? {
      assert EntryOk(w.m, sid, exec);
      CompleteFinishes(w.m, sid, exec, pid, env.now);
    } else {
      ClassifyEvolves(w.m, Key(sid, exec), env);
      CloseEvolves(w.m, sid, HardCapExpired, env.now);
      CloseEvolves(w.m, sid, ResultWriteFailed, env.now);
      TablesEvolve(w.m, w.m);
    }
  }

  lemma ContinueCases(w: World, t: nat, env: Env)
    requires t < |w.tasks| && w.tasks[t].pid < |w.m.objs|
    ensures var task := w.tasks[t];
            var m := Continue(w, t, env).m;
            match ContinueCompletes(w, t)
            case Some(_) => m == Complete(w.m, task.sid, task.exec, task.pid, env.now)
            case None =>
              || m == w.m || m == Classify(w.m, Key(task.sid, task.exec), env).0
              || m == Close(w.m, task.sid, ResultWriteFailed, env.now)
              || m == Close(w.m, task.sid, AmbiguousPartialWrite, env.now)
  {}

  lemma ContinueEffect(w: World, t: nat, env: Env)
    requires WInv(w)
    ensures Moves(w.m, Continue(w, t, env).m, ContinueCompletes(w, t))
  {
    TablesEvolve(w.m, w.m);
    if t < |w.tasks| {
      var task := w.tasks[t];
      assert TaskOk(w.m, w.delivering, task);
      ContinueCases(w, t, env);
      if ContinueCompletes(w, t).Some? {
        AvailableClaimed(w, t);
        CompleteFinishes(w.m, task.sid, task.exec, task.pid, env.now);
      } else {
        ClassifyEvolves(w.m, Key(task.sid, task.exec), env);
        CloseEvolves(w.m, task.sid, ResultWriteFailed, env.now);
        CloseEvolves(w.m, task.sid, AmbiguousPartialWrite, env.now);
      }
    }
  }

  /** An entry becomes delivered at most once, while it is owed and claimed,
      by the step that completes its own delivery; after that it stays so. */
  lemma DeliveredOnce(w: World, e: Event, q: Pid)
    requires WInv(w) && q < |w.m.objs|
    ensures q < |Next(w, e).m.objs|
    ensures w.m.objs[q].phase == Delivered ==> Next(w, e).m.objs[q].phase == Delivered
    ensures w.m.objs[q].phase != Delivered ==>
              (Next(w, e).m.objs[q].phase == Delivered <==> Completing(w, e) == Some(q))
    ensures Completing(w, e) == Some(q) ==>
              w.m.objs[q].phase == Claimed && Owed(w.m, w.m.objs[q].sid, w.m.objs[q].exec, q)
  {
    StepEffect(w, e);
    PhaseMoves(w.m, Next(w, e).m, Completing(w, e), q);
  }

  lemma PhaseMoves(m: Manager, r: Manager, done: Option<Pid>, q: Pid)
    requires Moves(m, r, done) && q < |m.objs|
    ensures q < |r.objs|
    ensures m.objs[q].phase == Delivered ==> r.objs[q].phase == Delivered
    ensures m.objs[q].phase != Delivered ==> (r.objs[q].phase == Delivered <==> done == Some(q))
    ensures done == Some(q) ==> m.objs[q].phase == Claimed && Owed(m, m.objs[q].sid, m.objs[q].exec, q)
  {
    if done.None? {
      assert PendingEvolves(m.objs[q], r.objs[q]);
    }
  }

  /** A closed session never reopens. */
  lemma NeverReopens(w: World, e: Event, sid: Sid)
    requires WInv(w) && sid in w.m.sessions && w.m.sessions[sid].closed
    ensures sid in Next(w, e).m.sessions && Next(w, e).m.sessions[sid].closed
  {
    StepEffect(w, e);
  }

  /** The frames of one entry go out in order and never twice: of two frames
      on the wire for the same entry, the later one has the higher number. */
  lemma FramesInOrder(w: World, i: nat, j: nat)
    requires TasksOk(w) && WireOk(w) && i < j < |w.wire|
    requires w.tasks[w.wire[i].task].pid == w.tasks[w.wire[j].task].pid
    ensures w.wire[i].task == w.wire[j].task && w.wire[i].frame < w.wire[j].frame
  {
    CountGrows(w.wire, w.wire[i].task, i, j);
  }

  lemma {:induction false} CountGrows(wire: seq<Sent>, t: nat, i: nat, j: nat)
    requires i < j <= |wire| && wire[i].task == t
    ensures Count(wire[..i], t) < Count(wire[..j], t)
    decreases j
  {
    assert wire[..j][..j - 1] == wire[..j - 1];
    if i < j - 1 {
      CountGrows(wire, t, i, j - 1);
    }
  }

  /** Nothing is on the wire for a task but its first frames, in order. */
  lemma {:induction false} WirePrefix(w: World, t: nat, n: nat, k: nat)
    requires WireOk(w) && t < |w.tasks| && n <= |w.wire|
    requires k < Count(w.wire[..n], t)
    ensures exists i :: 0 <= i < n && w.wire[i] == Sent(t, k)
    decreases n
  {
    assert w.wire[..n][..n - 1] == w.wire[..n - 1];
    if k < Count(w.wire[..n - 1], t) {
      WirePrefix(w, t, n - 1, k);
    } else {
      assert w.wire[n - 1] == Sent(t, k);
    }
  }

  /** A delivered entry's reply is complete: every one of its frames was written. */
  lemma DeliveredMeansWritten(w: World, t: nat, k: nat)
    requires TasksOk(w) && WireOk(w) && t < |w.tasks| && w.tasks[t].pid < |w.m.objs|
    requires w.m.objs[w.tasks[t].pid].phase == Delivered
    requires k < w.tasks[t].frames
    ensures exists i :: 0 <= i < |w.wire| && w.wire[i] == Sent(t, k)
  {
    assert TaskOk(w.m, w.delivering, w.tasks[t]);
    assert w.wire[..|w.wire|] == w.wire;
    WirePrefix(w, t, |w.wire|, k);
  }

  /** The entry has left its session: closed, replaced, settled or abandoned. */
  ghost predicate Gone(m: Manager, task: Task) {
    !Owed(m, task.sid, task.exec, task.pid)
  }

  /** Frames handed to the write chain that may still be written: the one that
      waits its turn, while its session is open. */
  function HandedOver(m: Manager, task: Task): nat {
    if task.status == Queued && !StreamGone(m, task.sid) then 1 else 0
  }

  /** A delivery whose entry is gone hands over no further frame, and its entry stays gone. */
  lemma GoneStopsStep(w: World, e: Event, t: nat)
    requires WInv(w) && t < |w.tasks| && Gone(w.m, w.tasks[t])
    ensures var r := Next(w, e);
            && t < |r.tasks| && Gone(r.m, r.tasks[t]) && r.tasks[t].pid == w.tasks[t].pid
            && SentBy(r.tasks[t]) + HandedOver(r.m, r.tasks[t]) <= SentBy(w.tasks[t]) + HandedOver(w.m, w.tasks[t])
  {
    assert TaskOk(w.m, w.delivering, w.tasks[t]);
    StepEffect(w, e);
    TaskStays(w, e, t);
    if StreamGone(w.m, w.tasks[t].sid) {
      NeverReopens(w, e, w.tasks[t].sid);
    }
  }

  /** A task keeps its entry, and grows only while that entry is owed. */
  ghost predicate TaskKept(m: Manager, before: Task, after: Task) {
    && after.pid == before.pid && after.sid == before.sid && after.exec == before.exec
    && (Gone(m, before) ==> SentBy(after) + HandedOver(m, after) <= SentBy(before) + HandedOver(m, before))
  }

  lemma DeliverKeepsTasks(w: World, sid: Sid, exec: ExecId, pid: Pid, frames: nat, deferred: bool, env: Env, t: nat)
    requires t < |w.tasks|
    ensures var r := Deliver(w, sid, exec, pid, frames, deferred, env); t < |r.tasks| && r.tasks[t] == w.tasks[t]
  {}

  lemma ContinueKeepsTask(w: World, u: nat, env: Env, t: nat)
    requires t < |w.tasks|
    ensures var r := Continue(w, u, env); t < |r.tasks| && TaskKept(w.m, w.tasks[t], r.tasks[t])
  {}

  lemma WritesKeepTask(w: World, sid: Sid, acceptance: Acceptance, ok: bool, t: nat)
    requires ChainsOk(w) && t < |w.tasks|
    ensures var r := StartWrite(w, sid, acceptance); t < |r.tasks| && TaskKept(w.m, w.tasks[t], r.tasks[t])
    ensures var r := Drain(w, sid, ok); t < |r.tasks| && TaskKept(w.m, w.tasks[t], r.tasks[t])
  {
    if Chain(w, sid) != [] {
      assert ItemOk(w.tasks, sid, 0, w.chains[sid][0]);
    }
  }

  lemma TaskStays(w: World, e: Event, t: nat)
    requires WInv(w) && t < |w.tasks|
    ensures t < |Next(w, e).tasks| && TaskKept(w.m, w.tasks[t], Next(w, e).tasks[t])
  {
    match e
    case Delivers(sid, exec, pid, frames, deferred, env) => DeliverKeepsTasks(w, sid, exec, pid, frames, deferred, env, t);
    case Continues(u, env) => ContinueKeepsTask(w, u, env, t);
    case WriteStarts(sid, acceptance) => WritesKeepTask(w, sid, acceptance, true, t);
    case WriteDrains(sid, ok) => WritesKeepTask(w, sid, Accepted, ok, t);
    case OtherWrites(sid) =>
    case OtherSettles(sid) =>
    case _ => ManagerCallLocal(w, e);
  }

  /** However the run goes on, a delivery whose entry was closed or replaced
      writes at most the one frame it had already handed to the chain: none at
      all when it was waiting for drain or its session was closed. */
  lemma {:induction false} GoneStops(w: World, events: seq<Event>, t: nat)
    requires WInv(w) && t < |w.tasks| && Gone(w.m, w.tasks[t])
    ensures var r := Run(w, events);
            t < |r.tasks| && Count(r.wire, t) <= Count(w.wire, t) + HandedOver(w.m, w.tasks[t])
    ensures w.m.objs[w.tasks[t].pid].phase != Delivered ==>
              var r := Run(w, events);
              w.tasks[t].pid < |r.m.objs| && r.m.objs[w.tasks[t].pid].phase != Delivered
    decreases |events|
  {
    assert TaskOk(w.m, w.delivering, w.tasks[t]);
    if events != [] {
      NextKeepsInv(w, events[0]);
      var w1 := Next(w, events[0]);
      GoneStopsStep(w, events[0], t);
      DeliveredOnce(w, events[0], w.tasks[t].pid);
      GoneStops(w1, events[1..], t);
      assert Count(w.wire, t) == SentBy(w.tasks[t]) && Count(w1.wire, t) == SentBy(w1.tasks[t]);
    }
  }

  lemma RunCons(w: World, e: Event, events: seq<Event>)
    requires WInv(w)
    ensures WInv(Next(w, e)) && Run(w, [e] + events) == Run(Next(w, e), events)
  {
    NextKeepsInv(w, e);
    assert ([e] + events)[1..] == events;
  }

  /** What settles the write at the head of a chain without a frame of another task. */
  function Settling(w: World, sid: Sid): Event {
    var chain := Chain(w, sid);
    if chain != [] && chain[0].Frame? && chain[0].task < |w.tasks| then
      if w.tasks[chain[0].task].status == Queued then WriteStarts(sid, Refused) else WriteDrains(sid, true)
    else OtherSettles(sid)
  }

  /** A write ahead of a queued frame settles, and the frame moves up. */
  lemma AheadSettles(w: World, sid: Sid, t: nat)
    requires WInv(w) && t < |w.tasks| && w.tasks[t].status == Queued && w.tasks[t].sid == sid
    requires Chain(w, sid) != [] && Chain(w, sid)[0] != Frame(t)
    ensures var r := Next(w, Settling(w, sid));
            && r.m == w.m && r.wire == w.wire && Chain(r, sid) == Chain(w, sid)[1..]
            && t < |r.tasks| && r.tasks[t] == w.tasks[t]
  {
    assert ItemOk(w.tasks, sid, 0, w.chains[sid][0]);
  }

  lemma HeadGoesOut(w: World, sid: Sid, t: nat)
    requires WInv(w) && t < |w.tasks| && w.tasks[t].status == Queued && w.tasks[t].sid == sid
    requires Chain(w, sid) != [] && Chain(w, sid)[0] == Frame(t) && !StreamGone(w.m, sid)
    ensures Next(w, WriteStarts(sid, Accepted)).wire == w.wire + [Sent(t, w.tasks[t].written)]
  {}

  lemma {:induction false} FrameAtGoesOut(w: World, t: nat, k: nat) returns (events: seq<Event>)
    requires WInv(w) && t < |w.tasks| && w.tasks[t].status == Queued && !StreamGone(w.m, w.tasks[t].sid)
    requires k < |Chain(w, w.tasks[t].sid)| && Chain(w, w.tasks[t].sid)[k] == Frame(t)
    ensures Run(w, events).wire == w.wire + [Sent(t, w.tasks[t].written)]
    decreases k
  {
    var sid := w.tasks[t].sid;
    if Chain(w, sid)[0] == Frame(t) {
      HeadGoesOut(w, sid, t);
      events := [WriteStarts(sid, Accepted)];
      RunCons(w, WriteStarts(sid, Accepted), []);
    } else {
      var e := Settling(w, sid);
      AheadSettles(w, sid, t);
      NextKeepsInv(w, e);
      var rest := FrameAtGoesOut(Next(w, e), t, k - 1);
      RunCons(w, e, rest);
      events := [e] + rest;
    }
  }

  /** No queued frame is lost: while its session is open, some continuation writes it. */
  lemma QueuedGoesOut(w: World, t: nat) returns (events: seq<Event>)
    requires WInv(w) && t < |w.tasks| && w.tasks[t].status == Queued && !StreamGone(w.m, w.tasks[t].sid)
    ensures Run(w, events).wire == w.wire + [Sent(t, w.tasks[t].written)]
    ensures Count(Run(w, events).wire, t) == Count(w.wire, t) + 1
  {
    assert Placed(w.tasks, w.chains, t);
    var chain := Chain(w, w.tasks[t].sid);
    var k :| 0 <= k < |chain| && chain[k] == Frame(t);
    events := FrameAtGoesOut(w, t, k);
    AppendCount(w.wire, Sent(t, w.tasks[t].written), t);
  }

  /** Exactly when a delivery whose entry is gone can still write: its next frame
      waits in the chain and its session is open. */
  lemma GoneWritesIff(w: World, t: nat)
    requires WInv(w) && t < |w.tasks| && Gone(w.m, w.tasks[t])
    ensures (exists events :: Count(Run(w, events).wire, t) > Count(w.wire, t))
            <==> w.tasks[t].status == Queued && !StreamGone(w.m, w.tasks[t].sid)
  {
    if w.tasks[t].status == Queued && !StreamGone(w.m, w.tasks[t].sid) {
      var events := QueuedGoesOut(w, t);
    } else {
      forall events: seq<Event>
        ensures Count(Run(w, events).wire, t) <= Count(w.wire, t)
      {
        GoneStops(w, events, t);
      }
    }
  }

  /** At most one writer: two live deliveries never serve the same entry. */
  lemma OneWriter(w: World, t: nat, u: nat)
    requires TasksOk(w) && t < |w.tasks| && u < |w.tasks| && w.tasks[t].pid == w.tasks[u].pid
    ensures t == u
  {}

  lemma CompleteTables(m: Manager, sid: Sid, exec: ExecId, pid: Pid, now: int)
    requires sid in m.sessions && pid < |m.objs|
    ensures var r := Complete(m, sid, exec, pid, now);
            r.tombs == PutTombstone(m, Key(sid, exec), WasDelivered, now).tombs && Key(sid, exec) !in r.index
  {}

  lemma MarkFound(m: Manager, r: Manager, key: Key, now: int)
    requires m.config.tombstoneLimit > 0 && r.tombs == PutTombstone(m, key, WasDelivered, now).tombs
    ensures FindTombstone(r.tombs, key) == Some(Tombstone(key, WasDelivered, now + m.config.tombstoneTtl))
  {
    PutTombstoneFinds(m, key, WasDelivered, now);
  }

  /** The key of a delivered entry, until `expiresAt`. */
  ghost predicate MarkedDelivered(m: Manager, key: Key, expiresAt: int) {
    key !in m.index && FindTombstone(m.tombs, key) == Some(Tombstone(key, WasDelivered, expiresAt))
  }

  /** A completed delivery marks its key, whatever else was marked before. */
  lemma CompleteMarks(m: Manager, sid: Sid, exec: ExecId, pid: Pid, now: int)
    requires sid in m.sessions && pid < |m.objs| && m.config.tombstoneLimit > 0
    ensures MarkedDelivered(Complete(m, sid, exec, pid, now), Key(sid, exec), now + m.config.tombstoneTtl)
  {
    CompleteTables(m, sid, exec, pid, now);
    MarkFound(m, Complete(m, sid, exec, pid, now), Key(sid, exec), now);
  }

  /** A second result for a marked key is a duplicate of a delivered one exactly until the mark expires. */
  lemma MarkedIsDuplicate(m: Manager, key: Key, expiresAt: int, env: Env)
    requires MarkedDelivered(m, key, expiresAt)
    ensures Classify(m, key, env).1 == if env.now < expiresAt then Duplicate(true) else Missing
  {}

  function Empty(config: Config): (w: World)
    ensures WInv(w)
  {
    World(Manager(config, map[], [], [], map[], map[], []), {}, [], map[], [])
  }

  /** Over every interleaving, from an empty manager: the exec index holds an exec
      exactly while it is pending on its session, that session is open, a closed
      session is in no table, and the tombstones stay within their limit. */
  lemma ReachableTables(config: Config, events: seq<Event>, w: World)
    requires w == Run(Empty(config), events)
    ensures forall k :: k in w.m.index <==> k.sid in w.m.sessions && k.exec in w.m.sessions[k.sid].pending
    ensures forall k | k in w.m.index :: w.m.index[k] == k.sid && !w.m.sessions[k.sid].closed && k.sid in w.m.open
    ensures forall sid | sid in w.m.sessions && w.m.sessions[sid].closed ::
              sid !in w.m.open && w.m.sessions[sid].pending == map[] && (forall h | h in w.m.byHost :: w.m.byHost[h] != sid)
    ensures |w.m.tombs| <= w.m.config.tombstoneLimit
  {
    forall k | k in w.m.index
      ensures w.m.index[k] == k.sid && !w.m.sessions[k.sid].closed && k.sid in w.m.open
    {
      assert EntryOk(w.m, k.sid, k.exec);
    }
    forall sid | sid in w.m.sessions && w.m.sessions[sid].closed
      ensures sid !in w.m.open && w.m.sessions[sid].pending == map[] && (forall h | h in w.m.byHost :: w.m.byHost[h] != sid)
    {
      ClosedIsGone(w.m, sid);
    }
  }

  /** Exec 7 of a session, delivered as two frames, the first queued behind another message. */
  function Waiting7(): World {
    World(
      Manager(Config(10, 100, 24),
              map[1 := Session(false, None, map[7 := 0], [7], None, None, false, false, 0)],
              [Pending(1, 7, Claimed, false, false, false)],
              [1], map[], map[Key(1, 7) := 1], []),
      {0}, [Task(1, 7, 0, 2, 0, Queued)], map[1 := [OtherMessage, Frame(0)]], [])
  }

  const FRESH7 := Pending(1, 7, Waiting, false, false, false)
  const IDLE := Env(0, false, false)

  function Opened7(): World {
    World(Manager(Config(10, 100, 24), map[1 := Session(false, None, map[], [], None, None, false, false, 0)],
                  [], [], map[], map[], []), {}, [], map[], [])
  }

  function Registered7(chains: map<Sid, seq<Item>>): World {
    World(Manager(Config(10, 100, 24), map[1 := Session(false, None, map[7 := 0], [7], None, None, false, false, 0)],
                  [FRESH7], [1], map[], map[Key(1, 7) := 1], []), {}, [], chains, [])
  }

  lemma StepTo(w: World, e: Event, next: World)
    requires WInv(w) && Next(w, e) == next
    ensures WInv(next)
  {
    NextKeepsInv(w, e);
  }

  lemma Opens7()
    ensures Next(Empty(Config(10, 100, 24)), SessionOpens(1, None, 0)) == Opened7() && WInv(Opened7())
  {
    StepTo(Empty(Config(10, 100, 24)), SessionOpens(1, None, 0), Opened7());
  }

  lemma RegisterStep7()
    ensures OpenIsLive(Opened7().m) && Next(Opened7(), PendingRegisters(1, FRESH7, 0)) == Registered7(map[])
  {
    var m := Opened7().m;
    assert Register(m, 1, 0) == Some(m.(open := [1])) by {
      assert m.open + [1] == [1];
    }
    AddStep7(m.(open := [1]));
  }

  lemma AddStep7(m: Manager)
    requires m == Opened7().m.(open := [1])
    ensures AddPending(m, 1, FRESH7) == Registered7(map[]).m
  {
    var r := AddPending(m, 1, FRESH7);
    assert r.objs == [FRESH7] && r.index == map[Key(1, 7) := 1];
    assert r.sessions[1].order == [7] && r.sessions[1].pending == map[7 := 0];
    assert r.sessions == Registered7(map[]).m.sessions;
  }

  lemma Registers7()
    ensures WInv(Opened7()) && Next(Opened7(), PendingRegisters(1, FRESH7, 0)) == Registered7(map[])
    ensures WInv(Registered7(map[]))
  {
    Opens7();
    RegisterStep7();
    StepTo(Opened7(), PendingRegisters(1, FRESH7, 0), Registered7(map[]));
  }

  lemma OtherWriteStep7()
    ensures OpenIsLive(Registered7(map[]).m)
    ensures Next(Registered7(map[]), OtherWrites(1)) == Registered7(map[1 := [OtherMessage]])
  {
    var none: map<Sid, seq<Item>> := map[];
    assert Chain(Registered7(none), 1) + [OtherMessage] == [OtherMessage];
    assert none[1 := [OtherMessage]] == map[1 := [OtherMessage]];
  }

  lemma OtherWrites7()
    ensures WInv(Registered7(map[])) && Next(Registered7(map[]), OtherWrites(1)) == Registered7(map[1 := [OtherMessage]])
    ensures WInv(Registered7(map[1 := [OtherMessage]]))
  {
    Registers7();
    OtherWriteStep7();
    StepTo(Registered7(map[]), OtherWrites(1), Registered7(map[1 := [OtherMessage]]));
  }

  function Claimed7(): World {
    Registered7(map[1 := [OtherMessage]]).(m := Waiting7().m)
  }

  lemma ClaimStep7()
    ensures var w := Registered7(map[1 := [OtherMessage]]);
            OpenIsLive(w.m) && Next(w, Claims(Key(1, 7), IDLE)) == Claimed7()
  {
    var w := Registered7(map[1 := [OtherMessage]]);
    assert Classify(w.m, Key(1, 7), IDLE) == (w.m, Deliverable(0));
  }

  lemma Claims7()
    ensures WInv(Registered7(map[1 := [OtherMessage]]))
    ensures Next(Registered7(map[1 := [OtherMessage]]), Claims(Key(1, 7), IDLE)) == Claimed7() && WInv(Claimed7())
  {
    OtherWrites7();
    ClaimStep7();
    StepTo(Registered7(map[1 := [OtherMessage]]), Claims(Key(1, 7), IDLE), Claimed7());
  }

  lemma DeliverStep7()
    ensures OpenIsLive(Claimed7().m) && Next(Claimed7(), Delivers(1, 7, 0, 2, false, IDLE)) == Waiting7()
  {
    var w := Claimed7();
    assert Available(w.m, 1, 7, 0);
    assert w.delivering + {0} == {0};
    assert [OtherMessage] + [Frame(0)] == [OtherMessage, Frame(0)];
    assert w.chains[1 := [OtherMessage, Frame(0)]] == map[1 := [OtherMessage, Frame(0)]];
  }

  lemma Delivers7()
    ensures WInv(Claimed7()) && Next(Claimed7(), Delivers(1, 7, 0, 2, false, IDLE)) == Waiting7() && WInv(Waiting7())
  {
    Claims7();
    DeliverStep7();
    StepTo(Claimed7(), Delivers(1, 7, 0, 2, false, IDLE), Waiting7());
  }

  lemma Joined(w: World, e: Event, next: World, rest: seq<Event>, end: World)
    requires WInv(w) && WInv(next) && Next(w, e) == next && Run(next, rest) == end
    ensures Run(w, [e] + rest) == end
  {
    RunCons(w, e, rest);
  }

  lemma From4(e: Event)
    requires e == Delivers(1, 7, 0, 2, false, IDLE)
    ensures WInv(Claimed7()) && Run(Claimed7(), [e] + []) == Waiting7()
  {
    Delivers7();
    Joined(Claimed7(), e, Waiting7(), [], Waiting7());
  }

  lemma From3(e: Event, rest: seq<Event>)
    requires e == Claims(Key(1, 7), IDLE)
    requires WInv(Claimed7()) && Run(Claimed7(), rest) == Waiting7()
    ensures WInv(Registered7(map[1 := [OtherMessage]])) && Run(Registered7(map[1 := [OtherMessage]]), [e] + rest) == Waiting7()
  {
    Claims7();
    Joined(Registered7(map[1 := [OtherMessage]]), e, Claimed7(), rest, Waiting7());
  }

  lemma From2(e: Event, rest: seq<Event>)
    requires e == OtherWrites(1)
    requires WInv(Registered7(map[1 := [OtherMessage]])) && Run(Registered7(map[1 := [OtherMessage]]), rest) == Waiting7()
    ensures WInv(Registered7(map[])) && Run(Registered7(map[]), [e] + rest) == Waiting7()
  {
    OtherWrites7();
    Joined(Registered7(map[]), e, Registered7(map[1 := [OtherMessage]]), rest, Waiting7());
  }

  lemma From1(e: Event, rest: seq<Event>)
    requires e == PendingRegisters(1, FRESH7, 0)
    requires WInv(Registered7(map[])) && Run(Registered7(map[]), rest) == Waiting7()
    ensures WInv(Opened7()) && Run(Opened7(), [e] + rest) == Waiting7()
  {
    Registers7();
    Joined(Opened7(), e, Registered7(map[]), rest, Waiting7());
  }

  lemma From0(e: Event, rest: seq<Event>)
    requires e == SessionOpens(1, None, 0)
    requires WInv(Opened7()) && Run(Opened7(), rest) == Waiting7()
    ensures Run(Empty(Config(10, 100, 24)), [e] + rest) == Waiting7()
  {
    Opens7();
    Joined(Empty(Config(10, 100, 24)), e, Opened7(), rest, Waiting7());
  }

  /** `Waiting7` is reached from an empty manager: a session opens, its exec
      registers, another message is being written, the result is claimed and
      delivered. */
  lemma Waiting7Reached() returns (events: seq<Event>)
    ensures Run(Empty(Config(10, 100, 24)), events) == Waiting7() && WInv(Waiting7())
  {
    Delivers7();
    From4(Delivers(1, 7, 0, 2, false, IDLE));
    events := [Delivers(1, 7, 0, 2, false, IDLE)] + [];
    From3(Claims(Key(1, 7), IDLE), events);
    events := [Claims(Key(1, 7), IDLE)] + events;
    From2(OtherWrites(1), events);
    events := [OtherWrites(1)] + events;
    From1(PendingRegisters(1, FRESH7, 0), events);
    events := [PendingRegisters(1, FRESH7, 0)] + events;
    From0(SessionOpens(1, None, 0), events);
    events := [SessionOpens(1, None, 0)] + events;
  }

  /** The same world after exec 7 was registered again. */
  function Replaced7(): World {
    var w := Waiting7();
    w.(m := w.m.(sessions := map[1 := Session(false, None, map[7 := 1], [7], None, None, false, false, 0)],
                 objs := [Pending(1, 7, Claimed, false, false, false), Pending(1, 7, Waiting, false, false, false)]))
  }

  lemma ReplacesEntry()
    ensures WInv(Waiting7())
    ensures Next(Waiting7(), PendingRegisters(1, FRESH7, 0)) == Replaced7()
  {
    Delivers7();
    var m := Waiting7().m;
    var p := Pending(1, 7, Waiting, false, false, false);
    assert RegisterPending(m, 1, p, 0) == Some(AddPending(m, 1, p));
    var r := AddPending(m, 1, p);
    assert r.sessions[1].pending == map[7 := 1];
    assert r.sessions == map[1 := Session(false, None, map[7 := 1], [7], None, None, false, false, 0)];
    assert r.index == map[Key(1, 7) := 1];
    assert r.tombs == [];
  }

  /** The one frame of `GoneStops` is real: a frame queued behind somebody else's
      write goes out although its entry was replaced while it waited. */
  lemma QueuedFrameOutlivesEntry()
    ensures WInv(Waiting7()) && Owed(Waiting7().m, 1, 7, 0)
    ensures Next(Waiting7(), PendingRegisters(1, FRESH7, 0)) == Replaced7()
    ensures WInv(Replaced7()) && Gone(Replaced7().m, Replaced7().tasks[0]) && Replaced7().wire == []
    ensures Run(Replaced7(), [OtherSettles(1), WriteStarts(1, Accepted)]).wire == [Sent(0, 0)]
  {
    ReplacesEntry();
    ReplacedInvariant();
    ReplacedStillWrites();
  }

  lemma ReplacedInvariant()
    ensures WInv(Replaced7())
  {
    ReplacesEntry();
    NextKeepsInv(Waiting7(), PendingRegisters(1, FRESH7, 0));
  }

  function Unblocked7(): World {
    Replaced7().(chains := map[1 := [Frame(0)]])
  }

  lemma ReplacedUnblocks()
    ensures Next(Replaced7(), OtherSettles(1)) == Unblocked7()
  {
    assert Replaced7().chains[1 := Chain(Replaced7(), 1)[1..]] == map[1 := [Frame(0)]];
  }

  lemma UnblockedWrites()
    ensures StartWrite(Unblocked7(), 1, Accepted).wire == [Sent(0, 0)]
  {}

  lemma ReplacedStillWrites()
    requires WInv(Replaced7())
    ensures Run(Replaced7(), [OtherSettles(1), WriteStarts(1, Accepted)]).wire == [Sent(0, 0)]
  {
    ReplacedUnblocks();
    UnblockedWrites();
    RunTwo(Replaced7(), OtherSettles(1), WriteStarts(1, Accepted));
  }

  lemma RunTwo(w: World, e: Event, f: Event)
    requires WInv(w)
    ensures WInv(Next(w, e)) && Run(w, [e, f]) == Next(Next(w, e), f)
  {
    NextKeepsInv(w, e);
    NextKeepsInv(Next(w, e), f);
    assert [e, f][1..] == [f];
    assert Run(w, [e, f]) == Run(Next(w, e), [f]);
    assert Run(Next(w, e), [f]) == Run(Next(Next(w, e), f), []);
  }
}
