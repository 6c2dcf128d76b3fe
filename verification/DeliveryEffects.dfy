/** What each step of a delivery (`deliverClaim` in src/session.ts over
    src/stream-write.ts) does, spelled out over tasks, chains, wire and tables,
    and that no delivery is left behind. */
module DeliveryEffects {

  import opened Sessions
  import opened Deliveries
  import opened SessionEffects

  // -------------------------------------------------------- nothing left behind

  /** The entry is still owed to Cursor. */
  ghost predicate StillOwed(m: Manager, q: Pid) {
    q < |m.objs| && Owed(m, m.objs[q].sid, m.objs[q].exec, q)
  }

  ghost predicate BeingWritten(w: World, q: Pid) {
    exists t :: 0 <= t < |w.tasks| && w.tasks[t].pid == q && w.tasks[t].status != Finished
  }

  /** Every entry a delivery was started for is delivered, gone, or still being written. */
  ghost predicate NoneStranded(w: World) {
    forall q | q in w.delivering && StillOwed(w.m, q) :: BeingWritten(w, q)
  }

  /** So a delivery that has ended owes nothing any more. */
  lemma FinishedOwesNothing(w: World, t: nat)
    requires WInv(w) && NoneStranded(w) && t < |w.tasks| && w.tasks[t].status == Finished
    ensures !StillOwed(w.m, w.tasks[t].pid) && !Owed(w.m, w.tasks[t].sid, w.tasks[t].exec, w.tasks[t].pid)
  {
    assert TaskOk(w.m, w.delivering, w.tasks[t]);
  }

  lemma OwedBefore(m: Manager, r: Manager, q: Pid)
    requires Evolves(m, r) && StillOwed(r, q) && q < |m.objs|
    ensures StillOwed(m, q)
  {
    assert PendingEvolves(m.objs[q], r.objs[q]);
  }

  lemma DeliveringKnown(w: World, q: Pid)
    requires WInv(w) && q in w.delivering
    ensures q < |w.m.objs|
  {}

  lemma ManagerCallStrandsNone(w: World, e: Event)
    requires WInv(w) && NoneStranded(w) && ManagerOnly(e)
    ensures NoneStranded(Next(w, e))
  {
    var r := Next(w, e);
    ManagerCallEvolves(w, e);
    ManagerCallLocal(w, e);
    forall q | q in r.delivering && StillOwed(r.m, q) ensures BeingWritten(r, q) {
      DeliveringKnown(w, q);
      OwedBefore(w.m, r.m, q);
      assert BeingWritten(w, q);
    }
  }

  /** Tasks may change, but none ends. */
  lemma TasksGoOn(w: World, r: World)
    requires NoneStranded(w) && r.m == w.m && r.delivering == w.delivering && |r.tasks| == |w.tasks|
    requires forall t | 0 <= t < |w.tasks| :: r.tasks[t].pid == w.tasks[t].pid && (r.tasks[t].status == Finished ==> w.tasks[t].status == Finished)
    ensures NoneStranded(r)
  {
    forall q | q in r.delivering && StillOwed(r.m, q) ensures BeingWritten(r, q) {
      assert BeingWritten(w, q);
      var t :| 0 <= t < |w.tasks| && w.tasks[t].pid == q && w.tasks[t].status != Finished;
      assert r.tasks[t].pid == q;
    }
  }

  lemma ChainEventStrandsNone(w: World, e: Event)
    requires WInv(w) && NoneStranded(w) && (e.OtherWrites? || e.OtherSettles? || e.WriteStarts? || e.WriteDrains?)
    ensures NoneStranded(Next(w, e))
  {
    ChainEventLeavesManager(w, e);
    TasksGoOn(w, Next(w, e));
  }

  /** The task ends, and its entry is not owed afterwards. */
  lemma OneEnds(w: World, r: World, t: nat)
    requires WInv(w) && NoneStranded(w) && t < |w.tasks| && r.delivering == w.delivering
    requires r.tasks == w.tasks[t := w.tasks[t].(status := Finished)]
    requires Evolves(w.m, r.m) || (|r.m.objs| == |w.m.objs| && forall q | StillOwed(r.m, q) :: StillOwed(w.m, q))
    requires !StillOwed(r.m, w.tasks[t].pid)
    ensures NoneStranded(r)
  {
    forall q | q in r.delivering && StillOwed(r.m, q) ensures BeingWritten(r, q) {
      DeliveringKnown(w, q);
      if Evolves(w.m, r.m) {
        OwedBefore(w.m, r.m, q);
      }
      assert BeingWritten(w, q);
      var u :| 0 <= u < |w.tasks| && w.tasks[u].pid == q && w.tasks[u].status != Finished;
      assert r.tasks[u] == w.tasks[u];
    }
  }

  lemma FinishesOwes(m: Manager, r: Manager, pid: Pid, q: Pid)
    requires Finishes(m, r, pid) && StillOwed(r, q)
    ensures StillOwed(m, q) && q != pid
  {
    assert Owed(r, r.objs[q].sid, r.objs[q].exec, q);
  }

  /** Closing the session leaves none of its entries owed. */
  lemma ClosedOwesNone(m: Manager, sid: Sid, reason: Reason, now: int, q: Pid)
    requires MInv(m) && sid in m.sessions && q < |m.objs| && m.objs[q].sid == sid
    ensures !StillOwed(Close(m, sid, reason, now), q)
  {
    CloseKeepsInv(m, sid, reason, now);
    CloseEffect(m, sid, reason, now);
    ClosedIsGone(Close(m, sid, reason, now), sid);
  }

  lemma UnavailableNotOwed(m: Manager, sid: Sid, exec: ExecId, pid: Pid)
    requires MInv(m)
    ensures Available(m, sid, exec, pid) <==> Owed(m, sid, exec, pid)
  {
    if Owed(m, sid, exec, pid) {
      assert EntryOk(m, sid, exec) && OrderOk(m.sessions[sid]);
      assert Key(sid, exec) in m.index;
    }
  }

  lemma ContinueStrandsNone(w: World, t: nat, env: Env)
    requires WInv(w) && NoneStranded(w) && t < |w.tasks| && w.tasks[t].status.Settled?
    ensures NoneStranded(Continue(w, t, env))
  {
    var task := w.tasks[t];
    assert TaskOk(w.m, w.delivering, task);
    UnavailableNotOwed(w.m, task.sid, task.exec, task.pid);
    if !Owed(w.m, task.sid, task.exec, task.pid) {
      EndsUnowed(w, t, env);
    } else if task.status.result != Wrote {
      EndsFailed(w, t, env);
    } else if task.written < task.frames {
      TasksGoOn(w, Continue(w, t, env));
    } else {
      EndsDelivered(w, t, env);
    }
  }

  lemma EndsUnowed(w: World, t: nat, env: Env)
    requires WInv(w) && NoneStranded(w) && t < |w.tasks| && w.tasks[t].status.Settled?
    requires !Available(w.m, w.tasks[t].sid, w.tasks[t].exec, w.tasks[t].pid)
    requires !Owed(w.m, w.tasks[t].sid, w.tasks[t].exec, w.tasks[t].pid)
    ensures NoneStranded(Continue(w, t, env))
  {
    var task, r := w.tasks[t], Continue(w, t, env);
    assert TaskOk(w.m, w.delivering, task);
    ClassifyEvolves(w.m, Key(task.sid, task.exec), env);
    if StillOwed(r.m, task.pid) {
      OwedBefore(w.m, r.m, task.pid);
    }
    OneEnds(w, r, t);
  }

  lemma FailureCloses(w: World, t: nat, env: Env, reason: Reason)
    requires t < |w.tasks| && w.tasks[t].status.Settled? && w.tasks[t].status.result != Wrote
    requires Available(w.m, w.tasks[t].sid, w.tasks[t].exec, w.tasks[t].pid) && w.tasks[t].pid < |w.m.objs|
    requires reason == if w.tasks[t].written == 0 then ResultWriteFailed else AmbiguousPartialWrite
    ensures Continue(w, t, env)
         == w.(tasks := w.tasks[t := w.tasks[t].(status := Finished)], m := Close(w.m, w.tasks[t].sid, reason, env.now))
  {}

  lemma EndsFailed(w: World, t: nat, env: Env)
    requires WInv(w) && NoneStranded(w) && t < |w.tasks| && w.tasks[t].status.Settled? && w.tasks[t].status.result != Wrote
    requires Available(w.m, w.tasks[t].sid, w.tasks[t].exec, w.tasks[t].pid)
    ensures NoneStranded(Continue(w, t, env))
  {
    var task := w.tasks[t];
    assert TaskOk(w.m, w.delivering, task);
    var reason := if task.written == 0 then ResultWriteFailed else AmbiguousPartialWrite;
    FailureCloses(w, t, env, reason);
    ClosedOwesNone(w.m, task.sid, reason, env.now, task.pid);
    CloseEvolves(w.m, task.sid, reason, env.now);
    OneEnds(w, Continue(w, t, env), t);
  }

  lemma EndsDelivered(w: World, t: nat, env: Env)
    requires WInv(w) && NoneStranded(w) && t < |w.tasks| && w.tasks[t].status == Settled(Wrote) && w.tasks[t].written >= w.tasks[t].frames
    requires Available(w.m, w.tasks[t].sid, w.tasks[t].exec, w.tasks[t].pid)
    ensures NoneStranded(Continue(w, t, env))
  {
    var task, r := w.tasks[t], Continue(w, t, env);
    assert TaskOk(w.m, w.delivering, task);
    AvailableClaimed(w, t);
    CompleteFinishes(w.m, task.sid, task.exec, task.pid, env.now);
    forall q | StillOwed(r.m, q) ensures StillOwed(w.m, q) && q != task.pid {
      FinishesOwes(w.m, r.m, task.pid, q);
    }
    OneEnds(w, r, t);
  }

  /** Nothing new is delivered, or an entry that is not owed afterwards, or one
      with a task of its own. */
  lemma StartsOne(w: World, r: World, pid: Pid)
    requires WInv(w) && NoneStranded(w) && r.delivering <= w.delivering + {pid} && w.tasks <= r.tasks
    requires |r.m.objs| == |w.m.objs| && forall q | StillOwed(r.m, q) :: StillOwed(w.m, q)
    requires pid !in r.delivering || !StillOwed(r.m, pid) || BeingWritten(r, pid)
    ensures NoneStranded(r)
  {
    forall q | q in r.delivering && StillOwed(r.m, q) ensures BeingWritten(r, q) {
      if q != pid {
        assert BeingWritten(w, q);
        var t :| 0 <= t < |w.tasks| && w.tasks[t].pid == q && w.tasks[t].status != Finished;
        assert r.tasks[t] == w.tasks[t];
      }
    }
  }

  /** The entry can be delivered now: owed, claimed, and not being delivered. */
  ghost predicate Startable(w: World, sid: Sid, exec: ExecId, pid: Pid) {
    Owed(w.m, sid, exec, pid) && pid < |w.m.objs| && w.m.objs[pid].phase == Claimed && pid !in w.delivering
  }

  /** A result without frames needs a reason: the step was mirrored, withdrawn or
      answered, or its reply comes later. */
  ghost predicate NoFrameNeeded(p: Pending, deferred: bool) {
    p.bridged || p.aborted || p.answered || deferred
  }

  /** A delivery that cannot start writes nothing and changes no task. */
  lemma DeliveryRefused(w: World, sid: Sid, exec: ExecId, pid: Pid, frames: nat, deferred: bool, env: Env)
    requires WInv(w) && !Startable(w, sid, exec, pid)
    ensures var r := Deliver(w, sid, exec, pid, frames, deferred, env);
            && r == w.(m := r.m)
            && (Owed(w.m, sid, exec, pid) ==> r == w)
            && (!Owed(w.m, sid, exec, pid) ==> r.m == Classify(w.m, Key(sid, exec), env).0)
  {
    UnavailableNotOwed(w.m, sid, exec, pid);
    if Owed(w.m, sid, exec, pid) {
      assert EntryOk(w.m, sid, exec);
    }
  }

  /** One that starts ends its session when the lease has run out or a result
      lacks its frames, delivers at once what needs none, and otherwise hands the
      first frame to the end of the chain. */
  lemma DeliveryStarts(w: World, sid: Sid, exec: ExecId, pid: Pid, frames: nat, deferred: bool, env: Env)
    requires WInv(w) && Startable(w, sid, exec, pid)
    ensures var r := Deliver(w, sid, exec, pid, frames, deferred, env);
            if env.expired then r == w.(m := Close(w.m, sid, HardCapExpired, env.now))
            else if frames > 0 then
              r == w.(delivering := w.delivering + {pid},
                      tasks := w.tasks + [Task(sid, exec, pid, frames, 0, Queued)],
                      chains := w.chains[sid := Chain(w, sid) + [Frame(|w.tasks|)]])
            else if NoFrameNeeded(w.m.objs[pid], deferred) then
              r == w.(delivering := w.delivering + {pid}, m := Complete(w.m, sid, exec, pid, env.now))
            else r == w.(delivering := w.delivering + {pid}, m := Close(w.m, sid, ResultWriteFailed, env.now))
  {
    UnavailableNotOwed(w.m, sid, exec, pid);
  }

  ghost predicate SessionClosed(m: Manager, sid: Sid) {
    sid in m.sessions && m.sessions[sid].closed
  }

  /** The head of a chain, when it is a frame of that status. */
  ghost predicate Waits(w: World, sid: Sid, t: nat, status: Status) {
    Chain(w, sid) != [] && Chain(w, sid)[0] == Frame(t) && t < |w.tasks| && w.tasks[t].status == status
  }

  /** A write the stream refuses, or one on a closed session, throws and leaves the
      wire alone; one it takes or buffers puts the task's next frame on the wire,
      and only a buffered one still holds the chain. */
  lemma WriteAttempt(w: World, sid: Sid, t: nat, acceptance: Acceptance)
    requires WInv(w) && Waits(w, sid, t, Queued)
    ensures var r, task := Next(w, WriteStarts(sid, acceptance)), w.tasks[t];
            && r.m == w.m && r.delivering == w.delivering
            && (acceptance == Refused || SessionClosed(w.m, sid) ==>
                  && r.wire == w.wire && r.tasks == w.tasks[t := task.(status := Settled(Threw))]
                  && r.chains == w.chains[sid := Chain(w, sid)[1..]])
            && (acceptance == Accepted && !SessionClosed(w.m, sid) ==>
                  && r.wire == w.wire + [Sent(t, task.written)]
                  && r.tasks == w.tasks[t := task.(status := Settled(Wrote), written := task.written + 1)]
                  && r.chains == w.chains[sid := Chain(w, sid)[1..]])
            && (acceptance == Buffered && !SessionClosed(w.m, sid) ==>
                  && r.wire == w.wire + [Sent(t, task.written)]
                  && r.tasks == w.tasks[t := task.(status := Draining)] && r.chains == w.chains)
  {
    HeadKnown(w, sid, t);
  }

  lemma HeadKnown(w: World, sid: Sid, t: nat)
    requires WInv(w) && Chain(w, sid) != [] && Chain(w, sid)[0] == Frame(t)
    ensures sid in w.chains && t < |w.tasks| && w.tasks[t].sid == sid
  {
    assert ItemOk(w.tasks, sid, 0, w.chains[sid][0]);
    assert TaskOk(w.m, w.delivering, w.tasks[t]);
  }

  /** A buffered frame counts as written whether or not it drains; only draining on
      an open session is a success. */
  lemma DrainAttempt(w: World, sid: Sid, t: nat, ok: bool)
    requires WInv(w) && Waits(w, sid, t, Draining)
    ensures var r, task := Next(w, WriteDrains(sid, ok)), w.tasks[t];
            && r.m == w.m && r.delivering == w.delivering && r.wire == w.wire
            && r.tasks == w.tasks[t := task.(status := Settled(if ok && !SessionClosed(w.m, sid) then Wrote else DrainFailed),
                                             written := task.written + 1)]
            && r.chains == w.chains[sid := Chain(w, sid)[1..]]
  {
    HeadKnown(w, sid, t);
  }

  lemma OwedTask(w: World, t: nat)
    requires WInv(w) && t < |w.tasks| && Owed(w.m, w.tasks[t].sid, w.tasks[t].exec, w.tasks[t].pid)
    ensures Available(w.m, w.tasks[t].sid, w.tasks[t].exec, w.tasks[t].pid) && w.tasks[t].pid < |w.m.objs|
  {
    assert TaskOk(w.m, w.delivering, w.tasks[t]);
    UnavailableNotOwed(w.m, w.tasks[t].sid, w.tasks[t].exec, w.tasks[t].pid);
  }

  /** The events are these steps. */
  lemma StepsAre(w: World, t: nat, sid: Sid, exec: ExecId, pid: Pid, frames: nat, deferred: bool, env: Env)
    requires OpenIsLive(w.m)
    ensures Next(w, Continues(t, env)) == Continue(w, t, env)
    ensures Next(w, Delivers(sid, exec, pid, frames, deferred, env)) == Deliver(w, sid, exec, pid, frames, deferred, env)
  {}

  /** A delivery whose entry has gone ends; the lookup of its key is all it does. */
  lemma ContinueUnowed(w: World, t: nat, env: Env)
    requires WInv(w) && t < |w.tasks| && w.tasks[t].status.Settled?
    requires !Owed(w.m, w.tasks[t].sid, w.tasks[t].exec, w.tasks[t].pid)
    ensures Continue(w, t, env)
         == w.(tasks := w.tasks[t := w.tasks[t].(status := Finished)],
               m := Classify(w.m, Key(w.tasks[t].sid, w.tasks[t].exec), env).0)
  {
    UnavailableNotOwed(w.m, w.tasks[t].sid, w.tasks[t].exec, w.tasks[t].pid);
  }

  ghost function FailureReason(task: Task): Reason {
    if task.written == 0 then ResultWriteFailed else AmbiguousPartialWrite
  }

  /** A failed write closes the session of an owed entry: as a failed write when
      the stream took no frame of it, else as an ambiguous partial one. */
  lemma ContinueFailed(w: World, t: nat, env: Env)
    requires WInv(w) && t < |w.tasks| && w.tasks[t].status.Settled? && w.tasks[t].status.result != Wrote
    requires Owed(w.m, w.tasks[t].sid, w.tasks[t].exec, w.tasks[t].pid)
    ensures Continue(w, t, env)
         == w.(tasks := w.tasks[t := w.tasks[t].(status := Finished)],
               m := Close(w.m, w.tasks[t].sid, FailureReason(w.tasks[t]), env.now))
  {
    OwedTask(w, t);
    FailureCloses(w, t, env, FailureReason(w.tasks[t]));
  }

  /** So that session is closed, and the key answers with the reason from then on. */
  lemma FailedDeliveryEnds(w: World, t: nat, env: Env)
    requires WInv(w) && t < |w.tasks| && w.tasks[t].status.Settled? && w.tasks[t].status.result != Wrote
    requires Owed(w.m, w.tasks[t].sid, w.tasks[t].exec, w.tasks[t].pid)
    ensures EndsMarked(w.m, Continue(w, t, env).m, Key(w.tasks[t].sid, w.tasks[t].exec), FailureReason(w.tasks[t]), env.now)
  {
    ContinueFailed(w, t, env);
    EndingMarks(w.m, Key(w.tasks[t].sid, w.tasks[t].exec), FailureReason(w.tasks[t]), env.now);
  }

  ghost predicate EndsMarked(m: Manager, r: Manager, key: Key, reason: Reason, now: int) {
    && key.sid in m.sessions && key.sid in r.sessions
    && r.sessions[key.sid].closed && r.sessions[key.sid].pending == map[] && key !in r.index
    && (|m.sessions[key.sid].pending| <= m.config.tombstoneLimit ==> Marked(r, key, Left(reason), now + m.config.tombstoneTtl))
  }

  lemma EndingMarks(m: Manager, key: Key, reason: Reason, now: int)
    requires MInv(m) && key.sid in m.sessions && key.exec in m.sessions[key.sid].pending && !Silent(reason)
    ensures EndsMarked(m, Close(m, key.sid, reason, now), key, reason, now)
  {
    assert OrderOk(m.sessions[key.sid]);
    CloseKeepsInv(m, key.sid, reason, now);
    CloseTables(m, key.sid, reason, now);
    CloseMarks(m, key.sid, reason, now);
    NotIndexed(Close(m, key.sid, reason, now), key);
  }

  /** A settled write with frames left puts the task at the end of its chain. */
  lemma ContinueRequeues(w: World, t: nat, env: Env)
    requires WInv(w) && t < |w.tasks| && w.tasks[t].status == Settled(Wrote) && w.tasks[t].written < w.tasks[t].frames
    requires Owed(w.m, w.tasks[t].sid, w.tasks[t].exec, w.tasks[t].pid)
    ensures var sid := w.tasks[t].sid;
            Continue(w, t, env)
            == w.(tasks := w.tasks[t := w.tasks[t].(status := Queued)], chains := w.chains[sid := Chain(w, sid) + [Frame(t)]])
  {
    OwedTask(w, t);
  }

  /** After the last frame the entry is delivered, with all that completing means. */
  lemma ContinueDelivers(w: World, t: nat, env: Env)
    requires WInv(w) && t < |w.tasks| && w.tasks[t].status == Settled(Wrote) && w.tasks[t].written == w.tasks[t].frames
    requires Owed(w.m, w.tasks[t].sid, w.tasks[t].exec, w.tasks[t].pid)
    ensures w.tasks[t].pid < |w.m.objs|
    ensures Continue(w, t, env)
         == w.(tasks := w.tasks[t := w.tasks[t].(status := Finished)],
               m := Complete(w.m, w.tasks[t].sid, w.tasks[t].exec, w.tasks[t].pid, env.now))
  {
    OwedTask(w, t);
  }

  // ------------------------------------------------------------- over whole runs

  lemma DeliverStrandsNone(w: World, sid: Sid, exec: ExecId, pid: Pid, frames: nat, deferred: bool, env: Env)
    requires WInv(w) && NoneStranded(w)
    ensures NoneStranded(Deliver(w, sid, exec, pid, frames, deferred, env))
  {
    if !Startable(w, sid, exec, pid) {
      DeliveryRefused(w, sid, exec, pid, frames, deferred, env);
      ClassifyEvolves(w.m, Key(sid, exec), env);
      OnlyEvolved(w, Deliver(w, sid, exec, pid, frames, deferred, env));
    } else {
      DeliveryStarts(w, sid, exec, pid, frames, deferred, env);
      assert EntryOk(w.m, sid, exec);
      if env.expired {
        CloseEvolves(w.m, sid, HardCapExpired, env.now);
        OnlyEvolved(w, w.(m := Close(w.m, sid, HardCapExpired, env.now)));
      } else if frames > 0 {
        StartsTask(w, sid, exec, pid, frames);
      } else if NoFrameNeeded(w.m.objs[pid], deferred) {
        StartsDelivered(w, sid, exec, pid, env.now);
      } else {
        StartsFailed(w, sid, exec, pid, env.now);
      }
    }
  }

  lemma EvolvesRefl(m: Manager)
    ensures Evolves(m, m)
  {}

  lemma OnlyEvolved(w: World, r: World)
    requires WInv(w) && NoneStranded(w) && r == w.(m := r.m) && (r == w || Evolves(w.m, r.m))
    ensures NoneStranded(r)
  {
    EvolvesRefl(w.m);
    forall q | q in r.delivering && StillOwed(r.m, q) ensures BeingWritten(r, q) {
      DeliveringKnown(w, q);
      OwedBefore(w.m, r.m, q);
      assert BeingWritten(w, q);
    }
  }

  lemma StartsTask(w: World, sid: Sid, exec: ExecId, pid: Pid, frames: nat)
    requires WInv(w) && NoneStranded(w) && frames > 0
    ensures NoneStranded(w.(delivering := w.delivering + {pid},
                            tasks := w.tasks + [Task(sid, exec, pid, frames, 0, Queued)],
                            chains := w.chains[sid := Chain(w, sid) + [Frame(|w.tasks|)]]))
  {
    var r := w.(delivering := w.delivering + {pid},
                tasks := w.tasks + [Task(sid, exec, pid, frames, 0, Queued)],
                chains := w.chains[sid := Chain(w, sid) + [Frame(|w.tasks|)]]);
    assert r.tasks[|w.tasks|].pid == pid && r.tasks[|w.tasks|].status != Finished;
    StartsOne(w, r, pid);
  }

  lemma StartsFailed(w: World, sid: Sid, exec: ExecId, pid: Pid, now: int)
    requires WInv(w) && NoneStranded(w) && Startable(w, sid, exec, pid) && w.m.objs[pid].sid == sid
    ensures NoneStranded(w.(delivering := w.delivering + {pid}, m := Close(w.m, sid, ResultWriteFailed, now)))
  {
    var r := Close(w.m, sid, ResultWriteFailed, now);
    ClosedOwesNone(w.m, sid, ResultWriteFailed, now, pid);
    CloseEvolves(w.m, sid, ResultWriteFailed, now);
    CloseEffect(w.m, sid, ResultWriteFailed, now);
    forall q | StillOwed(r, q) ensures StillOwed(w.m, q) {
      OwedBefore(w.m, r, q);
    }
    StartsOne(w, w.(delivering := w.delivering + {pid}, m := r), pid);
  }

  lemma StartsDelivered(w: World, sid: Sid, exec: ExecId, pid: Pid, now: int)
    requires WInv(w) && NoneStranded(w) && Startable(w, sid, exec, pid)
    ensures NoneStranded(w.(delivering := w.delivering + {pid}, m := Complete(w.m, sid, exec, pid, now)))
  {
    var r := Complete(w.m, sid, exec, pid, now);
    CompleteFinishes(w.m, sid, exec, pid, now);
    forall q | StillOwed(r, q) ensures StillOwed(w.m, q) && q != pid {
      FinishesOwes(w.m, r, pid, q);
    }
    StartsOne(w, w.(delivering := w.delivering + {pid}, m := r), pid);
  }

  lemma NextStrandsNone(w: World, e: Event)
    requires WInv(w) && NoneStranded(w)
    ensures NoneStranded(Next(w, e))
  {
    if ManagerOnly(e) {
      ManagerCallStrandsNone(w, e);
    } else if e.Delivers? {
      DeliverStrandsNone(w, e.sid, e.exec, e.pid, e.frames, e.deferred, e.env);
    } else if e.Continues? {
      if e.task < |w.tasks| && w.tasks[e.task].status.Settled? {
        ContinueStrandsNone(w, e.task, e.env);
      }
    } else {
      ChainEventStrandsNone(w, e);
    }
  }

  /** Over every interleaving each entry a delivery was started for is delivered,
      gone, or still being written: none is left claimed for good. */
  lemma {:induction false} RunStrandsNone(w: World, events: seq<Event>)
    requires WInv(w) && NoneStranded(w)
    ensures NoneStranded(Run(w, events))
    decreases |events|
  {
    if events != [] {
      NextKeepsInv(w, events[0]);
      NextStrandsNone(w, events[0]);
      RunStrandsNone(Next(w, events[0]), events[1..]);
    }
  }

  /** So in every world reached from an empty manager. */
  lemma ReachableStrandsNone(config: Config, events: seq<Event>)
    ensures NoneStranded(Run(Empty(config), events))
  {
    RunStrandsNone(Empty(config), events);
  }
}
