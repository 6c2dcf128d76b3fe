/** The manager as one object whose methods update its tables in place
    (`SessionManager` in src/session.ts), proved against the functions of
    module `Sessions`. */
module SessionManagers {
  import opened Sessions

  class SessionManager {
    const config: Config
    var sessions: map<Sid, Session>
    var objs: seq<Pending>
    var open: seq<Sid>
    var byHost: map<HostId, Sid>
    var index: map<Key, Sid>
    var tombs: seq<Tombstone>

    function Model(): Manager
      reads this
    {
      Manager(config, sessions, objs, open, byHost, index, tombs)
    }

    constructor (config: Config)
      ensures Model() == Manager(config, map[], [], [], map[], map[], [])
      ensures MInv(Model())
    {
      this.config := config;
      sessions, objs, open, byHost, index, tombs := map[], [], [], map[], map[], [];
    }

    method AddTombstone(key: Key, mark: Mark, now: int)
      modifies this`tombs
      ensures Model() == PutTombstone(old(Model()), key, mark, now)
    {
      tombs := WithoutKey(tombs, key) + [Tombstone(key, mark, now + config.tombstoneTtl)];
      ghost var all := tombs;
      while |tombs| > config.tombstoneLimit
        invariant |tombs| <= |all| && tombs == all[|all| - |tombs|..]
        invariant |tombs| == |all| || |tombs| >= config.tombstoneLimit
        decreases |tombs|
      {
        tombs := tombs[1..];
      }
    }

    method DropEntry(sid: Sid, exec: ExecId)
      requires sid in sessions
      modifies this`sessions, this`index
      ensures Model() == Drop(old(Model()), sid, exec)
    {
      var s := sessions[sid];
      sessions := sessions[sid := s.(pending := s.pending - {exec}, order := Without(s.order, exec))];
      index := index - {Key(sid, exec)};
    }

    /** The loop of close, abandon and settle: each entry leaves the session
        and the index and, when there is one, its mark stays behind. */
    method DropEntries(sid: Sid, execs: seq<ExecId>, mark: Option<Mark>, now: int)
      requires sid in sessions
      modifies this`sessions, this`index, this`tombs
      ensures Model() == DropAll(old(Model()), sid, execs, mark, now)
    {
      var i := 0;
      while i < |execs|
        invariant i <= |execs| && sid in sessions
        invariant DropAll(Model(), sid, execs[i..], mark, now) == DropAll(old(Model()), sid, execs, mark, now)
      {
        DropEntry(sid, execs[i]);
        if mark.Some? {
          AddTombstone(Key(sid, execs[i]), mark.value, now);
        }
        assert execs[i..][1..] == execs[i + 1..];
        i := i + 1;
      }
    }

    method CloseSession(sid: Sid, reason: Reason, now: int)
      modifies this
      ensures Model() == Close(old(Model()), sid, reason, now)
    {
      if sid !in sessions || sessions[sid].closed { return; }
      var mark := if IsTerminalReason(reason) then Some(Left(reason)) else None;
      DropEntries(sid, sessions[sid].order, mark, now);
      var s := sessions[sid];
      sessions := sessions[sid := s.(closed := true, pending := map[], order := [], pump := None, deferred := None)];
      open := Without(open, sid);
      if s.host.Some? && s.host.value in byHost && byHost[s.host.value] == sid {
        byHost := byHost - {s.host.value};
      }
    }

    method SettleBridgedPending(sid: Sid, now: int) returns (settled: nat)
      modifies this
      ensures Model() == SettleBridged(old(Model()), sid, now)
      ensures settled == if sid in old(sessions) && !old(sessions)[sid].closed
                         then |Settleable(old(Model()), old(sessions)[sid], old(sessions)[sid].order)| else 0
    {
      settled := 0;
      if sid !in sessions || sessions[sid].closed { return; }
      var execs := Settleable(Model(), sessions[sid], sessions[sid].order);
      DropEntries(sid, execs, Some(WasDelivered), now);
      settled := |execs|;
    }

    method Abandon(sid: Sid, now: int) returns (dropped: nat)
      modifies this
      ensures Model() == AbandonPending(old(Model()), sid, now)
      ensures dropped == if sid in old(sessions) && !old(sessions)[sid].closed then |old(sessions)[sid].order| else 0
    {
      dropped := 0;
      if sid !in sessions || sessions[sid].closed { return; }
      dropped := |sessions[sid].order|;
      DropEntries(sid, sessions[sid].order, Some(Left(HostInterrupted)), now);
    }

    /** The scan for the oldest session the cap may close. */
    method FindOldest(keep: Sid) returns (oldest: Option<Sid>)
      ensures oldest == Oldest(Model(), keep, 0, None)
      ensures oldest.Some? ==> oldest.value in open && Evictable(Model(), oldest.value, keep)
      ensures forall i | 0 <= i < |open| && Evictable(Model(), open[i], keep) ::
                oldest.Some? && sessions[oldest.value].createdAt <= sessions[open[i]].createdAt
    {
      oldest := None;
      var i := 0;
      while i < |open|
        invariant i <= |open|
        invariant oldest.Some? ==> oldest.value in open && Evictable(Model(), oldest.value, keep)
        invariant Oldest(Model(), keep, i, oldest) == Oldest(Model(), keep, 0, None)
      {
        var c := open[i];
        if Evictable(Model(), c, keep) && (oldest.None? || sessions[c].createdAt < sessions[oldest.value].createdAt) {
          oldest := Some(c);
        }
        i := i + 1;
      }
    }

    method EnforceOpenSessionCap(keep: Sid, now: int)
      requires OpenIsLive(Model())
      modifies this
      ensures Model() == EnforceCap(old(Model()), keep, now)
    {
      while |open| > config.maxOpen
        invariant OpenIsLive(Model())
        invariant EnforceCap(Model(), keep, now) == EnforceCap(old(Model()), keep, now)
        decreases |open|
      {
        var oldest := FindOldest(keep);
        if oldest.None? { return; }
        CloseSession(oldest.value, OpenSessionCapExceeded, now);
      }
    }

    method SupersedePrior(sid: Sid, host: HostId, now: int)
      modifies this
      ensures Model() == Supersede(old(Model()), sid, host, now)
    {
      if host in byHost && byHost[host] != sid {
        var prior := byHost[host];
        if prior in sessions && !sessions[prior].closed && sessions[prior].pump.None? {
          var settled := SettleBridgedPending(prior, now);
          if sessions[prior].pending == map[] {
            CloseSession(prior, SupersededByNewRun, now);
          }
        }
      }
      byHost := byHost[host := sid];
    }

    method RegisterSession(sid: Sid, now: int) returns (ok: bool)
      requires OpenIsLive(Model())
      modifies this
      ensures ok <==> Register(old(Model()), sid, now).Some?
      ensures Model() == if ok then Register(old(Model()), sid, now).value else old(Model())
    {
      if sid !in sessions || sessions[sid].closed { return false; }
      if sid in open { return true; }
      open := open + [sid];
      if sessions[sid].host.Some? {
        SupersedePrior(sid, sessions[sid].host.value, now);
      }
      EnforceOpenSessionCap(sid, now);
      return true;
    }

    method RegisterPendingExec(sid: Sid, p: Pending, now: int) returns (ok: bool)
      requires OpenIsLive(Model())
      modifies this
      ensures ok <==> RegisterPending(old(Model()), sid, p, now).Some?
      ensures Model() == if ok then RegisterPending(old(Model()), sid, p, now).value else old(Model())
    {
      ok := RegisterSession(sid, now);
      if !ok { return; }
      var s := sessions[sid];
      tombs := WithoutKey(tombs, Key(sid, p.exec));
      sessions := sessions[sid := s.(pending := s.pending[p.exec := |objs|],
                                     order := if p.exec in s.pending then s.order else s.order + [p.exec])];
      objs := objs + [p.(sid := sid, phase := Waiting, aborted := false)];
      index := index[Key(sid, p.exec) := sid];
    }

    method ClassifyExec(key: Key, env: Env) returns (c: Classification)
      modifies this
      ensures (Model(), c) == Classify(old(Model()), key, env)
    {
      if key in index {
        if !Reachable(Model(), key, env) {
          var sid := index[key];
          index := index - {key};
          CloseSession(sid, RemoteCleanClose, env.now);
        } else if env.expired {
          CloseSession(index[key], HardCapExpired, env.now);
        } else {
          var pid := sessions[index[key]].pending[key.exec];
          match objs[pid].phase {
            case Waiting => return Deliverable(pid);
            case Claimed => return Duplicate(false);
            case Delivered => return Duplicate(true);
          }
        }
      }
      var found := FindTombstone(tombs, key);
      if found.None? { return Missing; }
      if env.now >= found.value.expiresAt {
        tombs := WithoutKey(tombs, key);
        return Missing;
      }
      match found.value.mark {
        case WasDelivered => return Duplicate(true);
        case Left(reason) => return Terminal(reason);
      }
    }

    method ClaimExec(key: Key, env: Env) returns (c: Classification)
      modifies this
      ensures (Model(), c) == Claim(old(Model()), key, env)
    {
      c := ClassifyExec(key, env);
      if c.Deliverable? {
        objs := objs[c.pid := objs[c.pid].(phase := Claimed)];
      }
    }

    /** The end of `deliverClaim`, once the last frame is out and the entry is still owed. */
    method CompleteDelivery(sid: Sid, exec: ExecId, pid: Pid, now: int)
      requires sid in sessions && pid < |objs|
      modifies this
      ensures Model() == Complete(old(Model()), sid, exec, pid, now)
    {
      var answered := objs[pid].answered;
      objs := objs[pid := objs[pid].(phase := Delivered)];
      if answered {
        sessions := sessions[sid := sessions[sid].(answeredContinuation := true)];
      }
      AddTombstone(Key(sid, exec), WasDelivered, now);
      DropEntry(sid, exec);
    }

    method ResolveExec(key: Key, now: int)
      modifies this
      ensures Model() == Resolve(old(Model()), key, now)
    {
      if key in index && index[key] in sessions {
        DropEntry(index[key], key.exec);
        AddTombstone(key, WasDelivered, now);
      }
      index := index - {key};
    }

    method ForgetHeldExec(sid: Sid, exec: ExecId, pid: Pid) returns (forgotten: bool)
      modifies this
      ensures (Model(), forgotten) == ForgetHeld(old(Model()), sid, exec, pid)
    {
      if !Owed(Model(), sid, exec, pid) || sessions[sid].closed || pid >= |objs|
         || objs[pid].phase != Waiting || objs[pid].aborted {
        return false;
      }
      DropEntry(sid, exec);
      return true;
    }

    /** False when the session is closed: the source throws. */
    method ReplaceStream(sid: Sid) returns (ok: bool)
      modifies this
      ensures Model() == StreamReplaced(old(Model()), sid)
      ensures ok <==> sid in old(sessions) && !old(sessions)[sid].closed
    {
      if sid !in sessions || sessions[sid].closed { return false; }
      sessions := sessions[sid := sessions[sid].(deferred := None)];
      return true;
    }

    method DisposeAll(now: int)
      modifies this
      ensures Model() == Dispose(old(Model()), now)
    {
      var all := open;
      var i := 0;
      while i < |all|
        invariant i <= |all|
        invariant CloseAll(Model(), all[i..], ProcessDisposed, now) == CloseAll(old(Model()), all, ProcessDisposed, now)
      {
        CloseSession(all[i], ProcessDisposed, now);
        assert all[i..][1..] == all[i + 1..];
        i := i + 1;
      }
      index := map[];
    }
  }
}
