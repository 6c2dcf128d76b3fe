/** The table of held Runs and the results the host still owes them
    (`SessionManager` in src/session.ts).

    Sessions, pending entries and tombstones are values in tables; a pending
    entry's position in `objs` stands for its object identity. What the
    manager reads from outside (the clock, whether a stream has closed,
    whether a lease has expired) is an argument. */
module Sessions {

  type Sid = nat
  type ExecId = int
  type Pid = nat
  type HostId = string

  datatype Option<T> = None | Some(value: T)

  datatype Key = Key(sid: Sid, exec: ExecId)

  datatype Phase = Waiting | Claimed | Delivered

  datatype Pending = Pending(
    sid: Sid, exec: ExecId, phase: Phase, bridged: bool, aborted: bool, answered: bool)

  datatype Reason =
    | HostInterrupted | HardCapExpired | RemoteCleanClose | RemoteError | ResultWriteFailed
    | AmbiguousPartialWrite | HeartbeatWriteFailed | ReplyWriteFailed | ProcessDisposed
    | SupersededByNewRun | OpenSessionCapExceeded
    | OrdinaryCleanup | TurnEnded | InitialWriteFailed

  /** `pending` with the order its entries were added, as a JavaScript map keeps it. */
  datatype Session = Session(
    closed: bool, host: Option<HostId>, pending: map<ExecId, Pid>, order: seq<ExecId>,
    pump: Option<nat>, deferred: Option<Reason>, interrupted: bool, answeredContinuation: bool, createdAt: int)

  datatype Mark = Left(reason: Reason) | WasDelivered

  datatype Tombstone = Tombstone(key: Key, mark: Mark, expiresAt: int)

  datatype Config = Config(tombstoneLimit: nat, tombstoneTtl: int, maxOpen: nat)

  datatype Manager = Manager(
    config: Config,
    sessions: map<Sid, Session>,
    objs: seq<Pending>,
    open: seq<Sid>,
    byHost: map<HostId, Sid>,
    index: map<Key, Sid>,
    tombs: seq<Tombstone>)

  datatype Classification =
    | Deliverable(pid: Pid)
    | Duplicate(delivered: bool)
    | Terminal(reason: Reason)
    | Missing

  // ---------------------------------------------------------------- sequences

  function Without<T(==,!new)>(s: seq<T>, x: T): (r: seq<T>)
    ensures forall y :: y in r <==> y in s && y != x
    ensures |r| <= |s| && (x in s ==> |r| < |s|)
  {
    if s == [] then [] else (if s[0] == x then [] else [s[0]]) + Without(s[1..], x)
  }

  ghost predicate Distinct<T(!new)>(s: seq<T>) {
    forall i, j | 0 <= i < j < |s| :: s[i] != s[j]
  }

  lemma {:induction false} WithoutDistinct<T(!new)>(s: seq<T>, x: T)
    requires Distinct(s)
    ensures Distinct(Without(s, x))
  {
    if s != [] {
      WithoutDistinct(s[1..], x);
      assert forall y | y in Without(s[1..], x) :: y != s[0];
    }
  }

  lemma AppendDistinct<T(!new)>(s: seq<T>, x: T)
    requires Distinct(s) && x !in s
    ensures Distinct(s + [x])
  {}

  // --------------------------------------------------------------- tombstones

  function WithoutKey(tombs: seq<Tombstone>, key: Key): (r: seq<Tombstone>)
    ensures |r| <= |tombs|
    ensures forall t :: t in r <==> t in tombs && t.key != key
  {
    if tombs == [] then []
    else (if tombs[0].key == key then [] else [tombs[0]]) + WithoutKey(tombs[1..], key)
  }

  function Newest(tombs: seq<Tombstone>, limit: nat): seq<Tombstone> {
    if |tombs| > limit then tombs[|tombs| - limit..] else tombs
  }

  function PutTombstone(m: Manager, key: Key, mark: Mark, now: int): Manager {
    m.(tombs := Newest(WithoutKey(m.tombs, key) + [Tombstone(key, mark, now + m.config.tombstoneTtl)],
                       m.config.tombstoneLimit))
  }

  function FindTombstone(tombs: seq<Tombstone>, key: Key): (r: Option<Tombstone>)
    ensures r.Some? ==> r.value in tombs && r.value.key == key
    ensures r.None? ==> forall t | t in tombs :: t.key != key
  {
    if tombs == [] then None else if tombs[0].key == key then Some(tombs[0]) else FindTombstone(tombs[1..], key)
  }

  // --------------------------------------------------------------- operations

  predicate IsTerminalReason(reason: Reason) {
    reason !in {OrdinaryCleanup, TurnEnded, InitialWriteFailed}
  }

  /** Does `session.pending` still hold exactly this entry? */
  predicate Owed(m: Manager, sid: Sid, exec: ExecId, pid: Pid) {
    sid in m.sessions && exec in m.sessions[sid].pending && m.sessions[sid].pending[exec] == pid
  }

  /** Remove one entry from its session and from the exec index. */
  function Drop(m: Manager, sid: Sid, exec: ExecId): Manager
    requires sid in m.sessions
  {
    var s := m.sessions[sid];
    m.(sessions := m.sessions[sid := s.(pending := s.pending - {exec}, order := Without(s.order, exec))],
       index := m.index - {Key(sid, exec)})
  }

  /** Drop every entry of `execs`, leaving `mark` behind for each. */
  function DropAll(m: Manager, sid: Sid, execs: seq<ExecId>, mark: Option<Mark>, now: int): (r: Manager)
    requires sid in m.sessions
    ensures r.sessions.Keys == m.sessions.Keys && r.open == m.open
    ensures forall s | s in m.sessions :: r.sessions[s].closed == m.sessions[s].closed
    decreases |execs|
  {
    if execs == [] then m
    else
      var m1 := Drop(m, sid, execs[0]);
      var m2 := if mark.Some? then PutTombstone(m1, Key(sid, execs[0]), mark.value, now) else m1;
      DropAll(m2, sid, execs[1..], mark, now)
  }

  predicate OpenIsLive(m: Manager) {
    forall s | s in m.open :: s in m.sessions && !m.sessions[s].closed
  }

  function Close(m: Manager, sid: Sid, reason: Reason, now: int): (r: Manager)
    ensures r.sessions.Keys == m.sessions.Keys
    ensures OpenIsLive(m) ==> OpenIsLive(r) && |r.open| <= |m.open|
    ensures OpenIsLive(m) && sid in m.open ==> |r.open| < |m.open|
    ensures forall s | s in m.sessions && s != sid :: r.sessions[s].closed == m.sessions[s].closed
  {
    if sid !in m.sessions || m.sessions[sid].closed then m
    else
      var mark := if IsTerminalReason(reason) then Some(Left(reason)) else None;
      Forget(DropAll(m, sid, m.sessions[sid].order, mark, now), sid)
  }

  /** The session leaves every table and is closed for good. */
  function Forget(m: Manager, sid: Sid): Manager
    requires sid in m.sessions
  {
    var s := m.sessions[sid];
    m.(sessions := m.sessions[sid := s.(closed := true, pending := map[], order := [], pump := None, deferred := None)],
       open := Without(m.open, sid),
       byHost := if s.host.Some? && s.host.value in m.byHost && m.byHost[s.host.value] == sid
                 then m.byHost - {s.host.value} else m.byHost)
  }

  predicate CanSettle(m: Manager, pid: Pid) {
    pid < |m.objs| && (m.objs[pid].bridged || m.objs[pid].aborted || m.objs[pid].answered) && m.objs[pid].phase != Claimed
  }

  function Settleable(m: Manager, s: Session, execs: seq<ExecId>): (r: seq<ExecId>)
    ensures forall e :: e in r <==> e in execs && e in s.pending && CanSettle(m, s.pending[e])
  {
    if execs == [] then []
    else (if execs[0] in s.pending && CanSettle(m, s.pending[execs[0]]) then [execs[0]] else [])
         + Settleable(m, s, execs[1..])
  }

  function SettleBridged(m: Manager, sid: Sid, now: int): (r: Manager)
    ensures r.sessions.Keys == m.sessions.Keys && r.open == m.open
    ensures forall s | s in m.sessions :: r.sessions[s].closed == m.sessions[s].closed
  {
    if sid !in m.sessions || m.sessions[sid].closed then m
    else DropAll(m, sid, Settleable(m, m.sessions[sid], m.sessions[sid].order), Some(WasDelivered), now)
  }

  function AbandonPending(m: Manager, sid: Sid, now: int): Manager {
    if sid !in m.sessions || m.sessions[sid].closed then m
    else DropAll(m, sid, m.sessions[sid].order, Some(Left(HostInterrupted)), now)
  }

  predicate Holds(m: Manager, sid: Sid) {
    sid in m.sessions
    && exists e :: e in m.sessions[sid].pending && m.sessions[sid].pending[e] < |m.objs|
                   && !m.objs[m.sessions[sid].pending[e]].aborted
  }

  /** May the cap close this session? Never one just registered, pumping, or still owed. */
  predicate Evictable(m: Manager, sid: Sid, keep: Sid) {
    sid in m.sessions && sid != keep && m.sessions[sid].pump.None? && !Holds(m, sid)
  }

  function Oldest(m: Manager, keep: Sid, from: nat, best: Option<Sid>): (r: Option<Sid>)
    requires best.Some? ==> best.value in m.open && Evictable(m, best.value, keep)
    requires from <= |m.open|
    ensures r.Some? ==> r.value in m.open && Evictable(m, r.value, keep)
    ensures best.Some? ==> r.Some? && m.sessions[r.value].createdAt <= m.sessions[best.value].createdAt
    ensures forall i | from <= i < |m.open| && Evictable(m, m.open[i], keep) ::
              r.Some? && m.sessions[r.value].createdAt <= m.sessions[m.open[i]].createdAt
    decreases |m.open| - from
  {
    if from == |m.open| then best
    else
      var c := m.open[from];
      Oldest(m, keep, from + 1,
        if Evictable(m, c, keep) && (best.None? || m.sessions[c].createdAt < m.sessions[best.value].createdAt)
        then Some(c) else best)
  }

  function EnforceCap(m: Manager, keep: Sid, now: int): (r: Manager)
    requires OpenIsLive(m)
    ensures OpenIsLive(r) && r.sessions.Keys == m.sessions.Keys
    ensures keep in m.sessions ==> r.sessions[keep].closed == m.sessions[keep].closed
    decreases |m.open|
  {
    var oldest := Oldest(m, keep, 0, None);
    if |m.open| <= m.config.maxOpen || oldest.None? then m
    else EnforceCap(Close(m, oldest.value, OpenSessionCapExceeded, now), keep, now)
  }

  /** A fresh Run replaces the idle one its OpenCode session left behind. */
  function Supersede(m: Manager, sid: Sid, host: HostId, now: int): (r: Manager)
    ensures r.sessions.Keys == m.sessions.Keys
    ensures OpenIsLive(m) ==> OpenIsLive(r)
    ensures sid in m.sessions ==> r.sessions[sid].closed == m.sessions[sid].closed
  {
    var m1 :=
      if host !in m.byHost || m.byHost[host] == sid then m
      else
        var prior := m.byHost[host];
        if prior !in m.sessions || m.sessions[prior].closed || m.sessions[prior].pump.Some? then m
        else
          var settled := SettleBridged(m, prior, now);
          if settled.sessions[prior].pending != map[] then settled
          else Close(settled, prior, SupersededByNewRun, now);
    m1.(byHost := m1.byHost[host := sid])
  }

  /** `None` when the session is closed: the source throws. */
  function Register(m: Manager, sid: Sid, now: int): (r: Option<Manager>)
    requires OpenIsLive(m)
    ensures r.Some? ==> sid in r.value.sessions && !r.value.sessions[sid].closed && OpenIsLive(r.value)
  {
    if sid !in m.sessions || m.sessions[sid].closed then None
    else if sid in m.open then Some(m)
    else
      var m1 := m.(open := m.open + [sid]);
      var m2 := if m.sessions[sid].host.Some? then Supersede(m1, sid, m.sessions[sid].host.value, now) else m1;
      Some(EnforceCap(m2, sid, now))
  }

  function AddPending(m: Manager, sid: Sid, p: Pending): Manager
    requires sid in m.sessions
  {
    var s := m.sessions[sid];
    m.(sessions := m.sessions[sid := s.(pending := s.pending[p.exec := |m.objs|],
                                        order := if p.exec in s.pending then s.order else s.order + [p.exec])],
       objs := m.objs + [p.(sid := sid, phase := Waiting, aborted := false)],
       index := m.index[Key(sid, p.exec) := sid],
       tombs := WithoutKey(m.tombs, Key(sid, p.exec)))
  }

  /** A fresh entry; one already under this exec id is replaced. */
  function RegisterPending(m: Manager, sid: Sid, p: Pending, now: int): Option<Manager>
    requires OpenIsLive(m)
  {
    var registered := Register(m, sid, now);
    if registered.None? then None else Some(AddPending(registered.value, sid, p))
  }

  /** What the manager asks the host about one session: the clock, whether its
      stream has closed, and whether the entry's lease has run out. */
  datatype Env = Env(now: int, streamClosed: bool, expired: bool)

  /** The entry behind an index key, when its session still answers for it. */
  predicate Reachable(m: Manager, key: Key, env: Env) {
    && key in m.index && m.index[key] in m.sessions
    && var s := m.sessions[m.index[key]];
    && !s.closed && key.exec in s.pending && s.pending[key.exec] < |m.objs|
    && (env.streamClosed ==> m.objs[s.pending[key.exec]].answered)
  }

  /** The closes `classify` makes before it answers for `key`. */
  function Refresh(m: Manager, key: Key, env: Env): Manager {
    if key !in m.index then m
    else if !Reachable(m, key, env) then
      Close(m.(index := m.index - {key}), m.index[key], RemoteCleanClose, env.now)
    else if env.expired then Close(m, m.index[key], HardCapExpired, env.now)
    else m
  }

  function Classify(m: Manager, key: Key, env: Env): (r: (Manager, Classification))
    ensures r.1.Deliverable? ==> r.0 == m && r.1.pid < |m.objs| && m.objs[r.1.pid].phase == Waiting
                                 && key in m.index && Owed(m, m.index[key], key.exec, r.1.pid)
  {
    if Reachable(m, key, env) && !env.expired then
      var pid := m.sessions[m.index[key]].pending[key.exec];
      (m, match m.objs[pid].phase
          case Waiting => Deliverable(pid)
          case Claimed => Duplicate(false)
          case Delivered => Duplicate(true))
    else AnswerFromTombstone(Refresh(m, key, env), key, env.now)
  }

  function AnswerFromTombstone(m: Manager, key: Key, now: int): (r: (Manager, Classification))
    ensures !r.1.Deliverable?
  {
    var found := FindTombstone(m.tombs, key);
    if found.None? then (m, Missing)
    else if now >= found.value.expiresAt then (m.(tombs := WithoutKey(m.tombs, key)), Missing)
    else (m, match found.value.mark
             case WasDelivered => Duplicate(true)
             case Left(reason) => Terminal(reason))
  }

  function SetPending(m: Manager, pid: Pid, p: Pending): Manager
    requires pid < |m.objs|
  {
    m.(objs := m.objs[pid := p])
  }

  function Claim(m: Manager, key: Key, env: Env): (Manager, Classification) {
    var (m1, c) := Classify(m, key, env);
    (if c.Deliverable? then SetPending(m1, c.pid, m1.objs[c.pid].(phase := Claimed)) else m1, c)
  }

  /** The last step of a delivery: the entry is delivered and leaves. */
  function Complete(m: Manager, sid: Sid, exec: ExecId, pid: Pid, now: int): Manager
    requires sid in m.sessions && pid < |m.objs|
  {
    var m1 := SetPending(m, pid, m.objs[pid].(phase := Delivered));
    var m2 := if m.objs[pid].answered
              then m1.(sessions := m1.sessions[sid := m1.sessions[sid].(answeredContinuation := true)]) else m1;
    Drop(PutTombstone(m2, Key(sid, exec), WasDelivered, now), sid, exec)
  }

  function Resolve(m: Manager, key: Key, now: int): Manager {
    var m1 := if key in m.index && m.index[key] in m.sessions
              then PutTombstone(Drop(m, m.index[key], key.exec), key, WasDelivered, now) else m;
    m1.(index := m1.index - {key})
  }

  /** A held exec is about to be dispatched again; false when its entry is gone. */
  function ForgetHeld(m: Manager, sid: Sid, exec: ExecId, pid: Pid): (Manager, bool) {
    if Owed(m, sid, exec, pid) && !m.sessions[sid].closed && pid < |m.objs|
       && m.objs[pid].phase == Waiting && !m.objs[pid].aborted
    then (Drop(m, sid, exec), true) else (m, false)
  }

  function MarkAborted(m: Manager, sid: Sid, exec: ExecId): (Manager, bool) {
    if sid in m.sessions && !m.sessions[sid].closed && exec in m.sessions[sid].pending
       && m.sessions[sid].pending[exec] < |m.objs| then
      var pid := m.sessions[sid].pending[exec];
      var p := m.objs[pid];
      if p.bridged || p.aborted || p.answered || p.phase != Waiting then (m, false)
      else (SetPending(m, pid, p.(aborted := true)), true)
    else (m, false)
  }

  predicate HoldsOnlyAnswered(m: Manager, sid: Sid)
    requires sid in m.sessions
  {
    var s := m.sessions[sid];
    && !s.interrupted
    && if s.pending == map[] then s.answeredContinuation
       else forall e | e in s.pending :: s.pending[e] < |m.objs| && m.objs[s.pending[e]].answered
  }

  function SetSession(m: Manager, sid: Sid, s: Session): Manager {
    m.(sessions := m.sessions[sid := s])
  }

  function BeginPump(m: Manager, sid: Sid, owner: nat, now: int): Option<Manager>
    requires OpenIsLive(m)
  {
    var registered := Register(m, sid, now);
    if registered.None? then None
    else
      var s := registered.value.sessions[sid];
      if s.pump.Some? && s.pump.value != owner then None
      else Some(SetSession(registered.value, sid, s.(pump := Some(owner), answeredContinuation := false)))
  }

  function EndPump(m: Manager, sid: Sid, owner: nat, now: int): (Manager, bool) {
    if sid !in m.sessions || m.sessions[sid].pump != Some(owner) then (m, false)
    else
      var s := m.sessions[sid];
      var m1 := SetSession(m, sid, s.(pump := None, deferred := None));
      if s.deferred == Some(RemoteCleanClose) && HoldsOnlyAnswered(m1, sid) then
        (SetSession(m1, sid, s.(pump := None, deferred := Some(RemoteCleanClose))), true)
      else if s.deferred.Some? && !s.interrupted then (Close(m1, sid, s.deferred.value, now), true)
      else (m1, true)
  }

  /** The stream ended by itself: `RemoteCleanClose` or `RemoteError`. */
  function StreamEnded(m: Manager, sid: Sid, reason: Reason, now: int): Manager {
    if sid !in m.sessions || m.sessions[sid].closed then m
    else
      var s := m.sessions[sid];
      if reason == RemoteCleanClose && s.pump.None? && HoldsOnlyAnswered(m, sid) then
        SetSession(m, sid, s.(deferred := Some(RemoteCleanClose)))
      else if s.pump.Some? || s.interrupted then SetSession(m, sid, s.(deferred := Some(reason)))
      else Close(m, sid, reason, now)
  }

  /** A new stream takes over; the source throws when the session is closed. */
  function StreamReplaced(m: Manager, sid: Sid): Manager {
    if sid !in m.sessions || m.sessions[sid].closed then m
    else SetSession(m, sid, m.sessions[sid].(deferred := None))
  }

  function CloseAll(m: Manager, sids: seq<Sid>, reason: Reason, now: int): Manager
    decreases |sids|
  {
    if sids == [] then m else CloseAll(Close(m, sids[0], reason, now), sids[1..], reason, now)
  }

  function Dispose(m: Manager, now: int): Manager {
    CloseAll(m, m.open, ProcessDisposed, now).(index := map[])
  }

  // ------------------------------------------------------------- the invariant

  /** The exec index holds (session, exec) exactly when exec is pending on that
      open session; a closed session owes nothing and is in no table; the
      tombstones hold one mark a key and never exceed their limit. */
  ghost predicate MInv(m: Manager) {
    OwedOk(m) && IndexExact(m) && OpenOk(m) && HostsOk(m) && TombsOk(m)
  }

  ghost predicate OwedOk(m: Manager) {
    && (forall s | s in m.sessions :: OrderOk(m.sessions[s]))
    && (forall s, e | s in m.sessions && e in m.sessions[s].pending :: EntryOk(m, s, e))
  }

  ghost predicate OrderOk(s: Session) {
    Distinct(s.order) && s.pending.Keys == (set e | e in s.order) && (s.closed ==> s.pending == map[])
  }

  /** An owed entry belongs to an open session and is not delivered yet. */
  ghost predicate EntryOk(m: Manager, sid: Sid, exec: ExecId)
    requires sid in m.sessions && exec in m.sessions[sid].pending
  {
    var pid := m.sessions[sid].pending[exec];
    && sid in m.open
    && pid < |m.objs|
    && m.objs[pid].sid == sid && m.objs[pid].exec == exec && m.objs[pid].phase != Delivered
  }

  ghost predicate IndexExact(m: Manager) {
    forall k :: && (k in m.index <==> k.sid in m.sessions && k.exec in m.sessions[k.sid].pending)
                && (k in m.index ==> m.index[k] == k.sid)
  }

  ghost predicate OpenOk(m: Manager) {
    Distinct(m.open) && OpenIsLive(m)
  }

  ghost predicate HostsOk(m: Manager) {
    forall h | h in m.byHost :: m.byHost[h] in m.open && m.byHost[h] in m.sessions
                                && m.sessions[m.byHost[h]].host == Some(h)
  }

  ghost predicate TombsOk(m: Manager) {
    |m.tombs| <= m.config.tombstoneLimit && OneMarkEach(m.tombs)
  }

  ghost predicate OneMarkEach(tombs: seq<Tombstone>) {
    forall i, j | 0 <= i < j < |tombs| :: tombs[i].key != tombs[j].key
  }

  /** A closed session appears in no table and owes nothing. */
  lemma ClosedIsGone(m: Manager, sid: Sid)
    requires MInv(m) && sid in m.sessions && m.sessions[sid].closed
    ensures sid !in m.open && m.sessions[sid].pending == map[]
    ensures forall h | h in m.byHost :: m.byHost[h] != sid
    ensures forall k | k in m.index :: m.index[k] != sid && k.sid != sid
  {
    assert OrderOk(m.sessions[sid]);
  }

  lemma {:induction false} WithoutKeyOnce(tombs: seq<Tombstone>, key: Key)
    requires OneMarkEach(tombs)
    ensures OneMarkEach(WithoutKey(tombs, key))
  {
    if tombs != [] {
      WithoutKeyOnce(tombs[1..], key);
      var rest := WithoutKey(tombs[1..], key);
      assert forall t | t in rest :: t in tombs[1..] && t.key != tombs[0].key by {
        forall t | t in rest ensures t.key != tombs[0].key {
          var i :| 0 <= i < |tombs[1..]| && tombs[1..][i] == t;
          assert tombs[i + 1] == t;
        }
      }
    }
  }

  lemma PutTombstoneKeeps(m: Manager, key: Key, mark: Mark, now: int)
    requires TombsOk(m)
    ensures TombsOk(PutTombstone(m, key, mark, now))
  {
    WithoutKeyOnce(m.tombs, key);
  }

  /** The newest mark of a key is the one that was put last. */
  lemma PutTombstoneFinds(m: Manager, key: Key, mark: Mark, now: int)
    requires m.config.tombstoneLimit > 0
    ensures FindTombstone(PutTombstone(m, key, mark, now).tombs, key)
         == Some(Tombstone(key, mark, now + m.config.tombstoneTtl))
  {
    var t := Tombstone(key, mark, now + m.config.tombstoneTtl);
    var kept := PutTombstone(m, key, mark, now).tombs;
    assert kept[|kept| - 1] == t;
    var found := FindTombstone(kept, key);
    assert found.Some?;
    assert forall x | x in kept :: x == t || (x in WithoutKey(m.tombs, key) && x.key != key);
  }

  lemma DropKeepsInv(m: Manager, sid: Sid, exec: ExecId)
    requires MInv(m) && sid in m.sessions
    ensures MInv(Drop(m, sid, exec))
  {
    WithoutDistinct(m.sessions[sid].order, exec);
    var r := Drop(m, sid, exec);
    forall s, e | s in r.sessions && e in r.sessions[s].pending ensures EntryOk(r, s, e) {
      assert EntryOk(m, s, e);
    }
  }

  lemma TombsOnly(m: Manager, r: Manager)
    requires MInv(m) && r == m.(tombs := r.tombs) && TombsOk(r)
    ensures MInv(r)
  {
    forall s, e | s in r.sessions && e in r.sessions[s].pending ensures EntryOk(r, s, e) {
      assert EntryOk(m, s, e);
    }
  }

  lemma {:induction false} DropAllKeepsInv(m: Manager, sid: Sid, execs: seq<ExecId>, mark: Option<Mark>, now: int)
    requires MInv(m) && sid in m.sessions
    ensures MInv(DropAll(m, sid, execs, mark, now))
    decreases |execs|
  {
    if execs != [] {
      var m1 := Drop(m, sid, execs[0]);
      DropKeepsInv(m, sid, execs[0]);
      if mark.Some? {
        var m2 := PutTombstone(m1, Key(sid, execs[0]), mark.value, now);
        PutTombstoneKeeps(m1, Key(sid, execs[0]), mark.value, now);
        TombsOnly(m1, m2);
      }
      DropAllKeepsInv(if mark.Some? then PutTombstone(m1, Key(sid, execs[0]), mark.value, now) else m1,
                      sid, execs[1..], mark, now);
    }
  }

  /** A drop of several entries touches no other session and no other table but the tombstones. */
  lemma {:induction false} DropAllFrame(m: Manager, sid: Sid, execs: seq<ExecId>, mark: Option<Mark>, now: int)
    requires sid in m.sessions
    ensures var r := DropAll(m, sid, execs, mark, now);
            && r.objs == m.objs && r.open == m.open && r.byHost == m.byHost && r.config == m.config
            && (forall s | s in m.sessions && s != sid :: r.sessions[s] == m.sessions[s])
            && r.sessions[sid] == m.sessions[sid].(pending := r.sessions[sid].pending, order := r.sessions[sid].order)
    decreases |execs|
  {
    if execs != [] {
      var m1 := Drop(m, sid, execs[0]);
      DropAllFrame(if mark.Some? then PutTombstone(m1, Key(sid, execs[0]), mark.value, now) else m1,
                   sid, execs[1..], mark, now);
    }
  }

  lemma {:induction false} DropAllPending(m: Manager, sid: Sid, execs: seq<ExecId>, mark: Option<Mark>, now: int)
    requires sid in m.sessions
    ensures DropAll(m, sid, execs, mark, now).sessions[sid].pending == m.sessions[sid].pending - (set e | e in execs)
    decreases |execs|
  {
    if execs != [] {
      var m1 := Drop(m, sid, execs[0]);
      var m2 := if mark.Some? then PutTombstone(m1, Key(sid, execs[0]), mark.value, now) else m1;
      assert m2.sessions == m1.sessions;
      DropAllPending(m2, sid, execs[1..], mark, now);
      MinusFirst(m.sessions[sid].pending, execs);
    }
  }

  lemma MinusFirst(pending: map<ExecId, Pid>, execs: seq<ExecId>)
    requires execs != []
    ensures pending - {execs[0]} - (set e | e in execs[1..]) == pending - (set e | e in execs)
  {
    assert (set e | e in execs) == {execs[0]} + (set e | e in execs[1..]);
  }

  lemma DropAllEmpties(m: Manager, sid: Sid, mark: Option<Mark>, now: int)
    requires sid in m.sessions && OrderOk(m.sessions[sid])
    ensures DropAll(m, sid, m.sessions[sid].order, mark, now).sessions[sid].pending == map[]
  {
    DropAllPending(m, sid, m.sessions[sid].order, mark, now);
  }

  lemma ForgetKeepsInv(m: Manager, sid: Sid)
    requires MInv(m) && sid in m.sessions && m.sessions[sid].pending == map[]
    ensures MInv(Forget(m, sid))
  {
    WithoutDistinct(m.open, sid);
    var r := Forget(m, sid);
    forall s, e | s in r.sessions && e in r.sessions[s].pending ensures EntryOk(r, s, e) {
      assert EntryOk(m, s, e);
    }
  }

  lemma CloseKeepsInv(m: Manager, sid: Sid, reason: Reason, now: int)
    requires MInv(m)
    ensures MInv(Close(m, sid, reason, now))
  {
    if sid in m.sessions && !m.sessions[sid].closed {
      var mark := if IsTerminalReason(reason) then Some(Left(reason)) else None;
      DropAllKeepsInv(m, sid, m.sessions[sid].order, mark, now);
      DropAllEmpties(m, sid, mark, now);
      ForgetKeepsInv(DropAll(m, sid, m.sessions[sid].order, mark, now), sid);
    }
  }

  /** Close ends exactly this session: its entries go, every other session is untouched. */
  lemma CloseEffect(m: Manager, sid: Sid, reason: Reason, now: int)
    requires sid in m.sessions
    ensures var r := Close(m, sid, reason, now);
            && r.sessions[sid].closed
            && r.objs == m.objs && r.config == m.config
            && (forall s | s in m.sessions && s != sid :: r.sessions[s] == m.sessions[s])
            && (!m.sessions[sid].closed ==> r.sessions[sid].pending == map[])
  {
    if !m.sessions[sid].closed {
      var mark := if IsTerminalReason(reason) then Some(Left(reason)) else None;
      DropAllFrame(m, sid, m.sessions[sid].order, mark, now);
    }
  }

  lemma SettleKeepsInv(m: Manager, sid: Sid, now: int)
    requires MInv(m)
    ensures MInv(SettleBridged(m, sid, now)) && MInv(AbandonPending(m, sid, now))
  {
    if sid in m.sessions && !m.sessions[sid].closed {
      DropAllKeepsInv(m, sid, Settleable(m, m.sessions[sid], m.sessions[sid].order), Some(WasDelivered), now);
      DropAllKeepsInv(m, sid, m.sessions[sid].order, Some(Left(HostInterrupted)), now);
    }
  }

  lemma {:induction false} EnforceCapKeepsInv(m: Manager, keep: Sid, now: int)
    requires MInv(m)
    ensures MInv(EnforceCap(m, keep, now))
    ensures keep in m.open ==> keep in EnforceCap(m, keep, now).open
    decreases |m.open|
  {
    var oldest := Oldest(m, keep, 0, None);
    if |m.open| > m.config.maxOpen && oldest.Some? {
      CloseKeepsInv(m, oldest.value, OpenSessionCapExceeded, now);
      CloseKeepsOthersOpen(m, oldest.value, OpenSessionCapExceeded, now);
      EnforceCapKeepsInv(Close(m, oldest.value, OpenSessionCapExceeded, now), keep, now);
    }
  }

  lemma CloseKeepsOthersOpen(m: Manager, sid: Sid, reason: Reason, now: int)
    ensures forall s | s in m.open && s != sid :: s in Close(m, sid, reason, now).open
  {}

  lemma SetHostKeepsInv(m: Manager, sid: Sid, host: HostId)
    requires MInv(m) && sid in m.open && m.sessions[sid].host == Some(host)
    ensures MInv(m.(byHost := m.byHost[host := sid]))
  {
    var r := m.(byHost := m.byHost[host := sid]);
    forall s, e | s in r.sessions && e in r.sessions[s].pending ensures EntryOk(r, s, e) {
      assert EntryOk(m, s, e);
    }
  }

  lemma SupersedeKeepsInv(m: Manager, sid: Sid, host: HostId, now: int)
    requires MInv(m) && sid in m.open && m.sessions[sid].host == Some(host)
    ensures MInv(Supersede(m, sid, host, now)) && sid in Supersede(m, sid, host, now).open
  {
    var prior := if host in m.byHost then m.byHost[host] else sid;
    var settled := SettleBridged(m, prior, now);
    var ended := Close(settled, prior, SupersededByNewRun, now);
    var r := Supersede(m, sid, host, now);
    SupersedeCases(m, sid, host, now);
    if r == m.(byHost := m.byHost[host := sid]) {
      SetHostKeepsInv(m, sid, host);
    } else {
      SettleKeepsInv(m, prior, now);
      SettleKeepsHosts(m, prior, now);
      if r == settled.(byHost := settled.byHost[host := sid]) {
        SetHostKeepsInv(settled, sid, host);
      } else {
        SupersededClosed(settled, sid, host, prior, now);
      }
    }
  }

  lemma SupersedeCases(m: Manager, sid: Sid, host: HostId, now: int)
    ensures var prior := if host in m.byHost then m.byHost[host] else sid;
            var settled := SettleBridged(m, prior, now);
            var ended := Close(settled, prior, SupersededByNewRun, now);
            var r := Supersede(m, sid, host, now);
            || r == m.(byHost := m.byHost[host := sid])
            || r == settled.(byHost := settled.byHost[host := sid])
            || (prior != sid && r == ended.(byHost := ended.byHost[host := sid]))
  {}

  lemma SupersededClosed(m: Manager, sid: Sid, host: HostId, prior: Sid, now: int)
    requires MInv(m) && sid in m.open && m.sessions[sid].host == Some(host) && prior != sid
    ensures var r := Close(m, prior, SupersededByNewRun, now);
            MInv(r.(byHost := r.byHost[host := sid])) && sid in r.open
  {
    CloseKeepsInv(m, prior, SupersededByNewRun, now);
    CloseKeepsHost(m, prior, SupersededByNewRun, now, sid);
    CloseKeepsOthersOpen(m, prior, SupersededByNewRun, now);
    SetHostKeepsInv(Close(m, prior, SupersededByNewRun, now), sid, host);
  }

  lemma SettleKeepsHosts(m: Manager, sid: Sid, now: int)
    ensures forall s | s in m.sessions :: SettleBridged(m, sid, now).sessions[s].host == m.sessions[s].host
  {
    if sid in m.sessions && !m.sessions[sid].closed {
      DropAllFrame(m, sid, Settleable(m, m.sessions[sid], m.sessions[sid].order), Some(WasDelivered), now);
    }
  }

  lemma CloseKeepsHost(m: Manager, sid: Sid, reason: Reason, now: int, s: Sid)
    requires s in m.sessions && s != sid
    ensures Close(m, sid, reason, now).sessions[s].host == m.sessions[s].host
  {
    if sid in m.sessions {
      CloseEffect(m, sid, reason, now);
    }
  }

  lemma RegisterKeepsInv(m: Manager, sid: Sid, now: int)
    requires MInv(m) && Register(m, sid, now).Some?
    ensures MInv(Register(m, sid, now).value) && sid in Register(m, sid, now).value.open
  {
    if sid !in m.open {
      var m1 := m.(open := m.open + [sid]);
      AppendDistinct(m.open, sid);
      forall s, e | s in m1.sessions && e in m1.sessions[s].pending ensures EntryOk(m1, s, e) {
        assert EntryOk(m, s, e);
      }
      assert MInv(m1);
      if m.sessions[sid].host.Some? {
        SupersedeKeepsInv(m1, sid, m.sessions[sid].host.value, now);
        EnforceCapKeepsInv(Supersede(m1, sid, m.sessions[sid].host.value, now), sid, now);
      } else {
        EnforceCapKeepsInv(m1, sid, now);
      }
    }
  }

  lemma AddPendingKeepsInv(m: Manager, sid: Sid, p: Pending)
    requires MInv(m) && sid in m.open
    ensures MInv(AddPending(m, sid, p))
  {
    WithoutKeyOnce(m.tombs, Key(sid, p.exec));
    AddPendingOwed(m, sid, p);
    AddPendingIndexed(m, sid, p);
  }

  lemma AddPendingOwed(m: Manager, sid: Sid, p: Pending)
    requires OwedOk(m) && OpenOk(m) && sid in m.open
    ensures OwedOk(AddPending(m, sid, p))
  {
    var r := AddPending(m, sid, p);
    assert OrderOk(m.sessions[sid]);
    if p.exec !in m.sessions[sid].pending {
      AppendDistinct(m.sessions[sid].order, p.exec);
    }
    forall s, e | s in r.sessions && e in r.sessions[s].pending ensures EntryOk(r, s, e) {
      if !(s == sid && e == p.exec) {
        assert EntryOk(m, s, e);
      }
    }
  }

  lemma AddPendingIndexed(m: Manager, sid: Sid, p: Pending)
    requires IndexExact(m) && sid in m.sessions
    ensures IndexExact(AddPending(m, sid, p))
  {}

  lemma SetPendingKeepsInv(m: Manager, pid: Pid, p: Pending)
    requires MInv(m) && pid < |m.objs|
    requires p.sid == m.objs[pid].sid && p.exec == m.objs[pid].exec && p.phase != Delivered
    ensures MInv(SetPending(m, pid, p))
  {
    var r := SetPending(m, pid, p);
    forall s, e | s in r.sessions && e in r.sessions[s].pending ensures EntryOk(r, s, e) {
      assert EntryOk(m, s, e);
    }
  }

  lemma SetSessionKeepsInv(m: Manager, sid: Sid, s: Session)
    requires MInv(m) && sid in m.sessions
    requires s.pending == m.sessions[sid].pending && s.order == m.sessions[sid].order
    requires s.host == m.sessions[sid].host && s.closed == m.sessions[sid].closed
    ensures MInv(SetSession(m, sid, s))
  {
    var r := SetSession(m, sid, s);
    forall t, e | t in r.sessions && e in r.sessions[t].pending ensures EntryOk(r, t, e) {
      assert EntryOk(m, t, e);
    }
  }

  lemma ClassifyKeepsInv(m: Manager, key: Key, env: Env)
    requires MInv(m)
    ensures MInv(Classify(m, key, env).0)
  {
    if !(Reachable(m, key, env) && !env.expired) {
      RefreshKeepsInv(m, key, env);
      var m1 := Refresh(m, key, env);
      var m2 := AnswerFromTombstone(m1, key, env.now).0;
      WithoutKeyOnce(m1.tombs, key);
      TombsOnly(m1, m2);
    }
  }

  /** A session that no longer answers is closed, which also clears its index entries. */
  lemma RefreshKeepsInv(m: Manager, key: Key, env: Env)
    requires MInv(m)
    ensures MInv(Refresh(m, key, env))
  {
    if key in m.index {
      var sid := m.index[key];
      assert sid == key.sid && EntryOk(m, sid, key.exec);
      if !Reachable(m, key, env) {
        CloseKeepsInv(m, sid, RemoteCleanClose, env.now);
        ClosedEitherWay(m, key, env.now);
      } else if env.expired {
        CloseKeepsInv(m, sid, HardCapExpired, env.now);
      }
    }
  }

  lemma ClosedEitherWay(m: Manager, key: Key, now: int)
    requires key.sid in m.sessions && key.exec in m.sessions[key.sid].pending
    requires OrderOk(m.sessions[key.sid])
    ensures Close(m.(index := m.index - {key}), key.sid, RemoteCleanClose, now)
         == Close(m, key.sid, RemoteCleanClose, now)
  {
    assert key.exec in m.sessions[key.sid].order;
    DroppedTwice(m, key.sid, m.sessions[key.sid].order, Some(Left(RemoteCleanClose)), now, key.exec);
  }

  /** Deleting an index entry first makes no difference to a drop that deletes it too. */
  lemma {:induction false} DroppedTwice(m: Manager, sid: Sid, execs: seq<ExecId>, mark: Option<Mark>, now: int, exec: ExecId)
    requires sid in m.sessions
    ensures exec in execs ==>
              DropAll(m.(index := m.index - {Key(sid, exec)}), sid, execs, mark, now) == DropAll(m, sid, execs, mark, now)
    decreases |execs|
  {
    if execs != [] && exec in execs {
      var n := m.(index := m.index - {Key(sid, exec)});
      var m1, n1 := Drop(m, sid, execs[0]), Drop(n, sid, execs[0]);
      if execs[0] == exec {
        assert n1.index == m1.index;
        assert n1 == m1;
      } else {
        assert n1.index == m1.index - {Key(sid, exec)};
        var m2 := if mark.Some? then PutTombstone(m1, Key(sid, execs[0]), mark.value, now) else m1;
        var n2 := if mark.Some? then PutTombstone(n1, Key(sid, execs[0]), mark.value, now) else n1;
        assert n2 == m2.(index := m2.index - {Key(sid, exec)});
        DroppedTwice(m2, sid, execs[1..], mark, now, exec);
      }
    }
  }

  lemma CompleteKeepsInv(m: Manager, sid: Sid, exec: ExecId, pid: Pid, now: int)
    requires MInv(m) && Owed(m, sid, exec, pid)
    ensures pid < |m.objs| && MInv(Complete(m, sid, exec, pid, now))
  {
    assert EntryOk(m, sid, exec);
    var d := Drop(m, sid, exec);
    DropKeepsInv(m, sid, exec);
    RetireKeepsInv(d, pid, m.objs[pid].(phase := Delivered), sid, exec);
    var t := SetPending(d, pid, m.objs[pid].(phase := Delivered));
    var u := PutTombstone(t, Key(sid, exec), WasDelivered, now);
    PutTombstoneKeeps(t, Key(sid, exec), WasDelivered, now);
    TombsOnly(t, u);
    if m.objs[pid].answered {
      SetSessionKeepsInv(u, sid, u.sessions[sid].(answeredContinuation := true));
    }
    CompleteIs(m, sid, exec, pid, now);
  }

  /** The same end state, dropping first. */
  lemma CompleteIs(m: Manager, sid: Sid, exec: ExecId, pid: Pid, now: int)
    requires sid in m.sessions && pid < |m.objs|
    ensures var u := PutTombstone(SetPending(Drop(m, sid, exec), pid, m.objs[pid].(phase := Delivered)),
                                  Key(sid, exec), WasDelivered, now);
            Complete(m, sid, exec, pid, now)
            == if m.objs[pid].answered then SetSession(u, sid, u.sessions[sid].(answeredContinuation := true)) else u
  {
    if m.objs[pid].answered {
      var s := m.sessions[sid];
      assert m.sessions[sid := s.(answeredContinuation := true)]
             [sid := s.(answeredContinuation := true, pending := s.pending - {exec}, order := Without(s.order, exec))]
          == m.sessions[sid := s.(pending := s.pending - {exec}, order := Without(s.order, exec))]
             [sid := s.(answeredContinuation := true, pending := s.pending - {exec}, order := Without(s.order, exec))];
    }
  }

  /** An entry nothing owes any more may become delivered. */
  lemma RetireKeepsInv(m: Manager, pid: Pid, p: Pending, sid: Sid, exec: ExecId)
    requires MInv(m) && pid < |m.objs|
    requires m.objs[pid].sid == sid && m.objs[pid].exec == exec
    requires sid in m.sessions && exec !in m.sessions[sid].pending
    ensures MInv(SetPending(m, pid, p))
  {
    var r := SetPending(m, pid, p);
    forall s, e | s in r.sessions && e in r.sessions[s].pending ensures EntryOk(r, s, e) {
      assert EntryOk(m, s, e);
    }
  }

  lemma ResolveKeepsInv(m: Manager, key: Key, now: int)
    requires MInv(m)
    ensures MInv(Resolve(m, key, now))
  {
    if key in m.index {
      assert m.index[key] == key.sid;
      var d := Drop(m, key.sid, key.exec);
      DropKeepsInv(m, key.sid, key.exec);
      PutTombstoneKeeps(d, key, WasDelivered, now);
      assert d.index - {key} == d.index;
      TombsOnly(d, Resolve(m, key, now));
    } else {
      assert m.index - {key} == m.index;
    }
  }

  lemma {:induction false} CloseAllKeepsInv(m: Manager, sids: seq<Sid>, reason: Reason, now: int)
    requires MInv(m)
    ensures MInv(CloseAll(m, sids, reason, now))
    decreases |sids|
  {
    if sids != [] {
      CloseKeepsInv(m, sids[0], reason, now);
      CloseAllKeepsInv(Close(m, sids[0], reason, now), sids[1..], reason, now);
    }
  }

  lemma HasFirst(s: seq<Sid>)
    requires s != []
    ensures exists x :: x in s
  {
    assert s[0] in s;
  }

  lemma {:induction false} CloseAllCloses(m: Manager, sids: seq<Sid>, reason: Reason, now: int)
    requires MInv(m) && forall s | s in m.open :: s in sids
    ensures CloseAll(m, sids, reason, now).open == []
    decreases |sids|
  {
    if sids == [] {
      if m.open != [] {
        HasFirst(m.open);
      }
    } else {
      var m1 := Close(m, sids[0], reason, now);
      CloseKeepsInv(m, sids[0], reason, now);
      forall s | s in m1.open ensures s in sids[1..] {
        ClosedNotOpen(m, sids[0], reason, now);
      }
      CloseAllCloses(m1, sids[1..], reason, now);
    }
  }

  lemma ClosedNotOpen(m: Manager, sid: Sid, reason: Reason, now: int)
    requires MInv(m)
    ensures sid !in Close(m, sid, reason, now).open
    ensures forall s | s in Close(m, sid, reason, now).open :: s in m.open
  {}

  /** After disposal nothing is open, owed or indexed: clearing the index removes nothing more. */
  lemma DisposeKeepsInv(m: Manager, now: int)
    requires MInv(m)
    ensures MInv(Dispose(m, now)) && Dispose(m, now).open == []
  {
    var r := CloseAll(m, m.open, ProcessDisposed, now);
    CloseAllKeepsInv(m, m.open, ProcessDisposed, now);
    CloseAllCloses(m, m.open, ProcessDisposed, now);
    assert forall k | k in r.index :: EntryOk(r, k.sid, k.exec);
    assert r.index == map[];
  }

  // ----------------------------------------------- what each operation does

  lemma {:induction false} WithoutLength<T(!new)>(s: seq<T>, x: T)
    requires Distinct(s)
    ensures |Without(s, x)| == |s| - if x in s then 1 else 0
  {
    if s != [] {
      WithoutLength(s[1..], x);
      HeadOnce(s);
    }
  }

  lemma HeadOnce<T(!new)>(s: seq<T>)
    requires Distinct(s) && s != []
    ensures s[0] !in s[1..]
  {
    forall i | 0 <= i < |s[1..]| ensures s[1..][i] != s[0] {
      assert s[1..][i] == s[i + 1];
    }
  }

  /** What the cap did: it closed only sessions it may close, the oldest ones,
      no more than it had to, and stopped when it met the cap or could close no
      more; all other sessions are untouched. */
  ghost predicate CappedTo(m: Manager, r: Manager, keep: Sid) {
    && r.objs == m.objs && r.config == m.config && r.sessions.Keys == m.sessions.Keys
    && (forall s | s in r.open :: s in m.open)
    && (forall s | s in m.sessions && (s in r.open || s !in m.open) :: r.sessions[s] == m.sessions[s])
    && (forall s | s in m.open && s !in r.open :: ClosedByCap(m, r, keep, s))
    && (|r.open| <= m.config.maxOpen || forall t | t in r.open :: !Evictable(m, t, keep))
    && (|r.open| == |m.open| || |r.open| >= m.config.maxOpen)
    && (|m.open| <= m.config.maxOpen ==> r.open == m.open)
  }

  ghost predicate ClosedByCap(m: Manager, r: Manager, keep: Sid, s: Sid) {
    && Evictable(m, s, keep) && s in r.sessions && r.sessions[s].closed
    && forall t | t in r.open && Evictable(m, t, keep) :: m.sessions[s].createdAt <= m.sessions[t].createdAt
  }

  lemma StillEvictable(m: Manager, m1: Manager, keep: Sid, s: Sid)
    requires s in m.sessions && s in m1.sessions && m1.sessions[s] == m.sessions[s] && m1.objs == m.objs
    ensures Evictable(m1, s, keep) <==> Evictable(m, s, keep)
  {}

  lemma OldestIsOldest(m: Manager, keep: Sid, t: Sid)
    requires t in m.open && Evictable(m, t, keep)
    ensures var oldest := Oldest(m, keep, 0, None);
            oldest.Some? && m.sessions[oldest.value].createdAt <= m.sessions[t].createdAt
  {
    var i :| 0 <= i < |m.open| && m.open[i] == t;
  }

  /** One close of the oldest, then the cap on what is left. */
  lemma CapStep(m: Manager, m1: Manager, r: Manager, keep: Sid, gone: Sid)
    requires gone in m.open && Evictable(m, gone, keep) && CappedTo(m1, r, keep) && OpenIsLive(m)
    requires forall t | t in m.open && Evictable(m, t, keep) :: m.sessions[gone].createdAt <= m.sessions[t].createdAt
    requires m1.objs == m.objs && m1.config == m.config && m1.sessions.Keys == m.sessions.Keys
    requires forall s | s in m.sessions && s != gone :: m1.sessions[s] == m.sessions[s]
    requires m1.sessions[gone].closed && gone !in m1.open && |m1.open| == |m.open| - 1 >= m.config.maxOpen
    requires forall s | s != gone :: s in m1.open <==> s in m.open
    ensures CappedTo(m, r, keep)
  {
    forall s | s in m.open && s !in r.open ensures ClosedByCap(m, r, keep, s) {
      if s != gone {
        assert ClosedByCap(m1, r, keep, s);
        StillEvictable(m, m1, keep, s);
      }
      forall t | t in r.open && Evictable(m, t, keep) ensures m.sessions[s].createdAt <= m.sessions[t].createdAt {
        StillEvictable(m, m1, keep, t);
      }
    }
    forall t | t in r.open ensures Evictable(m1, t, keep) <==> Evictable(m, t, keep) {
      StillEvictable(m, m1, keep, t);
    }
  }

  lemma CloseOpens(m: Manager, sid: Sid, reason: Reason, now: int)
    requires MInv(m) && sid in m.open
    ensures var r := Close(m, sid, reason, now);
            sid !in r.open && |r.open| == |m.open| - 1 && forall s | s != sid :: s in r.open <==> s in m.open
  {
    WithoutLength(m.open, sid);
  }

  /** The cap after a registration, all of it. */
  lemma {:induction false} CapEffect(m: Manager, keep: Sid, now: int)
    requires MInv(m)
    ensures MInv(EnforceCap(m, keep, now)) && CappedTo(m, EnforceCap(m, keep, now), keep)
    ensures keep in m.open ==> keep in EnforceCap(m, keep, now).open
    decreases |m.open|
  {
    EnforceCapKeepsInv(m, keep, now);
    var oldest := Oldest(m, keep, 0, None);
    if |m.open| > m.config.maxOpen && oldest.Some? {
      var gone := oldest.value;
      var m1 := Close(m, gone, OpenSessionCapExceeded, now);
      CloseKeepsInv(m, gone, OpenSessionCapExceeded, now);
      CloseEffect(m, gone, OpenSessionCapExceeded, now);
      CloseOpens(m, gone, OpenSessionCapExceeded, now);
      CapEffect(m1, keep, now);
      forall t | t in m.open && Evictable(m, t, keep) ensures m.sessions[gone].createdAt <= m.sessions[t].createdAt {
        OldestIsOldest(m, keep, t);
      }
      CapStep(m, m1, EnforceCap(m1, keep, now), keep, gone);
    } else if oldest.None? {
      forall t | t in m.open ensures !Evictable(m, t, keep) {
        if Evictable(m, t, keep) {
          OldestIsOldest(m, keep, t);
        }
      }
    }
  }

  /** Nothing but the entry under `exec` differs. */
  ghost predicate OnlyEntry(m: Manager, r: Manager, sid: Sid, exec: ExecId) {
    && sid in m.sessions && r.sessions.Keys == m.sessions.Keys && r.open == m.open && r.byHost == m.byHost
    && (forall s | s in m.sessions && s != sid :: r.sessions[s] == m.sessions[s])
    && r.sessions[sid].pending - {exec} == m.sessions[sid].pending - {exec}
    && r.index - {Key(sid, exec)} == m.index - {Key(sid, exec)}
  }

  /** A registered exec is owed by a fresh waiting entry, and by no other; its key
      is indexed, forgets what became of an earlier exec under it, and answers as
      deliverable. */
  lemma AddPendingEffect(m: Manager, sid: Sid, p: Pending, env: Env)
    requires MInv(m) && sid in m.open
    ensures var r, key, pid := AddPending(m, sid, p), Key(sid, p.exec), |m.objs|;
            && MInv(r) && OnlyEntry(m, r, sid, p.exec)
            && r.objs == m.objs + [p.(sid := sid, phase := Waiting, aborted := false)]
            && (forall q :: Owed(r, sid, p.exec, q) <==> q == pid)
            && key in r.index && FindTombstone(r.tombs, key).None?
            && (!env.expired && (env.streamClosed ==> p.answered) ==> Classify(r, key, env) == (r, Deliverable(pid)))
  {
    AddPendingKeepsInv(m, sid, p);
    AddPendingOnly(m, sid, p);
  }

  lemma AddPendingOnly(m: Manager, sid: Sid, p: Pending)
    requires sid in m.sessions
    ensures OnlyEntry(m, AddPending(m, sid, p), sid, p.exec)
  {
    var r := AddPending(m, sid, p);
    assert r.sessions[sid].pending - {p.exec} == m.sessions[sid].pending - {p.exec};
    assert r.index - {Key(sid, p.exec)} == m.index - {Key(sid, p.exec)};
  }

  /** The entry leaves its session and the index, its key is marked as
      delivered, and no other entry or session is touched. */
  ghost predicate Delivers(m: Manager, r: Manager, key: Key, now: int) {
    Departs(m, r, key) && MarkedDelivered(m, r, key, now)
  }

  ghost predicate Departs(m: Manager, r: Manager, key: Key) {
    && (forall s | s in m.sessions && s != key.sid :: s in r.sessions && r.sessions[s] == m.sessions[s])
    && key.sid in m.sessions && key.sid in r.sessions
    && r.sessions[key.sid].pending == m.sessions[key.sid].pending - {key.exec}
    && r.index == m.index - {key} && r.open == m.open && r.byHost == m.byHost
  }

  ghost predicate MarkedDelivered(m: Manager, r: Manager, key: Key, now: int) {
    m.config.tombstoneLimit > 0 ==>
      FindTombstone(r.tombs, key) == Some(Tombstone(key, WasDelivered, now + m.config.tombstoneTtl))
  }

  lemma PutMarks(m: Manager, key: Key, now: int)
    ensures MarkedDelivered(m, PutTombstone(m, key, WasDelivered, now), key, now)
  {
    if m.config.tombstoneLimit > 0 {
      PutTombstoneFinds(m, key, WasDelivered, now);
    }
  }

  lemma CompleteEffect(m: Manager, sid: Sid, exec: ExecId, pid: Pid, now: int)
    requires MInv(m) && Owed(m, sid, exec, pid)
    ensures var r := Complete(m, sid, exec, pid, now);
            && MInv(r) && Delivers(m, r, Key(sid, exec), now)
            && pid < |m.objs| && r.objs == m.objs[pid := m.objs[pid].(phase := Delivered)]
            && (r.sessions[sid].answeredContinuation <==> m.objs[pid].answered || m.sessions[sid].answeredContinuation)
  {
    CompleteKeepsInv(m, sid, exec, pid, now);
    CompleteDeparts(m, sid, exec, pid, now);
    CompleteTombs(m, sid, exec, pid, now);
    PutMarks(m, Key(sid, exec), now);
  }

  lemma CompleteDeparts(m: Manager, sid: Sid, exec: ExecId, pid: Pid, now: int)
    requires sid in m.sessions && pid < |m.objs|
    ensures var r := Complete(m, sid, exec, pid, now);
            && Departs(m, r, Key(sid, exec))
            && r.objs == m.objs[pid := m.objs[pid].(phase := Delivered)]
            && (r.sessions[sid].answeredContinuation <==> m.objs[pid].answered || m.sessions[sid].answeredContinuation)
  {}

  lemma CompleteTombs(m: Manager, sid: Sid, exec: ExecId, pid: Pid, now: int)
    requires sid in m.sessions && pid < |m.objs|
    ensures Complete(m, sid, exec, pid, now).tombs == PutTombstone(m, Key(sid, exec), WasDelivered, now).tombs
  {}

  /** Resolving is idle unless the exec is owed. */
  lemma ResolveEffect(m: Manager, key: Key, now: int)
    requires MInv(m)
    ensures var r := Resolve(m, key, now);
            && MInv(r) && r.objs == m.objs
            && if key in m.index then Delivers(m, r, key, now) else r == m
  {
    ResolveKeepsInv(m, key, now);
    if key in m.index {
      assert m.index[key] == key.sid && key.sid in m.sessions;
      ResolveDeparts(m, key, now);
      PutMarks(m, key, now);
    } else {
      assert m.index - {key} == m.index;
    }
  }

  lemma ResolveDeparts(m: Manager, key: Key, now: int)
    requires key in m.index && m.index[key] == key.sid && key.sid in m.sessions
    ensures var r := Resolve(m, key, now);
            r.objs == m.objs && Departs(m, r, key) && r.tombs == PutTombstone(m, key, WasDelivered, now).tombs
  {
    assert m.index - {key} - {key} == m.index - {key};
  }

  lemma {:induction false} SettleableDistinct(m: Manager, s: Session, execs: seq<ExecId>)
    requires Distinct(execs)
    ensures Distinct(Settleable(m, s, execs))
  {
    if execs != [] {
      SettleableDistinct(m, s, execs[1..]);
      HeadOnce(execs);
    }
  }

  lemma {:induction false} CountOf<T(!new)>(s: seq<T>)
    requires Distinct(s)
    ensures |set x | x in s| == |s|
  {
    if s != [] {
      CountOf(s[1..]);
      assert (set x | x in s) == {s[0]} + (set x | x in s[1..]);
      HeadOnce(s);
    }
  }

  /** Settling takes exactly the bridged, aborted or answered entries that no
      delivery has claimed, and counts each once; abandoning takes and counts all. */
  lemma SettleEffect(m: Manager, sid: Sid, now: int)
    requires MInv(m) && sid in m.sessions && !m.sessions[sid].closed
    ensures var s, left := m.sessions[sid], SettleBridged(m, sid, now).sessions[sid].pending;
            && left == s.pending - (set e | e in s.pending && CanSettle(m, s.pending[e]))
            && |Settleable(m, s, s.order)| == |set e | e in s.pending && CanSettle(m, s.pending[e])|
    ensures AbandonPending(m, sid, now).sessions[sid].pending == map[]
    ensures |m.sessions[sid].order| == |m.sessions[sid].pending|
  {
    var s := m.sessions[sid];
    assert OrderOk(s);
    DropAllPending(m, sid, Settleable(m, s, s.order), Some(WasDelivered), now);
    SettleableCount(m, s);
    DropAllEmpties(m, sid, Some(Left(HostInterrupted)), now);
  }

  lemma SettleableCount(m: Manager, s: Session)
    requires OrderOk(s)
    ensures var taken := Settleable(m, s, s.order);
            && (set e | e in taken) == (set e | e in s.pending && CanSettle(m, s.pending[e]))
            && |taken| == |set e | e in taken|
    ensures |s.order| == |s.pending|
  {
    SettleableDistinct(m, s, s.order);
    CountOf(Settleable(m, s, s.order));
    CountOf(s.order);
    assert |s.pending.Keys| == |s.pending|;
  }
}
