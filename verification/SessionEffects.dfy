/** What each operation of the session manager (src/session.ts) does to the
    sessions, entries, indexes and tombstones, spelled out over their fields. */
module SessionEffects {

  import opened Sessions

  // --------------------------------------------------------------------- marks

  /** The marks of other keys, in their order. */
  function Others(tombs: seq<Tombstone>, key: Key): seq<Tombstone> {
    if tombs == [] then [] else (if tombs[0].key == key then [] else [tombs[0]]) + Others(tombs[1..], key)
  }

  lemma {:induction false} WithoutIsOthers(tombs: seq<Tombstone>, key: Key)
    ensures WithoutKey(tombs, key) == Others(tombs, key)
  {
    if tombs != [] {
      WithoutIsOthers(tombs[1..], key);
    }
  }

  lemma {:induction false} OthersSplit(a: seq<Tombstone>, b: seq<Tombstone>, key: Key)
    ensures Others(a + b, key) == Others(a, key) + Others(b, key)
  {
    if a == [] {
      assert a + b == b;
    } else {
      var first := if a[0].key == key then [] else [a[0]];
      OthersSplit(a[1..], b, key);
      assert (a + b)[0] == a[0] && (a + b)[1..] == a[1..] + b;
      Associates(first, Others(a[1..], key), Others(b, key));
    }
  }

  lemma {:induction false} OthersAll(tombs: seq<Tombstone>, key: Key)
    requires forall i | 0 <= i < |tombs| :: tombs[i].key != key
    ensures Others(tombs, key) == tombs
  {
    if tombs != [] {
      OthersAll(tombs[1..], key);
    }
  }

  lemma Associates(a: seq<Tombstone>, b: seq<Tombstone>, c: seq<Tombstone>)
    ensures (a + b) + c == a + (b + c)
  {}

  /** One mark put on a list, and several. */
  function Put(tombs: seq<Tombstone>, x: Tombstone, limit: nat): seq<Tombstone> {
    Newest(Others(tombs, x.key) + [x], limit)
  }

  function PutAll(tombs: seq<Tombstone>, xs: seq<Tombstone>, limit: nat): seq<Tombstone>
    decreases |xs|
  {
    if xs == [] then tombs else PutAll(Put(tombs, xs[0], limit), xs[1..], limit)
  }

  ghost predicate DistinctKeys(xs: seq<Tombstone>) {
    forall i, j | 0 <= i < j < |xs| :: xs[i].key != xs[j].key
  }

  /** A put keeps what was put last before, as far as the limit allows. */
  lemma PutEnds(before: seq<Tombstone>, ys: seq<Tombstone>, x: Tombstone, limit: nat) returns (rest: seq<Tombstone>)
    requires |ys| + 1 <= limit && forall i | 0 <= i < |ys| :: ys[i].key != x.key
    ensures Put(before + ys, x, limit) == rest + (ys + [x])
  {
    OthersSplit(before, ys, x.key);
    OthersAll(ys, x.key);
    var a := Others(before, x.key);
    Associates(a, ys, [x]);
    rest := NewestEnds(a, ys + [x], limit);
  }

  lemma NewestEnds(a: seq<Tombstone>, b: seq<Tombstone>, limit: nat) returns (rest: seq<Tombstone>)
    requires |b| <= limit
    ensures Newest(a + b, limit) == rest + b
  {
    rest := if |a + b| > limit then a[|a + b| - limit..] else a;
  }

  /** So within the limit the marks put last end the list, in order. */
  lemma {:induction false} PutAllEnds(before: seq<Tombstone>, ys: seq<Tombstone>, xs: seq<Tombstone>, limit: nat) returns (rest: seq<Tombstone>)
    requires |ys| + |xs| <= limit && DistinctKeys(ys + xs)
    ensures PutAll(before + ys, xs, limit) == rest + (ys + xs)
    decreases |xs|
  {
    if xs == [] {
      rest := before;
      assert ys + xs == ys;
    } else {
      KeysApart(ys, xs);
      var next := PutEnds(before, ys, xs[0], limit);
      assert ys + [xs[0]] + xs[1..] == ys + xs;
      rest := PutAllEnds(next, ys + [xs[0]], xs[1..], limit);
    }
  }

  lemma KeysApart(ys: seq<Tombstone>, xs: seq<Tombstone>)
    requires DistinctKeys(ys + xs) && xs != []
    ensures forall i | 0 <= i < |ys| :: ys[i].key != xs[0].key
  {
    assert (ys + xs)[|ys|] == xs[0];
    forall i | 0 <= i < |ys| ensures (ys + xs)[i] == ys[i] {}
  }

  lemma {:induction false} FoundIsOnly(tombs: seq<Tombstone>, t: Tombstone)
    requires OneMarkEach(tombs) && t in tombs
    ensures FindTombstone(tombs, t.key) == Some(t)
  {
    if tombs[0] != t {
      FoundIsOnly(tombs[1..], t);
      var i :| 0 <= i < |tombs| && tombs[i] == t;
      assert tombs[0].key != tombs[i].key;
    }
  }

  function MarksFor(sid: Sid, execs: seq<ExecId>, mark: Mark, at: int): (xs: seq<Tombstone>)
    ensures |xs| == |execs| && forall i | 0 <= i < |xs| :: xs[i] == Tombstone(Key(sid, execs[i]), mark, at)
  {
    if execs == [] then [] else [Tombstone(Key(sid, execs[0]), mark, at)] + MarksFor(sid, execs[1..], mark, at)
  }

  /** Dropping entries with a mark puts these marks. */
  lemma {:induction false} DropAllPuts(m: Manager, sid: Sid, execs: seq<ExecId>, mark: Mark, now: int,
                                       tombs: seq<Tombstone>, at: int, limit: nat)
    requires sid in m.sessions && tombs == m.tombs && at == now + m.config.tombstoneTtl && limit == m.config.tombstoneLimit
    ensures DropAll(m, sid, execs, Some(mark), now).tombs == PutAll(tombs, MarksFor(sid, execs, mark, at), limit)
    decreases |execs|
  {
    if execs != [] {
      var x := Tombstone(Key(sid, execs[0]), mark, at);
      var m2 := PutTombstone(Drop(m, sid, execs[0]), Key(sid, execs[0]), mark, now);
      PutIs(Drop(m, sid, execs[0]), Key(sid, execs[0]), mark, now);
      DropAllPuts(m2, sid, execs[1..], mark, now, Put(tombs, x, limit), at, limit);
    }
  }

  lemma PutIs(m: Manager, key: Key, mark: Mark, now: int)
    ensures var r := PutTombstone(m, key, mark, now);
            && r.config == m.config && r.sessions == m.sessions
            && r.tombs == Put(m.tombs, Tombstone(key, mark, now + m.config.tombstoneTtl), m.config.tombstoneLimit)
  {
    WithoutIsOthers(m.tombs, key);
  }

  lemma {:induction false} DropAllOnce(m: Manager, sid: Sid, execs: seq<ExecId>, mark: Mark, now: int)
    requires sid in m.sessions && TombsOk(m)
    ensures TombsOk(DropAll(m, sid, execs, Some(mark), now))
    decreases |execs|
  {
    if execs != [] {
      PutTombstoneKeeps(Drop(m, sid, execs[0]), Key(sid, execs[0]), mark, now);
      DropAllOnce(PutTombstone(Drop(m, sid, execs[0]), Key(sid, execs[0]), mark, now), sid, execs[1..], mark, now);
    }
  }

  ghost predicate Marked(r: Manager, key: Key, mark: Mark, at: int) {
    FindTombstone(r.tombs, key) == Some(Tombstone(key, mark, at))
  }

  lemma LastAreIn(rest: seq<Tombstone>, xs: seq<Tombstone>, i: nat)
    requires i < |xs|
    ensures xs[i] in rest + xs
  {
    assert (rest + xs)[|rest| + i] == xs[i];
  }

  /** Each of the entries has its mark in the list, and only that. */
  ghost predicate HasMarks(tombs: seq<Tombstone>, sid: Sid, execs: seq<ExecId>, mark: Mark, at: int) {
    && OneMarkEach(tombs)
    && forall e | e in execs :: Tombstone(Key(sid, e), mark, at) in tombs
  }

  lemma MarksDiffer(sid: Sid, execs: seq<ExecId>, mark: Mark, at: int)
    requires Distinct(execs)
    ensures DistinctKeys(MarksFor(sid, execs, mark, at))
  {}

  lemma PutAllOnto(tombs: seq<Tombstone>, xs: seq<Tombstone>, limit: nat) returns (rest: seq<Tombstone>)
    requires DistinctKeys(xs) && |xs| <= limit
    ensures PutAll(tombs, xs, limit) == rest + xs
  {
    assert [] + xs == xs && tombs + [] == tombs;
    rest := PutAllEnds(tombs, [], xs, limit);
  }

  lemma EndsHave(final: seq<Tombstone>, rest: seq<Tombstone>, sid: Sid, execs: seq<ExecId>, mark: Mark, at: int)
    requires final == rest + MarksFor(sid, execs, mark, at) && OneMarkEach(final)
    ensures HasMarks(final, sid, execs, mark, at)
  {
    var xs := MarksFor(sid, execs, mark, at);
    forall e | e in execs ensures Tombstone(Key(sid, e), mark, at) in final {
      var i :| 0 <= i < |execs| && execs[i] == e;
      LastAreIn(rest, xs, i);
    }
  }

  lemma PutAllHas(tombs: seq<Tombstone>, final: seq<Tombstone>, sid: Sid, execs: seq<ExecId>, mark: Mark, at: int, limit: nat)
    requires final == PutAll(tombs, MarksFor(sid, execs, mark, at), limit) && OneMarkEach(final)
    requires Distinct(execs) && |execs| <= limit
    ensures HasMarks(final, sid, execs, mark, at)
  {
    MarksDiffer(sid, execs, mark, at);
    var rest := PutAllOnto(tombs, MarksFor(sid, execs, mark, at), limit);
    EndsHave(final, rest, sid, execs, mark, at);
  }

  /** Every entry dropped with a mark has it. */
  lemma DropAllHas(m: Manager, sid: Sid, execs: seq<ExecId>, mark: Mark, now: int, at: int)
    requires sid in m.sessions && TombsOk(m) && Distinct(execs) && |execs| <= m.config.tombstoneLimit
    requires at == now + m.config.tombstoneTtl
    ensures HasMarks(DropAll(m, sid, execs, Some(mark), now).tombs, sid, execs, mark, at)
  {
    DropAllPuts(m, sid, execs, mark, now, m.tombs, at, m.config.tombstoneLimit);
    DropAllOnce(m, sid, execs, mark, now);
    PutAllHas(m.tombs, DropAll(m, sid, execs, Some(mark), now).tombs, sid, execs, mark, at, m.config.tombstoneLimit);
  }

  lemma HasMarked(r: Manager, sid: Sid, execs: seq<ExecId>, mark: Mark, at: int, e: ExecId)
    requires HasMarks(r.tombs, sid, execs, mark, at) && e in execs
    ensures Marked(r, Key(sid, e), mark, at)
  {
    FoundIsOnly(r.tombs, Tombstone(Key(sid, e), mark, at));
  }

  /** All of the entries owed by `sid` bear a mark. */
  ghost predicate AllMarked(m: Manager, r: Manager, sid: Sid, mark: Mark, now: int)
    requires sid in m.sessions
  {
    |m.sessions[sid].pending| <= m.config.tombstoneLimit ==>
      forall e | e in m.sessions[sid].pending :: Marked(r, Key(sid, e), mark, now + m.config.tombstoneTtl)
  }

  /** Other keys' marks stay while the limit is not met. */
  lemma PutKeepsOthers(m: Manager, key: Key, mark: Mark, now: int, other: Key)
    requires TombsOk(m) && other != key && |m.tombs| < m.config.tombstoneLimit
    ensures FindTombstone(PutTombstone(m, key, mark, now).tombs, other) == FindTombstone(m.tombs, other)
  {
    var r := PutTombstone(m, key, mark, now);
    PutTombstoneKeeps(m, key, mark, now);
    var found := FindTombstone(m.tombs, other);
    if found.Some? {
      assert found.value in WithoutKey(m.tombs, key);
      assert found.value in r.tombs;
      FoundIsOnly(r.tombs, found.value);
    }
  }

  // ------------------------------------------------------------ close and settle

  /** Leaving a Run for these reasons tells a later result nothing. */
  ghost predicate Silent(reason: Reason) {
    reason == OrdinaryCleanup || reason == TurnEnded || reason == InitialWriteFailed
  }

  lemma CloseIs(m: Manager, sid: Sid, reason: Reason, now: int)
    requires sid in m.sessions && !m.sessions[sid].closed
    ensures Close(m, sid, reason, now)
         == Forget(DropAll(m, sid, m.sessions[sid].order, if Silent(reason) then None else Some(Left(reason)), now), sid)
  {}

  lemma ForgetTables(d: Manager, sid: Sid)
    requires sid in d.sessions
    ensures var r := Forget(d, sid);
            && r.sessions[sid].closed && r.sessions[sid].pending == map[] && r.tombs == d.tombs
            && (forall s :: s in r.open <==> s in d.open && s != sid)
            && r.byHost == if d.sessions[sid].host.Some? && d.sessions[sid].host.value in d.byHost && d.byHost[d.sessions[sid].host.value] == sid
                           then d.byHost - {d.sessions[sid].host.value} else d.byHost
  {}

  /** A close takes the session out of the open ones and the host index. */
  lemma CloseTables(m: Manager, sid: Sid, reason: Reason, now: int)
    requires HostsOk(m) && sid in m.sessions && !m.sessions[sid].closed
    ensures var r := Close(m, sid, reason, now);
            && r.sessions[sid].closed && r.sessions[sid].pending == map[]
            && (forall s :: s in r.open <==> s in m.open && s != sid)
            && (forall h :: h in r.byHost <==> h in m.byHost && m.byHost[h] != sid)
            && (forall h | h in r.byHost :: r.byHost[h] == m.byHost[h])
  {
    var mark := if Silent(reason) then None else Some(Left(reason));
    var d := DropAll(m, sid, m.sessions[sid].order, mark, now);
    DropAllFrame(m, sid, m.sessions[sid].order, mark, now);
    CloseIs(m, sid, reason, now);
    ForgetTables(d, sid);
    forall h | h in m.byHost && m.byHost[h] == sid ensures m.sessions[sid].host == Some(h) {}
  }

  /** It marks every result still owed with the reason, unless that is silent. */
  lemma CloseMarks(m: Manager, sid: Sid, reason: Reason, now: int)
    requires MInv(m) && sid in m.sessions && !m.sessions[sid].closed
    ensures var r := Close(m, sid, reason, now);
            if Silent(reason) then r.tombs == m.tombs else AllMarked(m, r, sid, Left(reason), now)
  {
    var order := m.sessions[sid].order;
    CloseIs(m, sid, reason, now);
    if Silent(reason) {
      ForgetTables(DropAll(m, sid, order, None, now), sid);
      DropsUnmarked(m, sid, order, now);
    } else {
      ForgetTables(DropAll(m, sid, order, Some(Left(reason)), now), sid);
      OrderMarked(m, sid, Left(reason), now);
      SameTombs(m, DropAll(m, sid, order, Some(Left(reason)), now), Close(m, sid, reason, now), sid, Left(reason), now);
    }
  }

  lemma SameTombs(m: Manager, d: Manager, r: Manager, sid: Sid, mark: Mark, now: int)
    requires sid in m.sessions && AllMarked(m, d, sid, mark, now) && r.tombs == d.tombs
    ensures AllMarked(m, r, sid, mark, now)
  {}

  lemma OrderMarked(m: Manager, sid: Sid, mark: Mark, now: int)
    requires TombsOk(m) && sid in m.sessions && OrderOk(m.sessions[sid])
    ensures AllMarked(m, DropAll(m, sid, m.sessions[sid].order, Some(mark), now), sid, mark, now)
  {
    var s := m.sessions[sid];
    OrderCount(s);
    if |s.pending| <= m.config.tombstoneLimit {
      DropAllHas(m, sid, s.order, mark, now, now + m.config.tombstoneTtl);
      HasAllMarked(m, DropAll(m, sid, s.order, Some(mark), now), sid, s.order, mark, now);
    }
  }

  lemma HasAllMarked(m: Manager, r: Manager, sid: Sid, order: seq<ExecId>, mark: Mark, now: int)
    requires sid in m.sessions && HasMarks(r.tombs, sid, order, mark, now + m.config.tombstoneTtl)
    requires forall e | e in m.sessions[sid].pending :: e in order
    ensures AllMarked(m, r, sid, mark, now)
  {
    forall e | e in m.sessions[sid].pending
      ensures Marked(r, Key(sid, e), mark, now + m.config.tombstoneTtl)
    {
      HasMarked(r, sid, order, mark, now + m.config.tombstoneTtl, e);
    }
  }

  lemma OrderCount(s: Session)
    requires OrderOk(s)
    ensures |s.order| == |s.pending| && Distinct(s.order) && forall e :: e in s.order <==> e in s.pending
  {
    CountOf(s.order);
    assert |s.pending.Keys| == |s.pending|;
  }

  lemma {:induction false} DropsUnmarked(m: Manager, sid: Sid, execs: seq<ExecId>, now: int)
    requires sid in m.sessions
    ensures DropAll(m, sid, execs, None, now).tombs == m.tombs
    decreases |execs|
  {
    if execs != [] {
      DropsUnmarked(Drop(m, sid, execs[0]), sid, execs[1..], now);
    }
  }

  /** An entry no Cursor write is needed for: display-only, withdrawn or already
      answered, and not being delivered. */
  ghost predicate NeedsNoWrite(p: Pending) {
    (p.bridged || p.aborted || p.answered) && p.phase != Claimed
  }

  /** What a session still owes once those entries are gone. */
  ghost function Remaining(m: Manager, sid: Sid): map<ExecId, Pid>
    requires sid in m.sessions
  {
    var pending := m.sessions[sid].pending;
    map e | e in pending && !(pending[e] < |m.objs| && NeedsNoWrite(m.objs[pending[e]])) :: pending[e]
  }

  /** Settling leaves the session open and owing exactly the entries that need a
      write. */
  lemma SettleLeaves(m: Manager, sid: Sid, now: int)
    requires MInv(m) && sid in m.sessions && !m.sessions[sid].closed
    ensures var r := SettleBridged(m, sid, now);
            && r.sessions[sid].pending == Remaining(m, sid) && !r.sessions[sid].closed
            && r.sessions[sid] == m.sessions[sid].(pending := r.sessions[sid].pending, order := r.sessions[sid].order)
            && (forall s | s in m.sessions && s != sid :: r.sessions[s] == m.sessions[s])
            && r.objs == m.objs && r.open == m.open && r.byHost == m.byHost && r.config == m.config
  {
    var s := m.sessions[sid];
    SettleEffect(m, sid, now);
    DropAllFrame(m, sid, Settleable(m, s, s.order), Some(WasDelivered), now);
    RemainingIs(m, sid);
  }

  lemma RemainingIs(m: Manager, sid: Sid)
    requires sid in m.sessions
    ensures var s := m.sessions[sid]; s.pending - (set e | e in s.pending && CanSettle(m, s.pending[e])) == Remaining(m, sid)
  {
    var s := m.sessions[sid];
    var left := s.pending - (set e | e in s.pending && CanSettle(m, s.pending[e]));
    forall e ensures e in left <==> e in Remaining(m, sid) {
      assert e in s.pending ==> (CanSettle(m, s.pending[e]) <==> s.pending[e] < |m.objs| && NeedsNoWrite(m.objs[s.pending[e]]));
    }
  }

  /** Each entry settled is found marked as delivered. */
  ghost predicate SettledMarked(m: Manager, r: Manager, sid: Sid, at: int)
    requires sid in m.sessions
  {
    forall e | e in m.sessions[sid].pending && e !in Remaining(m, sid) :: Marked(r, Key(sid, e), WasDelivered, at)
  }

  /** The others are marked as delivered. */
  lemma SettleMarks(m: Manager, sid: Sid, now: int)
    requires sid in m.sessions && TombsOk(m) && OrderOk(m.sessions[sid]) && !m.sessions[sid].closed && |m.sessions[sid].pending| <= m.config.tombstoneLimit
    ensures SettledMarked(m, SettleBridged(m, sid, now), sid, now + m.config.tombstoneTtl)
  {
    var at, taken := now + m.config.tombstoneTtl, Settleable(m, m.sessions[sid], m.sessions[sid].order);
    SettledHas(m, sid, now, at);
    HasSettled(m, SettleBridged(m, sid, now), sid, taken, at);
  }

  lemma HasSettled(m: Manager, r: Manager, sid: Sid, taken: seq<ExecId>, at: int)
    requires sid in m.sessions && HasMarks(r.tombs, sid, taken, WasDelivered, at) && OrderOk(m.sessions[sid])
    requires taken == Settleable(m, m.sessions[sid], m.sessions[sid].order)
    ensures SettledMarked(m, r, sid, at)
  {
    forall e | e in m.sessions[sid].pending && e !in Remaining(m, sid)
      ensures Marked(r, Key(sid, e), WasDelivered, at)
    {
      assert e in m.sessions[sid].order && e in taken;
      HasMarked(r, sid, taken, WasDelivered, at, e);
    }
  }

  lemma Taken(m: Manager, s: Session) returns (taken: seq<ExecId>)
    requires OrderOk(s)
    ensures taken == Settleable(m, s, s.order) && Distinct(taken) && |taken| <= |s.pending|
  {
    OrderCount(s);
    taken := Settleable(m, s, s.order);
    SettleableShort(m, s, s.order);
    SettleableDistinct(m, s, s.order);
  }

  lemma SettledHas(m: Manager, sid: Sid, now: int, at: int)
    requires TombsOk(m) && sid in m.sessions && !m.sessions[sid].closed && at == now + m.config.tombstoneTtl
    requires OrderOk(m.sessions[sid]) && |m.sessions[sid].pending| <= m.config.tombstoneLimit
    ensures HasMarks(SettleBridged(m, sid, now).tombs, sid, Settleable(m, m.sessions[sid], m.sessions[sid].order), WasDelivered, at)
  {
    var taken := Taken(m, m.sessions[sid]);
    DropAllHas(m, sid, taken, WasDelivered, now, at);
  }

  lemma {:induction false} SettleableShort(m: Manager, s: Session, execs: seq<ExecId>)
    ensures |Settleable(m, s, execs)| <= |execs|
  {
    if execs != [] {
      SettleableShort(m, s, execs[1..]);
    }
  }

  /** Abandoning leaves the session open and owing nothing, each result marked
      as interrupted by the host. */
  lemma AbandonLeaves(m: Manager, sid: Sid, now: int)
    requires MInv(m) && sid in m.sessions && !m.sessions[sid].closed
    ensures var r := AbandonPending(m, sid, now);
            && r.sessions[sid] == m.sessions[sid].(pending := map[], order := r.sessions[sid].order)
            && (forall s | s in m.sessions && s != sid :: r.sessions[s] == m.sessions[s])
            && r.objs == m.objs && r.open == m.open && r.byHost == m.byHost
            && AllMarked(m, r, sid, Left(HostInterrupted), now)
  {
    var s := m.sessions[sid];
    assert OrderOk(s);
    DropAllFrame(m, sid, s.order, Some(Left(HostInterrupted)), now);
    DropAllEmpties(m, sid, Some(Left(HostInterrupted)), now);
    OrderMarked(m, sid, Left(HostInterrupted), now);
  }

  /** A closed session owes nothing to settle, abandon or close. */
  lemma ClosedStays(m: Manager, sid: Sid, reason: Reason, now: int)
    requires sid !in m.sessions || m.sessions[sid].closed
    ensures SettleBridged(m, sid, now) == m && AbandonPending(m, sid, now) == m && Close(m, sid, reason, now) == m
  {}

  // ------------------------------------------------------------------- supersede

  /** The open, idle Run that `sid` replaces for its host session. */
  ghost predicate IsPrior(m: Manager, sid: Sid, host: HostId, prior: Sid) {
    && host in m.byHost && m.byHost[host] == prior && prior != sid
    && prior in m.sessions && !m.sessions[prior].closed && m.sessions[prior].pump.None?
  }

  /** The prior Run is closed if and only if nothing it owes needs a write;
      otherwise it stays open and owes exactly the rest. */
  ghost predicate PriorSuperseded(m: Manager, r: Manager, prior: Sid)
    requires prior in m.sessions
  {
    && prior in r.sessions
    && (if Remaining(m, prior) == map[] then r.sessions[prior].closed && r.sessions[prior].pending == map[] && prior !in r.open
        else
          && r.sessions[prior] == m.sessions[prior].(pending := Remaining(m, prior), order := r.sessions[prior].order)
          && prior in r.open)
  }

  /** A new Run of a host session supersedes the one before it. */
  lemma SupersedeEffect(m: Manager, sid: Sid, host: HostId, now: int)
    requires MInv(m) && sid in m.open && m.sessions[sid].host == Some(host)
    ensures var r := Supersede(m, sid, host, now);
            r.byHost == m.byHost[host := sid] && r.objs == m.objs && r.config == m.config
    ensures var r := Supersede(m, sid, host, now);
            forall s | s in m.sessions && !IsPrior(m, sid, host, s) ::
              s in r.sessions && r.sessions[s] == m.sessions[s] && (s in r.open <==> s in m.open)
    ensures forall prior | IsPrior(m, sid, host, prior) :: PriorSuperseded(m, Supersede(m, sid, host, now), prior)
  {
    if host in m.byHost && IsPrior(m, sid, host, m.byHost[host]) {
      PriorEffect(m, sid, host, m.byHost[host], now);
    } else {
      NoPrior(m, sid, host, now);
    }
  }

  lemma NoPrior(m: Manager, sid: Sid, host: HostId, now: int)
    requires host in m.byHost ==> !IsPrior(m, sid, host, m.byHost[host])
    ensures Supersede(m, sid, host, now) == m.(byHost := m.byHost[host := sid])
  {}

  lemma PriorEffect(m: Manager, sid: Sid, host: HostId, prior: Sid, now: int)
    requires MInv(m) && IsPrior(m, sid, host, prior)
    ensures var r := Supersede(m, sid, host, now);
            && r.byHost == m.byHost[host := sid] && r.objs == m.objs && r.config == m.config
            && (forall s | s in m.sessions && s != prior :: s in r.sessions && r.sessions[s] == m.sessions[s] && (s in r.open <==> s in m.open))
            && PriorSuperseded(m, r, prior)
  {
    var settled := SettleBridged(m, prior, now);
    SettleLeaves(m, prior, now);
    SettleKeepsInv(m, prior, now);
    PriorIsOpen(m, host, prior);
    if Remaining(m, prior) == map[] {
      var closed := Close(settled, prior, SupersededByNewRun, now);
      CloseEffect(settled, prior, SupersededByNewRun, now);
      CloseTables(settled, prior, SupersededByNewRun, now);
      PriorLeavesHost(m, settled, closed, host, prior, sid);
      assert Supersede(m, sid, host, now) == closed.(byHost := closed.byHost[host := sid]);
    } else {
      assert Supersede(m, sid, host, now) == settled.(byHost := settled.byHost[host := sid]);
    }
  }

  lemma PriorIsOpen(m: Manager, host: HostId, prior: Sid)
    requires HostsOk(m) && host in m.byHost && m.byHost[host] == prior
    ensures prior in m.open
  {}

  lemma PriorLeavesHost(m: Manager, settled: Manager, closed: Manager, host: HostId, prior: Sid, sid: Sid)
    requires HostsOk(m) && host in m.byHost && m.byHost[host] == prior && settled.byHost == m.byHost
    requires forall h :: h in closed.byHost <==> h in settled.byHost && settled.byHost[h] != prior
    requires forall h | h in closed.byHost :: closed.byHost[h] == settled.byHost[h]
    ensures closed.byHost[host := sid] == m.byHost[host := sid]
  {
    forall h | h in m.byHost && m.byHost[h] == prior ensures h == host {
      OneHost(m, h, host);
    }
  }

  lemma OneHost(m: Manager, g: HostId, h: HostId)
    requires HostsOk(m) && g in m.byHost && h in m.byHost && m.byHost[g] == m.byHost[h]
    ensures g == h
  {}

  // -------------------------------------------------------------------- register

  /** The cap may close a session that is not the new one, not pumping, and owes
      nothing but withdrawn results. */
  ghost predicate Idle(m: Manager, s: Sid, keep: Sid) {
    && s in m.sessions && s != keep && m.sessions[s].pump.None?
    && forall e | e in m.sessions[s].pending && m.sessions[s].pending[e] < |m.objs| :: m.objs[m.sessions[s].pending[e]].aborted
  }

  lemma EvictableIsIdle(m: Manager, s: Sid, keep: Sid)
    ensures Evictable(m, s, keep) <==> Idle(m, s, keep)
  {}

  lemma RegisterRefused(m: Manager, sid: Sid, now: int)
    requires OpenIsLive(m)
    ensures Register(m, sid, now).None? <==> sid !in m.sessions || m.sessions[sid].closed
    ensures sid in m.open ==> Register(m, sid, now) == Some(m)
  {}

  ghost predicate IsPriorOf(m: Manager, sid: Sid, s: Sid)
    requires sid in m.sessions
  {
    m.sessions[sid].host.Some? && IsPrior(m, sid, m.sessions[sid].host.value, s)
  }

  /** The new session joins the open ones and speaks for its host session. The
      Run before it is superseded; any other session is untouched, or closed as
      idle when there are more open ones than allowed. */
  ghost predicate Registers(m: Manager, r: Manager, sid: Sid)
    requires sid in m.sessions
  {
    && sid in r.open && sid in r.sessions && r.sessions[sid] == m.sessions[sid] && r.objs == m.objs
    && (m.sessions[sid].host.Some? ==> m.sessions[sid].host.value in r.byHost && r.byHost[m.sessions[sid].host.value] == sid)
    && (forall s | s in m.sessions && s != sid ::
          && s in r.sessions
          && (|| Capped(m, r, sid, s)
              || (if IsPriorOf(m, sid, s) then PriorSuperseded(m, r, s)
                  else r.sessions[s] == m.sessions[s] && (s in r.open <==> s in m.open))))
  }

  /** Closed because there were more open sessions than allowed: it was idle, once
      what needs no write was settled if it is the Run before. */
  ghost predicate Capped(m: Manager, r: Manager, sid: Sid, s: Sid)
    requires sid in m.sessions && s in m.sessions && s in r.sessions
  {
    && |m.open| + 1 > m.config.maxOpen
    && r.sessions[s].closed && s in m.open && m.sessions[s].pump.None?
    && forall e | e in m.sessions[s].pending && m.sessions[s].pending[e] < |m.objs| ::
         m.objs[m.sessions[s].pending[e]].aborted || (IsPriorOf(m, sid, s) && NeedsNoWrite(m.objs[m.sessions[s].pending[e]]))
  }

  lemma RegisterEffect(m: Manager, sid: Sid, now: int)
    requires MInv(m) && sid in m.sessions && !m.sessions[sid].closed && sid !in m.open
    ensures Register(m, sid, now).Some? && Registers(m, Register(m, sid, now).value, sid)
  {
    var m1 := m.(open := m.open + [sid]);
    Opened(m, sid);
    if m.sessions[sid].host.Some? {
      RegisterForHost(m, m1, sid, m.sessions[sid].host.value, now);
    } else {
      CapEffect(m1, sid, now);
      RegisterWithoutHost(m, m1, EnforceCap(m1, sid, now), sid);
    }
  }

  lemma RegisterForHost(m: Manager, m1: Manager, sid: Sid, host: HostId, now: int)
    requires m1 == m.(open := m.open + [sid]) && MInv(m1) && sid in m.sessions && m.sessions[sid].host == Some(host)
    ensures Registers(m, EnforceCap(Supersede(m1, sid, host, now), sid, now), sid)
  {
    var m2 := Supersede(m1, sid, host, now);
    SupersedeKeepsInv(m1, sid, host, now);
    SupersedeEffect(m1, sid, host, now);
    SupersedeOpens(m1, sid, host, now);
    CapEffect(m2, sid, now);
    CapKeepsHost(m2, sid, now, host);
    RegisterWithHost(m, m1, m2, EnforceCap(m2, sid, now), sid, host);
  }

  lemma SupersedeOpens(m: Manager, sid: Sid, host: HostId, now: int)
    requires OpenIsLive(m)
    ensures |Supersede(m, sid, host, now).open| <= |m.open|
  {}

  lemma {:induction false} CapKeepsHost(m: Manager, keep: Sid, now: int, host: HostId)
    requires MInv(m) && host in m.byHost && m.byHost[host] == keep
    ensures var r := EnforceCap(m, keep, now); host in r.byHost && r.byHost[host] == keep
    decreases |m.open|
  {
    var oldest := Oldest(m, keep, 0, None);
    if |m.open| > m.config.maxOpen && oldest.Some? {
      CloseKeepsInv(m, oldest.value, OpenSessionCapExceeded, now);
      CloseTables(m, oldest.value, OpenSessionCapExceeded, now);
      CapKeepsHost(Close(m, oldest.value, OpenSessionCapExceeded, now), keep, now, host);
    }
  }

  lemma RegisterWithoutHost(m: Manager, m1: Manager, r: Manager, sid: Sid)
    requires m1 == m.(open := m.open + [sid]) && sid in m.sessions && m.sessions[sid].host.None? && sid in r.open
    requires CappedTo(m1, r, sid)
    ensures Registers(m, r, sid)
  {
    forall s | s in m.sessions && s != sid && s in m.open && s !in r.open ensures Capped(m, r, sid, s) {
      assert ClosedByCap(m1, r, sid, s);
      EvictableIsIdle(m1, s, sid);
    }
  }

  lemma RegisterWithHost(m: Manager, m1: Manager, m2: Manager, r: Manager, sid: Sid, host: HostId)
    requires m1 == m.(open := m.open + [sid]) && sid in m.sessions && m.sessions[sid].host == Some(host) && sid in r.open
    requires m2.byHost == m1.byHost[host := sid] && m2.objs == m1.objs && m2.config == m1.config
    requires CappedTo(m2, r, sid) && |m2.open| <= |m1.open| && sid in m2.open && HostsOk(m1)
    requires host in r.byHost && r.byHost[host] == sid
    requires forall s | s in m1.sessions && !IsPrior(m1, sid, host, s) ::
               s in m2.sessions && m2.sessions[s] == m1.sessions[s] && (s in m2.open <==> s in m1.open)
    requires forall prior | IsPrior(m1, sid, host, prior) :: PriorSuperseded(m1, m2, prior)
    ensures Registers(m, r, sid)
  {
    forall s | s in m.sessions && s != sid && s in m2.open && s !in r.open ensures Capped(m, r, sid, s) {
      assert ClosedByCap(m2, r, sid, s);
      EvictableIsIdle(m2, s, sid);
      IdleBefore(m, m1, m2, r, sid, host, s);
    }
    forall s | s in m.sessions && s != sid ensures IsPriorOf(m, sid, s) <==> IsPrior(m1, sid, host, s) {}
  }

  /** A session idle after the supersede was idle before it, but for what was settled. */
  lemma IdleBefore(m: Manager, m1: Manager, m2: Manager, r: Manager, sid: Sid, host: HostId, s: Sid)
    requires m1 == m.(open := m.open + [sid]) && sid in m.sessions && m.sessions[sid].host == Some(host) && HostsOk(m1)
    requires m2.objs == m.objs && s in m.sessions && s in m2.sessions && s in r.sessions && r.sessions[s].closed
    requires IsPrior(m1, sid, host, s) ==> PriorSuperseded(m1, m2, s)
    requires !IsPrior(m1, sid, host, s) ==> m2.sessions[s] == m.sessions[s] && (s in m2.open <==> s in m1.open)
    requires s != sid && s in m2.open && Idle(m2, s, sid) && |m.open| + 1 > m.config.maxOpen
    ensures Capped(m, r, sid, s)
  {
    if IsPrior(m1, sid, host, s) {
      PriorIsOpen(m1, host, s);
    }
    assert s in m.open;
    forall e | e in m.sessions[s].pending && m.sessions[s].pending[e] < |m.objs|
      ensures m.objs[m.sessions[s].pending[e]].aborted || (IsPriorOf(m, sid, s) && NeedsNoWrite(m.objs[m.sessions[s].pending[e]]))
    {
      if IsPrior(m1, sid, host, s) && !NeedsNoWrite(m.objs[m.sessions[s].pending[e]]) {
        assert e in Remaining(m1, s);
        assert m2.sessions[s].pending == Remaining(m1, s);
      }
    }
  }

  lemma Opened(m: Manager, sid: Sid)
    requires MInv(m) && sid in m.sessions && !m.sessions[sid].closed && sid !in m.open
    ensures MInv(m.(open := m.open + [sid]))
  {
    var m1 := m.(open := m.open + [sid]);
    AppendDistinct(m.open, sid);
    forall s, e | s in m1.sessions && e in m1.sessions[s].pending ensures EntryOk(m1, s, e) {
      assert EntryOk(m, s, e);
    }
  }

  // -------------------------------------------------------------------- classify

  /** The exec is pending on its open session. */
  ghost predicate OwedAt(m: Manager, key: Key) {
    && key.sid in m.sessions && !m.sessions[key.sid].closed
    && key.exec in m.sessions[key.sid].pending && m.sessions[key.sid].pending[key.exec] < |m.objs|
  }

  lemma IndexedIsOwed(m: Manager, key: Key)
    requires MInv(m)
    ensures key in m.index <==> OwedAt(m, key)
  {
    if key in m.index {
      assert EntryOk(m, key.sid, key.exec) && OrderOk(m.sessions[key.sid]);
    }
  }

  /** Why the exec's session ends when the exec is looked up: its stream has ended
      and it is not answered, or its lease has run out. */
  ghost function Ending(m: Manager, key: Key, env: Env): Option<Reason>
    requires OwedAt(m, key)
  {
    if env.streamClosed && !m.objs[m.sessions[key.sid].pending[key.exec]].answered then Some(RemoteCleanClose)
    else if env.expired then Some(HardCapExpired) else None
  }

  /** The session is closed, no other is touched, and the exec answers with the
      reason, if its mark fits and has a life. */
  ghost predicate EndedFor(m: Manager, r: Manager, answer: Classification, key: Key, reason: Reason, now: int)
    requires key.sid in m.sessions
  {
    && key.sid in r.sessions && r.sessions[key.sid].closed && r.sessions[key.sid].pending == map[] && key !in r.index
    && (forall s | s in m.sessions && s != key.sid :: s in r.sessions && r.sessions[s] == m.sessions[s])
    && r.objs == m.objs
    && (|m.sessions[key.sid].pending| <= m.config.tombstoneLimit && m.config.tombstoneTtl > 0 ==> answer == Terminal(reason))
  }

  lemma ClassifyEnds(m: Manager, key: Key, env: Env)
    requires MInv(m) && OwedAt(m, key) && Ending(m, key, env).Some?
    ensures EndedFor(m, Classify(m, key, env).0, Classify(m, key, env).1, key, Ending(m, key, env).value, env.now)
  {
    EndingCloses(m, key, env);
    EndingAnswer(m, key, Ending(m, key, env).value, env.now);
  }

  lemma EndingCloses(m: Manager, key: Key, env: Env)
    requires MInv(m) && OwedAt(m, key) && Ending(m, key, env).Some?
    ensures Classify(m, key, env) == AnswerFromTombstone(Close(m, key.sid, Ending(m, key, env).value, env.now), key, env.now)
    ensures !Silent(Ending(m, key, env).value)
  {
    IndexFacts(m, key);
    ClassifyCloses(m, key, env);
  }

  lemma IndexFacts(m: Manager, key: Key)
    requires MInv(m) && OwedAt(m, key)
    ensures key in m.index && m.index[key] == key.sid && OrderOk(m.sessions[key.sid])
  {
    IndexedIsOwed(m, key);
  }

  lemma EndingAnswer(m: Manager, key: Key, reason: Reason, now: int)
    requires MInv(m) && OwedAt(m, key) && !Silent(reason)
    ensures var result := AnswerFromTombstone(Close(m, key.sid, reason, now), key, now);
            EndedFor(m, result.0, result.1, key, reason, now)
  {
    IndexedIsOwed(m, key);
    ClosedAnswer(m, key, reason, now);
  }

  /** Otherwise it is deliverable while it waits and a duplicate while it is being
      delivered, and nothing changes. */
  lemma ClassifyAnswers(m: Manager, key: Key, env: Env)
    requires MInv(m) && OwedAt(m, key) && Ending(m, key, env).None?
    ensures var pid := m.sessions[key.sid].pending[key.exec];
            Classify(m, key, env) == (m, if m.objs[pid].phase == Waiting then Deliverable(pid) else Duplicate(false))
  {
    IndexedIsOwed(m, key);
    ClassifyStays(m, key, env);
  }

  lemma ClassifyCloses(m: Manager, key: Key, env: Env)
    requires OwedAt(m, key) && Ending(m, key, env).Some?
    requires key in m.index && m.index[key] == key.sid && OrderOk(m.sessions[key.sid])
    ensures Classify(m, key, env) == AnswerFromTombstone(Close(m, key.sid, Ending(m, key, env).value, env.now), key, env.now)
  {
    if Ending(m, key, env) == Some(RemoteCleanClose) {
      ClosedEitherWay(m, key, env.now);
    }
  }

  lemma ClassifyStays(m: Manager, key: Key, env: Env)
    requires MInv(m) && key in m.index && m.index[key] == key.sid && key.sid in m.sessions && !m.sessions[key.sid].closed
    requires key.exec in m.sessions[key.sid].pending && m.sessions[key.sid].pending[key.exec] < |m.objs|
    requires !(env.streamClosed && !m.objs[m.sessions[key.sid].pending[key.exec]].answered) && !env.expired
    ensures var pid := m.sessions[key.sid].pending[key.exec];
            Classify(m, key, env) == (m, if m.objs[pid].phase == Waiting then Deliverable(pid) else Duplicate(false))
  {
    assert EntryOk(m, key.sid, key.exec);
  }

  lemma ClosedAnswer(m: Manager, key: Key, reason: Reason, now: int)
    requires MInv(m) && key in m.index && key.sid in m.sessions && !m.sessions[key.sid].closed && !Silent(reason)
    requires key.exec in m.sessions[key.sid].pending
    ensures var (r, answer) := AnswerFromTombstone(Close(m, key.sid, reason, now), key, now);
            EndedFor(m, r, answer, key, reason, now)
  {
    var closed := Close(m, key.sid, reason, now);
    CloseKeepsInv(m, key.sid, reason, now);
    CloseEffect(m, key.sid, reason, now);
    CloseMarks(m, key.sid, reason, now);
    NotIndexed(closed, key);
    AnswerKeepsSessions(closed, key, now);
    if |m.sessions[key.sid].pending| <= m.config.tombstoneLimit && m.config.tombstoneTtl > 0 {
      assert Marked(closed, key, Left(reason), now + m.config.tombstoneTtl);
    }
  }

  lemma NotIndexed(m: Manager, key: Key)
    requires MInv(m) && key.sid in m.sessions && m.sessions[key.sid].closed
    ensures key !in m.index
  {
    ClosedIsGone(m, key.sid);
  }

  lemma AnswerKeepsSessions(m: Manager, key: Key, now: int)
    ensures AnswerFromTombstone(m, key, now).0 == m.(tombs := AnswerFromTombstone(m, key, now).0.tombs)
  {}

  /** An exec nobody owes answers by its mark: delivered, or why its Run ended;
      without one, or with one that has expired and goes, it is missing. */
  lemma ClassifyUnowed(m: Manager, key: Key, env: Env)
    requires MInv(m) && key !in m.index
    ensures (forall t | t in m.tombs :: t.key != key) ==> Classify(m, key, env) == (m, Missing)
    ensures forall t | t in m.tombs && t.key == key ::
              var (r, answer) := Classify(m, key, env);
              if env.now >= t.expiresAt then
                && answer == Missing && r == m.(tombs := r.tombs)
                && forall x :: x in r.tombs <==> x in m.tombs && x.key != key
              else r == m && answer == if t.mark == WasDelivered then Duplicate(true) else Terminal(t.mark.reason)
  {
    forall t | t in m.tombs && t.key == key
      ensures FindTombstone(m.tombs, key) == Some(t)
    {
      FoundIsOnly(m.tombs, t);
    }
  }

  /** A claim is a classification, and a deliverable entry is claimed by it. */
  lemma ClaimEffect(m: Manager, key: Key, env: Env)
    ensures var (r, answer) := Claim(m, key, env);
            && answer == Classify(m, key, env).1
            && (match answer
                case Deliverable(pid) => pid < |m.objs| && r == m.(objs := m.objs[pid := m.objs[pid].(phase := Claimed)])
                case _ => r == Classify(m, key, env).0)
  {}

  // --------------------------------------------------------------- single entries

  /** A held exec is forgotten, without a mark, exactly while the very entry that
      held it waits on an open session and was not withdrawn. */
  lemma ForgetEffect(m: Manager, sid: Sid, exec: ExecId, pid: Pid)
    requires MInv(m)
    ensures var (r, forgotten) := ForgetHeld(m, sid, exec, pid);
            && (forgotten <==>
                  && sid in m.sessions && exec in m.sessions[sid].pending && m.sessions[sid].pending[exec] == pid
                  && pid < |m.objs| && m.objs[pid].phase == Waiting && !m.objs[pid].aborted)
            && (!forgotten ==> r == m)
            && (forgotten ==> Departs(m, r, Key(sid, exec)) && r.tombs == m.tombs && r.objs == m.objs)
  {
    if sid in m.sessions && exec in m.sessions[sid].pending {
      assert OrderOk(m.sessions[sid]);
    }
  }

  /** Cursor can withdraw an exec that waits for the host, once; nothing else changes. */
  lemma AbortEffect(m: Manager, sid: Sid, exec: ExecId)
    requires MInv(m)
    ensures var (r, aborted) := MarkAborted(m, sid, exec);
            && (aborted <==>
                  && sid in m.sessions && exec in m.sessions[sid].pending && m.sessions[sid].pending[exec] < |m.objs|
                  && var p := m.objs[m.sessions[sid].pending[exec]];
                     p.phase == Waiting && !p.bridged && !p.aborted && !p.answered)
            && (!aborted ==> r == m)
            && (aborted ==>
                  var pid := m.sessions[sid].pending[exec]; r == m.(objs := m.objs[pid := m.objs[pid].(aborted := true)]))
  {
    if sid in m.sessions && exec in m.sessions[sid].pending {
      assert OrderOk(m.sessions[sid]);
    }
  }

  // --------------------------------------------------------------- pump and stream

  /** Everything the session owes was answered, or it has just been told so; not
      once the host has interrupted it. */
  ghost predicate OnlyAnswered(m: Manager, s: Session) {
    && !s.interrupted
    && (s.pending == map[] ==> s.answeredContinuation)
    && forall e | e in s.pending :: s.pending[e] < |m.objs| && m.objs[s.pending[e]].answered
  }

  /** A pump starts only on an open session that no other pump reads. */
  lemma BeginPumpEffect(m: Manager, sid: Sid, owner: nat, now: int)
    requires MInv(m) && sid in m.open
    ensures var s := m.sessions[sid];
            BeginPump(m, sid, owner, now) ==
            if s.pump.Some? && s.pump.value != owner then None
            else Some(m.(sessions := m.sessions[sid := s.(pump := Some(owner), answeredContinuation := false)]))
  {}

  lemma BeginPumpRefused(m: Manager, sid: Sid, owner: nat, now: int)
    requires MInv(m) && (sid !in m.sessions || m.sessions[sid].closed)
    ensures BeginPump(m, sid, owner, now).None?
  {}

  /** A pump's end carries out the end its stream had meanwhile: kept for the
      queued frames when the stream closed cleanly on answered work alone, left to
      the cancel of an interrupted Run, and otherwise closing the session. */
  lemma EndPumpEffect(m: Manager, sid: Sid, owner: nat, now: int)
    requires sid in m.sessions
    ensures var s, (r, ended) := m.sessions[sid], EndPump(m, sid, owner, now);
            && (ended <==> s.pump == Some(owner))
            && (!ended ==> r == m)
            && (ended && s.deferred == Some(RemoteCleanClose) && OnlyAnswered(m, s) ==>
                  r == m.(sessions := m.sessions[sid := s.(pump := None)]))
            && (ended && (s.deferred.None? || s.interrupted) ==>
                  r == m.(sessions := m.sessions[sid := s.(pump := None, deferred := None)]))
            && (ended && s.deferred.Some? && !s.interrupted && !(s.deferred == Some(RemoteCleanClose) && OnlyAnswered(m, s)) ==>
                  r == Close(m.(sessions := m.sessions[sid := s.(pump := None, deferred := None)]), sid, s.deferred.value, now))
  {
    var s := m.sessions[sid];
    OnlyAnsweredIs(m.(sessions := m.sessions[sid := s.(pump := None, deferred := None)]), sid, s);
  }

  lemma OnlyAnsweredIs(m: Manager, sid: Sid, s: Session)
    requires sid in m.sessions && m.sessions[sid].pending == s.pending && m.sessions[sid].interrupted == s.interrupted
    requires m.sessions[sid].answeredContinuation == s.answeredContinuation
    ensures HoldsOnlyAnswered(m, sid) <==> OnlyAnswered(m, s)
  {}

  /** A stream that ends closes its session at once, unless a pump reads it, the
      host interrupted it, or it ended cleanly on answered work alone: then the
      end waits. */
  lemma StreamEndedEffect(m: Manager, sid: Sid, reason: Reason, now: int)
    requires sid in m.sessions && !m.sessions[sid].closed
    ensures var s, r := m.sessions[sid], StreamEnded(m, sid, reason, now);
            if s.pump.Some? || s.interrupted || (reason == RemoteCleanClose && OnlyAnswered(m, s))
            then r == m.(sessions := m.sessions[sid := s.(deferred := Some(reason))])
            else r == Close(m, sid, reason, now)
  {
    OnlyAnsweredIs(m, sid, m.sessions[sid]);
  }

  /** Disposal closes every session that was open. */
  lemma DisposeCloses(m: Manager, now: int, s: Sid)
    requires MInv(m) && s in m.open
    ensures s in Dispose(m, now).sessions && Dispose(m, now).sessions[s].closed
  {
    CloseAllClosesEach(m, m.open, ProcessDisposed, now, s);
  }

  lemma {:induction false} CloseAllClosesEach(m: Manager, sids: seq<Sid>, reason: Reason, now: int, s: Sid)
    requires MInv(m) && s in m.sessions && (s in sids || m.sessions[s].closed)
    ensures s in CloseAll(m, sids, reason, now).sessions && CloseAll(m, sids, reason, now).sessions[s].closed
    decreases |sids|
  {
    if sids != [] {
      var m1 := Close(m, sids[0], reason, now);
      CloseKeepsInv(m, sids[0], reason, now);
      if sids[0] in m.sessions {
        CloseEffect(m, sids[0], reason, now);
      }
      CloseAllClosesEach(m1, sids[1..], reason, now, s);
    }
  }
}
