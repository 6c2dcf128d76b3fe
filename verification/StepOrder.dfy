/** Model-order holds for a Cursor step that changes a file (src/step-order.ts).

    `Order` is the value the scheduler keeps. The functions on it are the
    specification; class `Scheduler` updates its fields in place and is proved
    against them. The last part drives the scheduler through whole runs. */
module StepOrder {

  datatype Option<T> = None | Some(value: T)

  type CallId = string

  datatype CallState = Announced | Held | Running | Done | Refused

  datatype Call = Call(index: nat, fileChange: bool, state: CallState)

  datatype HeldExec = HeldExec(callId: CallId, execId: int)

  datatype ExecRecord = ExecRecord(callId: CallId, fileChangeRead: bool)

  datatype Decision = Run | Hold | Cancel

  datatype Outcome = Succeeded | Rejected

  datatype Count = Unlisted | Listed(count: int)

  datatype Order = Order(
    nextIndex: nat,
    listed: Count,
    calls: map<CallId, Call>,
    execs: map<int, ExecRecord>,
    held: seq<HeldExec>)

  const EMPTY := Order(0, Unlisted, map[], map[], [])

  // ---------------------------------------------------------------- operations

  predicate Terminal(state: CallState) {
    state == Done || state == Refused
  }

  predicate AllTerminal(o: Order) {
    forall id | id in o.calls :: Terminal(o.calls[id].state)
  }

  predicate StepFinished(o: Order) {
    o.listed.Listed? && o.held == [] && |o.calls| >= o.listed.count && AllTerminal(o)
  }

  /** Held execs are not touched: every caller has checked that there are none. */
  function Clear(o: Order): Order {
    Order(0, Unlisted, map[], map[], o.held)
  }

  function ListCalls(o: Order, count: int): Order {
    if count < 0 then o
    else (if o.listed.Listed? && StepFinished(o) then Clear(o) else o).(listed := Listed(count))
  }

  function StartStep(o: Order): Order {
    if o.held == [] && AllTerminal(o) then Clear(o) else o
  }

  function EnsureCall(o: Order, id: CallId, fileChange: bool): Order {
    if id !in o.calls then
      o.(nextIndex := o.nextIndex + 1, calls := o.calls[id := Call(o.nextIndex, fileChange, Announced)])
    else if fileChange then SetCall(o, id, o.calls[id].(fileChange := true))
    else o
  }

  function SetCall(o: Order, id: CallId, call: Call): Order {
    o.(calls := o.calls[id := call])
  }

  function SetState(o: Order, id: CallId, state: CallState): Order
    requires id in o.calls
  {
    SetCall(o, id, o.calls[id].(state := state))
  }

  function Announce(o: Order, id: CallId, fileChange: bool): Order {
    EnsureCall(if StepFinished(o) then Clear(o) else o, id, fileChange)
  }

  predicate Unfinished(state: CallState) {
    state == Announced || state == Held || state == Running
  }

  /** Does the earlier call `other` keep `call` from running? */
  predicate Blocks(other: Call, call: Call) {
    && other.index < call.index
    && ((other.fileChange && Unfinished(other.state))
        || (call.fileChange && (other.state == Held || other.state == Running)))
  }

  predicate Blocked(o: Order, id: CallId)
    requires id in o.calls
  {
    exists other | other in o.calls :: other != id && Blocks(o.calls[other], o.calls[id])
  }

  predicate RefusesLater(other: Call, call: Call) {
    other.index < call.index && other.fileChange && other.state == Refused
  }

  predicate FollowsRefusal(o: Order, id: CallId)
    requires id in o.calls
  {
    exists other | other in o.calls :: RefusesLater(o.calls[other], o.calls[id])
  }

  function Decide(o: Order, id: CallId): Decision
    requires id in o.calls
  {
    if FollowsRefusal(o, id) then Cancel else if Blocked(o, id) then Hold else Run
  }

  function IndexOf(o: Order, h: HeldExec): nat {
    if h.callId in o.calls then o.calls[h.callId].index else 0
  }

  /** Position of the first held exec whose call comes after `index`. */
  function InsertionPoint(o: Order, index: nat, from: nat): (at: nat)
    requires from <= |o.held|
    ensures from <= at <= |o.held|
    ensures forall j | from <= j < at :: IndexOf(o, o.held[j]) <= index
    ensures at < |o.held| ==> IndexOf(o, o.held[at]) > index
    decreases |o.held| - from
  {
    if from == |o.held| || IndexOf(o, o.held[from]) > index then from
    else InsertionPoint(o, index, from + 1)
  }

  function HoldExec(o: Order, h: HeldExec): Order {
    var o1 := EnsureCall(o, h.callId, false);
    var o2 := SetState(o1, h.callId, Held);
    var at := InsertionPoint(o2, o2.calls[h.callId].index, 0);
    o2.(held := o2.held[..at] + [h] + o2.held[at..])
  }

  function RunExec(o: Order, id: CallId, execId: int, fileChangeRead: bool): Order {
    var o1 := EnsureCall(o, id, false);
    var o2 := if Terminal(o1.calls[id].state) then o1 else SetState(o1, id, Running);
    o2.(execs := o2.execs[execId := ExecRecord(id, fileChangeRead)])
  }

  function FinishCall(o: Order, id: CallId): Order {
    if id in o.calls && o.calls[id].state != Held && o.calls[id].state != Refused
    then SetState(o, id, Done) else o
  }

  function RefuseCall(o: Order, id: CallId): Order {
    if id !in o.calls || o.calls[id].state == Held then o
    else SetState(o, id, if o.calls[id].fileChange then Refused else Done)
  }

  function FindHeld(held: seq<HeldExec>, execId: int): (at: nat)
    ensures at <= |held|
    ensures forall j | 0 <= j < at :: held[j].execId != execId
    ensures at < |held| ==> held[at].execId == execId
  {
    if held == [] || held[0].execId == execId then 0 else 1 + FindHeld(held[1..], execId)
  }

  /** The order without `held[at]`, whose call is now `state`. */
  function TakeAt(o: Order, at: nat, state: CallState): Order
    requires at < |o.held|
  {
    var o1 := o.(held := o.held[..at] + o.held[at + 1..]);
    if o.held[at].callId in o.calls then SetState(o1, o.held[at].callId, state) else o1
  }

  function DropHeld(o: Order, execId: int): Order {
    var at := FindHeld(o.held, execId);
    if at == |o.held| then o else TakeAt(o, at, Done)
  }

  function NoteResult(o: Order, execId: int, outcome: Outcome): Order {
    if FindHeld(o.held, execId) < |o.held| then DropHeld(o, execId)
    else if execId !in o.execs then o
    else
      var exec := o.execs[execId];
      var o1 := o.(execs := o.execs - {execId});
      if outcome == Rejected then RefuseCall(o1, exec.callId)
      else if exec.fileChangeRead then o1
      else FinishCall(o1, exec.callId)
  }

  predicate Cancellable(o: Order, h: HeldExec) {
    h.callId in o.calls && FollowsRefusal(o, h.callId)
  }

  /** One pass of takeCancelledExecs over `held[i..]`. */
  function CancelFrom(o: Order, i: nat): (result: (Order, seq<HeldExec>))
    requires i <= |o.held|
    decreases |o.held| - i
  {
    if i == |o.held| then (o, [])
    else if !Cancellable(o, o.held[i]) then CancelFrom(o, i + 1)
    else
      var (last, taken) := CancelFrom(TakeAt(o, i, Done), i);
      (last, [o.held[i]] + taken)
  }

  predicate Releasable(o: Order, h: HeldExec) {
    h.callId in o.calls && !FollowsRefusal(o, h.callId) && !Blocked(o, h.callId)
  }

  /** One pass of takeReleasableExecs over `held[i..]`. */
  function ReleaseFrom(o: Order, i: nat): (result: (Order, seq<HeldExec>))
    requires i <= |o.held|
    decreases |o.held| - i
  {
    if i == |o.held| then (o, [])
    else if !Releasable(o, o.held[i]) then ReleaseFrom(o, i + 1)
    else
      var (last, taken) := ReleaseFrom(TakeAt(o, i, Running), i);
      (last, [o.held[i]] + taken)
  }

  // ------------------------------------------------------------- the invariant

  /** Distinct model positions; the held list is exactly the calls in state
      Held, once each, in model order; and no call runs while an earlier file
      change is announced, held or running. */
  ghost predicate Inv(o: Order) {
    Positions(o) && HeldMatch(o) && Exclusion(o)
  }

  ghost predicate Positions(o: Order) {
    && (forall x | x in o.calls :: o.calls[x].index < o.nextIndex)
    && (forall x, y | x in o.calls && y in o.calls && x != y :: o.calls[x].index != o.calls[y].index)
  }

  ghost predicate HeldMatch(o: Order) {
    && (forall h | h in o.held :: IsHeld(o, h.callId))
    && (forall x | IsHeld(o, x) :: HasHeld(o.held, x))
    && (forall j, k | 0 <= j < k < |o.held| :: IndexOf(o, o.held[j]) < IndexOf(o, o.held[k]))
  }

  ghost predicate IsHeld(o: Order, id: CallId) {
    id in o.calls && o.calls[id].state == Held
  }

  ghost predicate HasHeld(held: seq<HeldExec>, id: CallId) {
    exists h :: h in held && h.callId == id
  }

  ghost predicate Exclusion(o: Order) {
    forall x, y | x in o.calls && y in o.calls :: Compatible(o.calls[x], o.calls[y])
  }

  ghost predicate Compatible(x: Call, y: Call) {
    x.index < y.index && x.fileChange && Unfinished(x.state) ==> y.state != Running
  }

  /** `id` starts running between `before` and `after`. */
  ghost predicate Enters(before: Order, after: Order, id: CallId) {
    && id in after.calls && after.calls[id].state == Running
    && (id in before.calls ==> before.calls[id].state != Running)
  }

  /** Every file change the model wrote before `id` is done. */
  ghost predicate EarlierChangesDone(o: Order, id: CallId)
    requires id in o.calls
  {
    forall x | x in o.calls && o.calls[x].fileChange && o.calls[x].index < o.calls[id].index ::
      o.calls[x].state == Done
  }

  /** Updates that keep every position and flag, and who is held. */
  ghost predicate SameHolds(before: Order, after: Order) {
    && after.held == before.held
    && after.nextIndex >= before.nextIndex
    && (forall x | x in before.calls :: x in after.calls && after.calls[x].index == before.calls[x].index)
    && (forall x | x in after.calls && x !in before.calls :: after.calls[x].state != Held)
    && (forall x | x in before.calls :: after.calls[x].state == Held <==> before.calls[x].state == Held)
  }

  lemma SameHoldsMatch(before: Order, after: Order)
    requires HeldMatch(before) && SameHolds(before, after)
    ensures HeldMatch(after)
  {
    forall x | IsHeld(after, x) ensures HasHeld(after.held, x) {
      assert IsHeld(before, x);
    }
  }

  lemma FinishKeepsInv(o: Order, id: CallId)
    requires Inv(o)
    ensures Inv(FinishCall(o, id))
  {
    SameHoldsMatch(o, FinishCall(o, id));
  }

  lemma RefuseKeepsInv(o: Order, id: CallId)
    requires Inv(o)
    ensures Inv(RefuseCall(o, id))
  {
    SameHoldsMatch(o, RefuseCall(o, id));
  }

  lemma EnsureKeepsInv(o: Order, id: CallId, fileChange: bool)
    requires Inv(o)
    requires id in o.calls && fileChange ==> o.calls[id].fileChange
    ensures Inv(EnsureCall(o, id, fileChange))
  {
    SameHoldsMatch(o, EnsureCall(o, id, fileChange));
  }

  /** Starting a call whose earlier file changes are all finished. */
  lemma DispatchKeepsInv(o: Order, id: CallId, execId: int, fileChangeRead: bool)
    requires Inv(o)
    requires id in o.calls && o.calls[id].state != Held
    requires o.calls[id].state == Running || Terminal(o.calls[id].state) || !Blocked(o, id)
    ensures Inv(RunExec(o, id, execId, fileChangeRead))
  {
    var after := RunExec(o, id, execId, fileChangeRead);
    if o.calls[id].state == Announced {
      StartKeepsExclusion(o, id, after);
      MoveKeepsPositions(o, id, Running, after);
    } else {
      assert after.calls == o.calls;
    }
    SameHoldsMatch(o, after);
  }

  lemma MoveKeepsPositions(o: Order, id: CallId, state: CallState, after: Order)
    requires Positions(o) && id in o.calls
    requires after.calls == o.calls[id := o.calls[id].(state := state)] && after.nextIndex == o.nextIndex
    ensures Positions(after)
  {}

  lemma StartKeepsExclusion(o: Order, id: CallId, after: Order)
    requires Exclusion(o) && id in o.calls && !Blocked(o, id) && Unfinished(o.calls[id].state)
    requires after.calls == o.calls[id := o.calls[id].(state := Running)]
    ensures Exclusion(after)
  {
    forall x, y | x in after.calls && y in after.calls ensures Compatible(after.calls[x], after.calls[y]) {
      assert Compatible(o.calls[x], o.calls[y]);
      if y == id && x != id {
        assert !Blocks(o.calls[x], o.calls[id]);
      }
    }
  }

  lemma HoldKeepsInv(o: Order, h: HeldExec)
    requires Inv(o)
    requires h.callId in o.calls && o.calls[h.callId].state in {Announced, Running}
    ensures Inv(HoldExec(o, h))
  {
    var after := HoldExec(o, h);
    MoveKeepsPositions(o, h.callId, Held, after);
    HoldKeepsOrder(o, h);
    HoldMatches(o, h);
    forall x, y | x in after.calls && y in after.calls ensures Compatible(after.calls[x], after.calls[y]) {
      assert Compatible(o.calls[x], o.calls[y]);
    }
  }

  lemma HoldKeepsOrder(o: Order, h: HeldExec)
    requires HeldMatch(o) && Positions(o) && h.callId in o.calls && !IsHeld(o, h.callId)
    ensures var after := HoldExec(o, h);
            forall j, k | 0 <= j < k < |after.held| :: IndexOf(after, after.held[j]) < IndexOf(after, after.held[k])
  {
    var o2 := SetState(o, h.callId, Held);
    SameIndexes(o, h.callId, Held);
    var at := InsertionPoint(o2, o.calls[h.callId].index, 0);
    forall j | 0 <= j < at ensures IndexOf(o, o.held[j]) < IndexOf(o, h) {
      assert IsHeld(o, o.held[j].callId);
      assert IndexOf(o2, o.held[j]) == IndexOf(o, o.held[j]);
    }
    InsertSorted(o, o.held, at, h);
  }

  lemma SameIndexes(o: Order, id: CallId, state: CallState)
    requires id in o.calls
    ensures forall g :: IndexOf(SetState(o, id, state), g) == IndexOf(o, g)
  {}

  /** Inserting `h` at its place keeps the list in model order. */
  lemma InsertSorted(o: Order, held: seq<HeldExec>, at: nat, h: HeldExec)
    requires at <= |held|
    requires forall j, k | 0 <= j < k < |held| :: IndexOf(o, held[j]) < IndexOf(o, held[k])
    requires forall j | 0 <= j < at :: IndexOf(o, held[j]) < IndexOf(o, h)
    requires at < |held| ==> IndexOf(o, held[at]) > IndexOf(o, h)
    ensures var s := held[..at] + [h] + held[at..];
            forall j, k | 0 <= j < k < |s| :: IndexOf(o, s[j]) < IndexOf(o, s[k])
  {
    var s := held[..at] + [h] + held[at..];
    forall j, k | 0 <= j < k < |s| ensures IndexOf(o, s[j]) < IndexOf(o, s[k]) {
      assert s[j] == if j < at then held[j] else if j == at then h else held[j - 1];
      assert s[k] == if k < at then held[k] else if k == at then h else held[k - 1];
    }
  }

  lemma HoldMatches(o: Order, h: HeldExec)
    requires HeldMatch(o) && h.callId in o.calls
    ensures var after := HoldExec(o, h);
            && (forall g :: g in after.held <==> g == h || g in o.held)
            && multiset(after.held) == multiset(o.held) + multiset{h}
            && (forall g | g in after.held :: IsHeld(after, g.callId))
            && (forall x | IsHeld(after, x) :: HasHeld(after.held, x))
  {
    var at := InsertionPoint(SetState(o, h.callId, Held), o.calls[h.callId].index, 0);
    var after := HoldExec(o, h);
    InsertElements(o.held, at, h);
    assert after.held == o.held[..at] + [h] + o.held[at..];
    forall x | IsHeld(after, x) ensures HasHeld(after.held, x) {
      if x == h.callId {
        assert h in after.held;
      } else {
        assert IsHeld(o, x);
      }
    }
  }

  lemma InsertElements(held: seq<HeldExec>, at: nat, h: HeldExec)
    requires at <= |held|
    ensures var s := held[..at] + [h] + held[at..];
            && (forall g :: g in s <==> g == h || g in held)
            && multiset(s) == multiset(held) + multiset{h}
  {
    assert held == held[..at] + held[at..];
  }

  lemma TakeKeepsInv(o: Order, at: nat, state: CallState)
    requires Inv(o) && at < |o.held|
    requires state == Done || (state == Running && Releasable(o, o.held[at]))
    ensures Inv(TakeAt(o, at, state))
  {
    var id := o.held[at].callId;
    var after := TakeAt(o, at, state);
    assert IsHeld(o, id);
    TakeMatches(o, at, state);
    if state == Running {
      StartKeepsExclusion(o, id, after);
    }
  }

  lemma TakeMatches(o: Order, at: nat, state: CallState)
    requires HeldMatch(o) && at < |o.held| && state != Held
    ensures HeldMatch(TakeAt(o, at, state))
  {
    assert IsHeld(o, o.held[at].callId);
    TakeHolds(o, at, state);
    TakeSorted(o, at, state);
  }

  lemma TakeSorted(o: Order, at: nat, state: CallState)
    requires at < |o.held| && o.held[at].callId in o.calls
    requires forall j, k | 0 <= j < k < |o.held| :: IndexOf(o, o.held[j]) < IndexOf(o, o.held[k])
    ensures var after := TakeAt(o, at, state);
            forall j, k | 0 <= j < k < |after.held| :: IndexOf(after, after.held[j]) < IndexOf(after, after.held[k])
  {
    var after := TakeAt(o, at, state);
    TakeShifts(o, at, state);
    forall j, k | 0 <= j < k < |after.held| ensures IndexOf(after, after.held[j]) < IndexOf(after, after.held[k]) {
      var g, h := o.held[if j < at then j else j + 1], o.held[if k < at then k else k + 1];
      assert IndexOf(o, g) < IndexOf(o, h);
    }
  }

  /** Where each remaining exec now stands. */
  lemma TakeShifts(o: Order, at: nat, state: CallState)
    requires at < |o.held|
    ensures var after := TakeAt(o, at, state);
            |after.held| == |o.held| - 1
            && forall j | 0 <= j < |o.held| - 1 :: after.held[j] == o.held[if j < at then j else j + 1]
  {}

  lemma TakeHolds(o: Order, at: nat, state: CallState)
    requires HeldMatch(o) && at < |o.held| && state != Held
    ensures var after := TakeAt(o, at, state);
            && (forall g | g in after.held :: IsHeld(after, g.callId))
            && (forall x | IsHeld(after, x) :: HasHeld(after.held, x))
  {
    var h := o.held[at];
    var after := TakeAt(o, at, state);
    assert IsHeld(o, h.callId);
    RemainingDiffer(o, at);
    forall x | IsHeld(after, x) ensures HasHeld(after.held, x) {
      assert IsHeld(o, x);
      OthersRemain(o.held, at, x);
    }
  }

  lemma OthersRemain(held: seq<HeldExec>, at: nat, id: CallId)
    requires at < |held| && HasHeld(held, id) && held[at].callId != id
    ensures HasHeld(held[..at] + held[at + 1..], id)
  {
    var h :| h in held && h.callId == id;
    assert held == held[..at] + [held[at]] + held[at + 1..];
    assert h in held[..at] + held[at + 1..];
  }

  /** The rest of the list belongs to other calls. */
  lemma RemainingDiffer(o: Order, at: nat)
    requires HeldMatch(o) && at < |o.held|
    ensures forall g | g in o.held[..at] + o.held[at + 1..] :: g in o.held && g.callId != o.held[at].callId
  {
    var before, behind := o.held[..at], o.held[at + 1..];
    forall g | g in before ensures g in o.held && g.callId != o.held[at].callId {
      var j :| 0 <= j < at && before[j] == g;
      assert IndexOf(o, o.held[j]) < IndexOf(o, o.held[at]);
    }
    forall g | g in behind ensures g in o.held && g.callId != o.held[at].callId {
      var j :| 0 <= j < |behind| && behind[j] == g;
      assert IndexOf(o, o.held[at]) < IndexOf(o, o.held[at + 1 + j]);
    }
  }

  // -------------------------------------------------- the cancel and release pass

  /** What one take does: the list loses exactly that exec, and only the state
      of its call moves. */
  lemma TakeEffects(o: Order, at: nat, state: CallState)
    requires Inv(o) && at < |o.held| && state in {Done, Running}
    ensures var after := TakeAt(o, at, state);
            && multiset(o.held) == multiset(after.held) + multiset{o.held[at]}
            && SameOrder(o, after)
            && (forall x | x in o.calls && o.calls[x].state != Held :: after.calls[x] == o.calls[x])
            && |after.held| == |o.held| - 1
            && (forall j | 0 <= j < |after.held| :: after.held[j] == o.held[if j < at then j else j + 1])
  {
    TakeShifts(o, at, state);
    assert IsHeld(o, o.held[at].callId);
    assert o.held == o.held[..at] + [o.held[at]] + o.held[at + 1..];
  }

  /** Cancelling keeps the invariant, takes exactly what it reports, and leaves
      nothing that still follows a refusal. */
  lemma {:induction false} CancelPass(o: Order, i: nat)
    requires Inv(o) && i <= |o.held|
    requires forall j | 0 <= j < i :: !Cancellable(o, o.held[j])
    ensures var (last, taken) := CancelFrom(o, i);
            && Inv(last)
            && multiset(o.held) == multiset(last.held) + multiset(taken)
            && (forall j | 0 <= j < |last.held| :: !Cancellable(last, last.held[j]))
            && SameOrder(o, last)
    decreases |o.held| - i
  {
    if i == |o.held| {
    } else if !Cancellable(o, o.held[i]) {
      CancelPass(o, i + 1);
    } else {
      var o1 := TakeAt(o, i, Done);
      TakeKeepsInv(o, i, Done);
      TakeEffects(o, i, Done);
      CancelStays(o, i);
      CancelPass(o1, i);
    }
  }

  lemma CancelStays(o: Order, i: nat)
    requires Inv(o) && i < |o.held|
    requires forall j | 0 <= j < i :: !Cancellable(o, o.held[j])
    ensures var o1 := TakeAt(o, i, Done);
            forall j | 0 <= j < i :: !Cancellable(o1, o1.held[j])
  {
    TakeKeepsInv(o, i, Done);
    TakeEffects(o, i, Done);
    RefusalsUnchanged(o, TakeAt(o, i, Done));
  }

  /** A cancelled call is done; no other call moves. */
  lemma {:induction false} CancelOnlyFinishes(o: Order, i: nat, id: CallId)
    requires Inv(o) && i <= |o.held| && id in o.calls
    ensures var (last, taken) := CancelFrom(o, i);
            id in last.calls && (last.calls[id] == o.calls[id]
                                 || (o.calls[id].state == Held && last.calls[id] == o.calls[id].(state := Done)))
    decreases |o.held| - i
  {
    if i == |o.held| {
    } else if !Cancellable(o, o.held[i]) {
      CancelOnlyFinishes(o, i + 1, id);
    } else {
      TakeKeepsInv(o, i, Done);
      TakeEffects(o, i, Done);
      assert IsHeld(o, o.held[i].callId);
      CancelOnlyFinishes(TakeAt(o, i, Done), i, id);
    }
  }

  /** Same calls at the same positions, the same refusals, listed count and execs. */
  ghost predicate SameOrder(before: Order, after: Order) {
    && after.calls.Keys == before.calls.Keys
    && after.nextIndex == before.nextIndex && after.listed == before.listed && after.execs == before.execs
    && (forall x | x in before.calls ::
          && after.calls[x].index == before.calls[x].index
          && after.calls[x].fileChange == before.calls[x].fileChange
          && (after.calls[x].state == Refused <==> before.calls[x].state == Refused))
  }

  lemma RefusalsUnchanged(before: Order, after: Order)
    requires SameOrder(before, after)
    ensures forall x | x in before.calls :: FollowsRefusal(before, x) <==> FollowsRefusal(after, x)
  {
    forall x | x in before.calls
      ensures FollowsRefusal(before, x) <==> FollowsRefusal(after, x)
    {
      if FollowsRefusal(before, x) {
        var other :| other in before.calls && RefusesLater(before.calls[other], before.calls[x]);
        assert RefusesLater(after.calls[other], after.calls[x]);
      }
      if FollowsRefusal(after, x) {
        var other :| other in after.calls && RefusesLater(after.calls[other], after.calls[x]);
        assert RefusesLater(before.calls[other], before.calls[x]);
      }
    }
  }

  /** Held execs before `at` do not notice that a later one was released. */
  lemma EarlierStayStuck(o: Order, at: nat, j: nat)
    requires Inv(o) && j < at < |o.held|
    requires !Releasable(o, o.held[j])
    ensures !Releasable(TakeAt(o, at, Running), o.held[j])
  {
    var after := TakeAt(o, at, Running);
    var id := o.held[j].callId;
    assert IndexOf(o, o.held[j]) < IndexOf(o, o.held[at]);
    RefusalsUnchanged(o, after);
    if !FollowsRefusal(o, id) {
      var other :| other in o.calls && other != id && Blocks(o.calls[other], o.calls[id]);
      assert Blocks(after.calls[other], after.calls[id]);
    }
  }

  /** One pass reaches the fixpoint: nothing that is still held could go now.
      It takes exactly what it reports. */
  lemma {:induction false} ReleasePass(o: Order, i: nat)
    requires Inv(o) && i <= |o.held|
    requires forall j | 0 <= j < i :: !Releasable(o, o.held[j])
    ensures var (last, taken) := ReleaseFrom(o, i);
            && Inv(last)
            && multiset(o.held) == multiset(last.held) + multiset(taken)
            && (forall j | 0 <= j < |last.held| :: !Releasable(last, last.held[j]))
    decreases |o.held| - i
  {
    if i == |o.held| {
    } else if !Releasable(o, o.held[i]) {
      ReleasePass(o, i + 1);
    } else {
      TakeKeepsInv(o, i, Running);
      TakeEffects(o, i, Running);
      ReleaseStuck(o, i);
      ReleasePass(TakeAt(o, i, Running), i);
    }
  }

  lemma ReleaseStuck(o: Order, i: nat)
    requires Inv(o) && i < |o.held|
    requires forall j | 0 <= j < i :: !Releasable(o, o.held[j])
    ensures var o1 := TakeAt(o, i, Running); forall j | 0 <= j < i :: !Releasable(o1, o1.held[j])
  {
    var o1 := TakeAt(o, i, Running);
    TakeShifts(o, i, Running);
    forall j | 0 <= j < i ensures !Releasable(o1, o1.held[j]) {
      EarlierStayStuck(o, i, j);
    }
  }

  /** A release moves nothing but the state of held calls. */
  lemma {:induction false} ReleaseMovesHeld(o: Order, i: nat)
    requires Inv(o) && i <= |o.held|
    ensures var last := ReleaseFrom(o, i).0;
            && SameOrder(o, last)
            && (forall x | x in o.calls && o.calls[x].state != Held :: last.calls[x] == o.calls[x])
    decreases |o.held| - i
  {
    if i == |o.held| {
    } else if !Releasable(o, o.held[i]) {
      ReleaseMovesHeld(o, i + 1);
    } else {
      TakeKeepsInv(o, i, Running);
      TakeEffects(o, i, Running);
      ReleaseMovesHeld(TakeAt(o, i, Running), i);
    }
  }

  /** Every call a release starts has all its earlier file changes done. */
  lemma {:induction false} ReleaseEntersInOrder(o: Order, i: nat, id: CallId)
    requires Inv(o) && i <= |o.held|
    requires forall j | 0 <= j < i :: !Releasable(o, o.held[j])
    requires Enters(o, ReleaseFrom(o, i).0, id)
    ensures EarlierChangesDone(ReleaseFrom(o, i).0, id)
    decreases |o.held| - i
  {
    if i < |o.held| {
      if !Releasable(o, o.held[i]) {
        ReleaseEntersInOrder(o, i + 1, id);
      } else {
        var o1 := TakeAt(o, i, Running);
        TakeKeepsInv(o, i, Running);
        TakeEffects(o, i, Running);
        ReleaseStuck(o, i);
        ReleaseMovesHeld(o1, i);
        if id == o.held[i].callId {
          ReleasedAfterChanges(o, id, ReleaseFrom(o1, i).0);
        } else {
          ReleaseEntersInOrder(o1, i, id);
        }
      }
    }
  }

  lemma ReleasedAfterChanges(o: Order, id: CallId, last: Order)
    requires id in o.calls && !FollowsRefusal(o, id) && !Blocked(o, id)
    requires forall x | x in o.calls :: x in last.calls && last.calls[x].index == o.calls[x].index
    requires forall x | x in o.calls && o.calls[x].state != Held && x != id :: last.calls[x] == o.calls[x]
    requires last.calls.Keys == o.calls.Keys
    requires forall x | x in o.calls :: last.calls[x].fileChange == o.calls[x].fileChange
    ensures EarlierChangesDone(last, id)
  {
    forall x | x in last.calls && last.calls[x].fileChange && last.calls[x].index < last.calls[id].index
      ensures last.calls[x].state == Done
    {
      assert !Blocks(o.calls[x], o.calls[id]);
      assert !RefusesLater(o.calls[x], o.calls[id]);
    }
  }

  /** Behind a running call, no file change leaves; behind a running file change, nothing does. */
  lemma {:induction false} ReleaseBehindRunning(o: Order, i: nat, runner: CallId)
    requires Inv(o) && i <= |o.held|
    requires runner in o.calls && o.calls[runner].state == Running
    requires forall j | i <= j < |o.held| :: o.calls[runner].index < IndexOf(o, o.held[j])
    ensures forall h | h in ReleaseFrom(o, i).1 :: h.callId in o.calls && !o.calls[h.callId].fileChange
    ensures o.calls[runner].fileChange ==> ReleaseFrom(o, i).1 == []
    decreases |o.held| - i
  {
    if i < |o.held| {
      var h := o.held[i];
      if !Releasable(o, h) {
        ReleaseBehindRunning(o, i + 1, runner);
      } else {
        assert !Blocks(o.calls[runner], o.calls[h.callId]);
        var o1 := TakeAt(o, i, Running);
        TakeKeepsInv(o, i, Running);
        ReleaseBehindRunning(o1, i, runner);
      }
    }
  }

  /** A released batch is one file change alone, or contains none. */
  lemma {:induction false} BatchShape(o: Order, i: nat)
    requires Inv(o) && i <= |o.held|
    ensures var taken := ReleaseFrom(o, i).1;
            || (|taken| == 1 && taken[0].callId in o.calls && o.calls[taken[0].callId].fileChange)
            || (forall h | h in taken :: h.callId in o.calls && !o.calls[h.callId].fileChange)
    decreases |o.held| - i
  {
    if i < |o.held| {
      var h := o.held[i];
      if !Releasable(o, h) {
        BatchShape(o, i + 1);
      } else {
        var o1 := TakeAt(o, i, Running);
        TakeKeepsInv(o, i, Running);
        ReleaseBehindRunning(o1, i, h.callId);
      }
    }
  }

  /** No deadlock: with nothing running and no file change merely announced,
      the first held exec is cancelled or released. */
  lemma NoDeadlock(o: Order)
    requires Inv(o) && o.held != []
    requires forall x | x in o.calls :: o.calls[x].state != Running
    requires forall x | x in o.calls && o.calls[x].fileChange :: o.calls[x].state != Announced
    ensures CancelFrom(o, 0).1 != [] || ReleaseFrom(o, 0).1 != []
  {
    var first := o.held[0];
    var id := first.callId;
    assert IsHeld(o, id);
    if Cancellable(o, first) {
      assert CancelFrom(o, 0).1[0] == first;
    } else {
      forall other | other in o.calls && other != id ensures !Blocks(o.calls[other], o.calls[id]) {
        if IsHeld(o, other) {
          var h :| h in o.held && h.callId == other;
          var j :| 0 <= j < |o.held| && o.held[j] == h;
          assert IndexOf(o, first) < IndexOf(o, o.held[j]);
        }
      }
      assert Releasable(o, first);
      assert ReleaseFrom(o, 0).1[0] == first;
    }
  }

  // ------------------------------------------------------------------ whole runs

  /** The scheduler with its history: released execs on their way back to
      dispatch, and every exec that was ever held, by how it left. */
  datatype System = System(
    order: Order,
    limbo: seq<HeldExec>,
    entered: multiset<HeldExec>,
    released: multiset<HeldExec>,
    cancelled: multiset<HeldExec>,
    dropped: multiset<HeldExec>)

  const START := System(EMPTY, [], multiset{}, multiset{}, multiset{}, multiset{})

  datatype Event =
    | CallStarted(id: CallId, fileChange: bool)
    | CallsListed(count: int)
    | StepStarted
    | ExecArrives(id: CallId, execId: int, fileChange: bool, fileChangeRead: bool)
    | Redispatched(fileChangeRead: bool)
    | ReleaseAbandoned
    | CallCompleted(id: CallId)
    | ResultDelivered(execId: int, outcome: Outcome)
    | HoldWithdrawn(execId: int)
    | CancelHeld
    | ReleaseHeld

  ghost predicate InLimbo(s: System, id: CallId) {
    exists h :: h in s.limbo && h.callId == id
  }

  /** What the callers and Cursor promise: a call's file-change flag is known
      when the call is first seen; an exec does not arrive for a call that is
      finished or still waits for an earlier exec of its own; and a call is
      not completed between its release and its dispatch. */
  ghost predicate Enabled(s: System, e: Event) {
    match e
    case CallStarted(id, fileChange) =>
      id in s.order.calls && fileChange ==> s.order.calls[id].fileChange
    case ExecArrives(id, _, fileChange, _) =>
      && !InLimbo(s, id)
      && (id in s.order.calls ==>
            && (fileChange ==> s.order.calls[id].fileChange)
            && !Terminal(s.order.calls[id].state) && s.order.calls[id].state != Held)
    case CallCompleted(id) => !InLimbo(s, id)
    case ResultDelivered(execId, _) =>
      execId in s.order.execs ==> !InLimbo(s, s.order.execs[execId].callId)
    case Redispatched(_) => s.limbo != []
    case ReleaseAbandoned => s.limbo != []
    case _ => true
  }

  /** An arriving exec: run it, hold it, or answer it as cancelled. */
  function Arrive(o: Order, id: CallId, execId: int, fileChange: bool, fileChangeRead: bool): (Order, Decision) {
    var o1 := EnsureCall(o, id, fileChange);
    var decision := Decide(o1, id);
    (match decision
     case Run => RunExec(o1, id, execId, fileChangeRead)
     case Hold => HoldExec(o1, HeldExec(id, execId))
     case Cancel => FinishCall(o1, id), decision)
  }

  function Next(s: System, e: Event): System {
    var o := s.order;
    match e
    case CallStarted(id, fileChange) => s.(order := Announce(o, id, fileChange))
    case CallsListed(count) => s.(order := ListCalls(o, count))
    case StepStarted => s.(order := StartStep(o))
    case ExecArrives(id, execId, fileChange, fileChangeRead) =>
      var (after, decision) := Arrive(o, id, execId, fileChange, fileChangeRead);
      s.(order := after, entered := if decision == Hold then s.entered + multiset{HeldExec(id, execId)} else s.entered)
    case Redispatched(fileChangeRead) =>
      if s.limbo == [] then s
      else s.(order := RunExec(o, s.limbo[0].callId, s.limbo[0].execId, fileChangeRead), limbo := s.limbo[1..])
    case ReleaseAbandoned =>
      if s.limbo == [] then s
      else s.(order := FinishCall(o, s.limbo[0].callId), limbo := s.limbo[1..])
    case CallCompleted(id) => s.(order := FinishCall(o, id))
    case ResultDelivered(execId, outcome) =>
      s.(order := NoteResult(o, execId, outcome), dropped := s.dropped + DroppedBy(o, execId))
    case HoldWithdrawn(execId) =>
      s.(order := DropHeld(o, execId), dropped := s.dropped + DroppedBy(o, execId))
    case CancelHeld =>
      var (last, taken) := CancelFrom(o, 0);
      s.(order := last, cancelled := s.cancelled + multiset(taken))
    case ReleaseHeld =>
      var (last, taken) := ReleaseFrom(o, 0);
      s.(order := last, limbo := s.limbo + taken, released := s.released + multiset(taken))
  }

  function DroppedBy(o: Order, execId: int): multiset<HeldExec> {
    var at := FindHeld(o.held, execId);
    if at == |o.held| then multiset{} else multiset{o.held[at]}
  }

  /** The run `events` from `s`, as the states it passes through. */
  function Trace(s: System, events: seq<Event>): (states: seq<System>)
    ensures |states| == |events| + 1 && states[0] == s
    decreases |events|
  {
    if events == [] then [s] else [s] + Trace(Next(s, events[0]), events[1..])
  }

  ghost predicate Allowed(s: System, events: seq<Event>)
    decreases |events|
  {
    events != [] ==> Enabled(s, events[0]) && Allowed(Next(s, events[0]), events[1..])
  }

  /** A released call runs until its dispatch, and every exec that was ever
      held is either still held or has left in exactly one way. */
  ghost predicate SystemInv(s: System) {
    && Inv(s.order)
    && LimboRuns(s.order, s.limbo)
    && Conserved(s)
  }

  ghost predicate LimboRuns(o: Order, limbo: seq<HeldExec>) {
    && (forall h | h in limbo :: IsRunning(o, h.callId))
    && (forall j, k | 0 <= j < k < |limbo| :: limbo[j].callId != limbo[k].callId)
  }

  ghost predicate IsRunning(o: Order, id: CallId) {
    id in o.calls && o.calls[id].state == Running
  }

  ghost predicate Conserved(s: System) {
    s.entered == multiset(s.order.held) + s.released + s.cancelled + s.dropped
  }

  /** Running calls other than `id` keep running. */
  ghost predicate RunningKept(before: Order, after: Order, id: CallId) {
    forall x | IsRunning(before, x) && x != id :: IsRunning(after, x)
  }

  /** A running call keeps running through a release. */
  lemma {:induction false} ReleaseKeepsRunning(o: Order, i: nat, id: CallId)
    requires i <= |o.held| && IsRunning(o, id)
    ensures IsRunning(ReleaseFrom(o, i).0, id)
    decreases |o.held| - i
  {
    if i < |o.held| {
      if Releasable(o, o.held[i]) {
        ReleaseKeepsRunning(TakeAt(o, i, Running), i, id);
      } else {
        ReleaseKeepsRunning(o, i + 1, id);
      }
    }
  }

  /** The calls a release takes were held and now run. */
  lemma {:induction false} ReleaseTakesHeld(o: Order, i: nat)
    requires Inv(o) && i <= |o.held|
    ensures var (last, taken) := ReleaseFrom(o, i);
            forall h | h in taken :: IsHeld(o, h.callId) && IsRunning(last, h.callId)
    decreases |o.held| - i
  {
    if i == |o.held| {
    } else if !Releasable(o, o.held[i]) {
      ReleaseTakesHeld(o, i + 1);
    } else {
      var o1 := TakeAt(o, i, Running);
      var id := o.held[i].callId;
      TakeKeepsInv(o, i, Running);
      assert IsHeld(o, id) && IsRunning(o1, id);
      ReleaseTakesHeld(o1, i);
      ReleaseKeepsRunning(o1, i, id);
      forall h | h in ReleaseFrom(o1, i).1 ensures IsHeld(o, h.callId) {
        assert IsHeld(o1, h.callId);
      }
    }
  }

  lemma {:induction false} ReleaseTakesOnce(o: Order, i: nat)
    requires Inv(o) && i <= |o.held|
    ensures var taken := ReleaseFrom(o, i).1;
            forall j, k | 0 <= j < k < |taken| :: taken[j].callId != taken[k].callId
    decreases |o.held| - i
  {
    if i == |o.held| {
    } else if !Releasable(o, o.held[i]) {
      ReleaseTakesOnce(o, i + 1);
      assert ReleaseFrom(o, i) == ReleaseFrom(o, i + 1);
    } else {
      var o1 := TakeAt(o, i, Running);
      TakeKeepsInv(o, i, Running);
      ReleaseTakesHeld(o1, i);
      ReleaseTakesOnce(o1, i);
      assert IsRunning(o1, o.held[i].callId);
      assert forall h | h in ReleaseFrom(o1, i).1 :: IsHeld(o1, h.callId);
    }
  }

  /** Does `e` forget the step's calls? */
  predicate Clears(o: Order, e: Event) {
    match e
    case CallStarted(_, _) => StepFinished(o)
    case CallsListed(count) => count >= 0 && o.listed.Listed? && StepFinished(o)
    case StepStarted => o.held == [] && AllTerminal(o)
    case _ => false
  }

  lemma LimboBlocksReset(o: Order, limbo: seq<HeldExec>)
    requires LimboRuns(o, limbo) && limbo != []
    ensures !AllTerminal(o)
  {
    assert limbo[0] in limbo;
    assert !Terminal(o.calls[limbo[0].callId].state);
  }

  /** A new generation never discards an exec the host or the scheduler still owes. */
  lemma ResetDiscardsNothing(s: System, e: Event)
    requires SystemInv(s) && Clears(s.order, e)
    ensures s.order.held == [] && s.limbo == []
    ensures s.entered == s.released + s.cancelled + s.dropped
  {
    if s.limbo != [] {
      LimboBlocksReset(s.order, s.limbo);
    }
  }

  lemma ArrivalKeepsInv(o: Order, id: CallId, execId: int, fileChange: bool, fileChangeRead: bool)
    requires Inv(o)
    requires id in o.calls ==> (fileChange ==> o.calls[id].fileChange) && o.calls[id].state in {Announced, Running}
    ensures Inv(Arrive(o, id, execId, fileChange, fileChangeRead).0)
  {
    var o1 := EnsureCall(o, id, fileChange);
    EnsureKeepsInv(o, id, fileChange);
    match Decide(o1, id)
    case Run => DispatchKeepsInv(o1, id, execId, fileChangeRead);
    case Hold => HoldKeepsInv(o1, HeldExec(id, execId));
    case Cancel => FinishKeepsInv(o1, id);
  }

  lemma ArrivalKeepsRunning(o: Order, id: CallId, execId: int, fileChange: bool, fileChangeRead: bool)
    ensures RunningKept(o, Arrive(o, id, execId, fileChange, fileChangeRead).0, id)
  {
    var o1 := EnsureCall(o, id, fileChange);
    assert RunningKept(o, o1, id);
    match Decide(o1, id)
    case Run =>
    case Hold => assert RunningKept(o1, SetState(o1, id, Held), id);
    case Cancel =>
  }

  lemma ArrivalCounts(o: Order, id: CallId, execId: int, fileChange: bool, fileChangeRead: bool)
    requires Inv(o)
    requires id in o.calls ==> fileChange ==> o.calls[id].fileChange
    ensures var (after, decision) := Arrive(o, id, execId, fileChange, fileChangeRead);
            multiset(after.held) == multiset(o.held) + (if decision == Hold then multiset{HeldExec(id, execId)} else multiset{})
  {
    var o1 := EnsureCall(o, id, fileChange);
    if Decide(o1, id) == Hold {
      EnsureKeepsInv(o, id, fileChange);
      HoldMatches(o1, HeldExec(id, execId));
    } else {
      ArrivalHoldsNothing(o, id, execId, fileChange, fileChangeRead);
    }
  }

  lemma ArrivalHoldsNothing(o: Order, id: CallId, execId: int, fileChange: bool, fileChangeRead: bool)
    requires Decide(EnsureCall(o, id, fileChange), id) != Hold
    ensures Arrive(o, id, execId, fileChange, fileChangeRead).0.held == o.held
  {}

  lemma DropKeepsInv(o: Order, execId: int)
    requires Inv(o)
    ensures Inv(DropHeld(o, execId))
    ensures multiset(o.held) == multiset(DropHeld(o, execId).held) + DroppedBy(o, execId)
    ensures forall x | IsRunning(o, x) :: IsRunning(DropHeld(o, execId), x)
  {
    var at := FindHeld(o.held, execId);
    if at < |o.held| {
      TakeKeepsInv(o, at, Done);
      TakeEffects(o, at, Done);
      assert IsHeld(o, o.held[at].callId);
    }
  }

  lemma ExecsFree(o: Order, execs: map<int, ExecRecord>)
    requires Inv(o)
    ensures Inv(o.(execs := execs))
  {
    SameHoldsMatch(o, o.(execs := execs));
  }

  lemma NoteKeepsInv(o: Order, execId: int, outcome: Outcome)
    requires Inv(o)
    ensures Inv(NoteResult(o, execId, outcome))
  {
    DropKeepsInv(o, execId);
    if FindHeld(o.held, execId) == |o.held| && execId in o.execs {
      var o1 := o.(execs := o.execs - {execId});
      ExecsFree(o, o1.execs);
      if outcome == Rejected {
        RefuseKeepsInv(o1, o.execs[execId].callId);
      } else {
        FinishKeepsInv(o1, o.execs[execId].callId);
      }
    }
  }

  lemma NoteCounts(o: Order, execId: int, outcome: Outcome)
    requires Inv(o)
    ensures multiset(o.held) == multiset(NoteResult(o, execId, outcome).held) + DroppedBy(o, execId)
  {
    DropKeepsInv(o, execId);
  }

  lemma NoteKeepsRunning(o: Order, execId: int, outcome: Outcome, id: CallId)
    requires Inv(o)
    requires IsRunning(o, id) && (execId in o.execs ==> id != o.execs[execId].callId)
    ensures IsRunning(NoteResult(o, execId, outcome), id)
  {
    DropKeepsInv(o, execId);
  }

  lemma NextKeepsOrder(s: System, e: Event)
    requires SystemInv(s) && Enabled(s, e)
    ensures Inv(Next(s, e).order)
  {
    var o := s.order;
    match e
    case CallStarted(id, fileChange) =>
      EnsureKeepsInv(if StepFinished(o) then Clear(o) else o, id, fileChange);
    case CallsListed(count) => SameHoldsMatch(Next(s, e).order.(listed := o.listed), Next(s, e).order);
    case StepStarted =>
    case ExecArrives(id, execId, fileChange, fileChangeRead) =>
      ArrivalKeepsInv(o, id, execId, fileChange, fileChangeRead);
    case Redispatched(fileChangeRead) =>
      assert IsRunning(o, s.limbo[0].callId);
      DispatchKeepsInv(o, s.limbo[0].callId, s.limbo[0].execId, fileChangeRead);
    case ReleaseAbandoned => FinishKeepsInv(o, s.limbo[0].callId);
    case CallCompleted(id) => FinishKeepsInv(o, id);
    case ResultDelivered(execId, outcome) => NoteKeepsInv(o, execId, outcome);
    case HoldWithdrawn(execId) => DropKeepsInv(o, execId);
    case CancelHeld => CancelPass(o, 0);
    case ReleaseHeld => ReleasePass(o, 0);
  }

  lemma LimboKept(before: Order, after: Order, limbo: seq<HeldExec>, id: CallId)
    requires LimboRuns(before, limbo) && RunningKept(before, after, id)
    requires forall h | h in limbo :: h.callId != id
    ensures LimboRuns(after, limbo)
  {}

  /** The first released exec leaves limbo; the others still run. */
  lemma LimboShifts(s: System, e: Event)
    requires SystemInv(s) && s.limbo != [] && (e.Redispatched? || e.ReleaseAbandoned?)
    ensures LimboRuns(Next(s, e).order, Next(s, e).limbo)
  {
    var first := s.limbo[0];
    assert IsRunning(s.order, first.callId);
    forall h | h in s.limbo[1..] ensures IsRunning(s.order, h.callId) && h.callId != first.callId {
      assert h in s.limbo;
    }
    assert RunningKept(s.order, Next(s, e).order, first.callId);
  }

  lemma ConcatDistinct(a: seq<HeldExec>, b: seq<HeldExec>)
    requires forall j, k | 0 <= j < k < |a| :: a[j].callId != a[k].callId
    requires forall j, k | 0 <= j < k < |b| :: b[j].callId != b[k].callId
    requires forall g, h | g in a && h in b :: g.callId != h.callId
    ensures var s := a + b; forall j, k | 0 <= j < k < |s| :: s[j].callId != s[k].callId
  {}

  lemma LimboGrows(s: System)
    requires SystemInv(s)
    ensures LimboRuns(Next(s, ReleaseHeld).order, Next(s, ReleaseHeld).limbo)
  {
    ReleaseTakesHeld(s.order, 0);
    ReleaseTakesOnce(s.order, 0);
    var (last, taken) := ReleaseFrom(s.order, 0);
    forall g, h | g in s.limbo && h in taken ensures g.callId != h.callId {
      assert IsRunning(s.order, g.callId) && IsHeld(s.order, h.callId);
    }
    ConcatDistinct(s.limbo, taken);
    forall h | h in s.limbo ensures IsRunning(last, h.callId) {
      ReleaseKeepsRunning(s.order, 0, h.callId);
    }
  }

  lemma NextKeepsLimbo(s: System, e: Event)
    requires SystemInv(s) && Enabled(s, e)
    ensures LimboRuns(Next(s, e).order, Next(s, e).limbo)
  {
    var o := s.order;
    var after := Next(s, e).order;
    if Clears(o, e) {
      ResetDiscardsNothing(s, e);
    } else {
      match e
      case ExecArrives(id, execId, fileChange, fileChangeRead) =>
        ArrivalKeepsRunning(o, id, execId, fileChange, fileChangeRead);
        LimboKept(o, after, s.limbo, id);
      case ReleaseAbandoned => LimboShifts(s, e);
      case Redispatched(_) => LimboShifts(s, e);
      case CallCompleted(id) => LimboKept(o, after, s.limbo, id);
      case ResultDelivered(execId, outcome) =>
        forall h | h in s.limbo ensures IsRunning(after, h.callId) {
          NoteKeepsRunning(o, execId, outcome, h.callId);
        }
      case HoldWithdrawn(execId) => DropKeepsInv(o, execId);
      case CancelHeld =>
        forall h | h in s.limbo ensures IsRunning(after, h.callId) {
          CancelOnlyFinishes(o, 0, h.callId);
        }
      case ReleaseHeld => LimboGrows(s);
      case _ =>
    }
  }

  /** Events that neither hold nor take an exec. */
  lemma OthersHoldNothing(s: System, e: Event)
    requires e.CallStarted? || e.CallsListed? || e.StepStarted? || e.Redispatched? || e.ReleaseAbandoned? || e.CallCompleted?
    ensures var t := Next(s, e);
            && t.order.held == s.order.held && t.entered == s.entered
            && t.released == s.released && t.cancelled == s.cancelled && t.dropped == s.dropped
  {}

  lemma ArrivalConserves(s: System, id: CallId, execId: int, fileChange: bool, fileChangeRead: bool)
    requires Inv(s.order) && Conserved(s) && Enabled(s, ExecArrives(id, execId, fileChange, fileChangeRead))
    ensures Conserved(Next(s, ExecArrives(id, execId, fileChange, fileChangeRead)))
  {
    ArrivalCounts(s.order, id, execId, fileChange, fileChangeRead);
  }

  lemma ResultConserves(s: System, execId: int, outcome: Outcome)
    requires Inv(s.order) && Conserved(s)
    ensures Conserved(Next(s, ResultDelivered(execId, outcome)))
  {
    NoteCounts(s.order, execId, outcome);
  }

  lemma WithdrawalConserves(s: System, execId: int)
    requires Inv(s.order) && Conserved(s)
    ensures Conserved(Next(s, HoldWithdrawn(execId)))
  {
    DropKeepsInv(s.order, execId);
  }

  lemma PassConserves(s: System, e: Event)
    requires Inv(s.order) && Conserved(s) && (e.CancelHeld? || e.ReleaseHeld?)
    ensures Conserved(Next(s, e))
  {
    if e.CancelHeld? {
      CancelPass(s.order, 0);
    } else {
      ReleasePass(s.order, 0);
    }
  }

  lemma NextConserves(s: System, e: Event)
    requires SystemInv(s) && Enabled(s, e)
    ensures Conserved(Next(s, e))
  {
    match e
    case ExecArrives(id, execId, fileChange, fileChangeRead) => ArrivalConserves(s, id, execId, fileChange, fileChangeRead);
    case ResultDelivered(execId, outcome) => ResultConserves(s, execId, outcome);
    case HoldWithdrawn(execId) => WithdrawalConserves(s, execId);
    case CancelHeld => PassConserves(s, e);
    case ReleaseHeld => PassConserves(s, e);
    case _ => OthersHoldNothing(s, e);
  }

  /** Every event keeps the invariant. */
  lemma NextKeepsInv(s: System, e: Event)
    requires SystemInv(s) && Enabled(s, e)
    ensures SystemInv(Next(s, e))
  {
    NextKeepsOrder(s, e);
    NextKeepsLimbo(s, e);
    NextConserves(s, e);
  }

  /** In every allowed run the invariant holds at every state. */
  lemma {:induction false} RunKeepsInv(s: System, events: seq<Event>)
    requires SystemInv(s) && Allowed(s, events)
    ensures forall state | state in Trace(s, events) :: SystemInv(state)
    decreases |events|
  {
    if events != [] {
      NextKeepsInv(s, events[0]);
      RunKeepsInv(Next(s, events[0]), events[1..]);
    }
  }

  /** The invariant holds in every state an allowed run from nothing reaches. */
  lemma ReachableStates(events: seq<Event>)
    requires Allowed(START, events)
    ensures forall state | state in Trace(START, events) :: SystemInv(state)
  {
    RunKeepsInv(START, events);
  }

  /** A call enters running only when every earlier file change is done. */
  lemma EntryFollowsChanges(s: System, e: Event, id: CallId)
    requires SystemInv(s) && Enabled(s, e)
    requires Enters(s.order, Next(s, e).order, id)
    ensures EarlierChangesDone(Next(s, e).order, id)
  {
    var o := s.order;
    match e
    case ExecArrives(callId, execId, fileChange, fileChangeRead) =>
      ArrivalEntry(o, callId, execId, fileChange, fileChangeRead, id);
    case Redispatched(_) => RedispatchEntersNothing(s, e, id);
    case CancelHeld =>
      CancelPass(o, 0);
      CancelOnlyFinishes(o, 0, id);
    case ReleaseHeld =>
      ReleaseEntersInOrder(o, 0, id);
    case ResultDelivered(execId, outcome) => NoteEntersNothing(o, execId, outcome, id);
    case HoldWithdrawn(execId) => NoteEntersNothing(o, execId, Succeeded, id);
    case _ =>
  }

  lemma RedispatchEntersNothing(s: System, e: Event, id: CallId)
    requires SystemInv(s) && e.Redispatched? && s.limbo != []
    ensures !Enters(s.order, Next(s, e).order, id)
  {
    assert IsRunning(s.order, s.limbo[0].callId);
  }

  lemma NoteEntersNothing(o: Order, execId: int, outcome: Outcome, id: CallId)
    requires Inv(o)
    ensures !Enters(o, NoteResult(o, execId, outcome), id) && !Enters(o, DropHeld(o, execId), id)
  {}

  lemma ArrivalEntry(o: Order, callId: CallId, execId: int, fileChange: bool, fileChangeRead: bool, id: CallId)
    requires Enters(o, Arrive(o, callId, execId, fileChange, fileChangeRead).0, id)
    ensures EarlierChangesDone(Arrive(o, callId, execId, fileChange, fileChangeRead).0, id)
  {
    var o1 := EnsureCall(o, callId, fileChange);
    ArrivalEnters(o, callId, execId, fileChange, fileChangeRead, id);
    ReleasedAfterChanges(o1, id, RunExec(o1, id, execId, fileChangeRead));
  }

  /** Only the arriving call can start, and only when the decision is to run it. */
  lemma ArrivalEnters(o: Order, callId: CallId, execId: int, fileChange: bool, fileChangeRead: bool, id: CallId)
    requires Enters(o, Arrive(o, callId, execId, fileChange, fileChangeRead).0, id)
    ensures id == callId && Decide(EnsureCall(o, callId, fileChange), id) == Run
  {
    match Decide(EnsureCall(o, callId, fileChange), callId)
    case Run =>
    case Hold =>
    case Cancel =>
  }

  /** A refused file change stays refused, at its position, until the step is cleared. */
  lemma RefusalStays(s: System, e: Event, id: CallId)
    requires SystemInv(s) && Enabled(s, e) && !Clears(s.order, e)
    requires id in s.order.calls && s.order.calls[id].fileChange && s.order.calls[id].state == Refused
    ensures var after := Next(s, e).order;
            id in after.calls && after.calls[id] == s.order.calls[id]
  {
    var o := s.order;
    match e
    case ExecArrives(callId, execId, fileChange, fileChangeRead) =>
      RefusalOutlivesArrival(o, callId, execId, fileChange, fileChangeRead, id);
    case CancelHeld => CancelOnlyFinishes(o, 0, id);
    case ReleaseHeld => ReleaseMovesHeld(o, 0);
    case ResultDelivered(execId, outcome) => RefusalOutlivesResult(o, execId, outcome, id);
    case HoldWithdrawn(execId) => RefusalOutlivesResult(o, execId, Succeeded, id);
    case _ =>
  }

  lemma RefusalOutlivesArrival(o: Order, callId: CallId, execId: int, fileChange: bool, fileChangeRead: bool, id: CallId)
    requires id in o.calls && id != callId
    ensures var after := Arrive(o, callId, execId, fileChange, fileChangeRead).0;
            id in after.calls && after.calls[id] == o.calls[id]
  {
    assert EnsureCall(o, callId, fileChange).calls[id] == o.calls[id];
  }

  lemma RefusalOutlivesResult(o: Order, execId: int, outcome: Outcome, id: CallId)
    requires Inv(o) && id in o.calls && o.calls[id].fileChange && o.calls[id].state == Refused
    ensures id in NoteResult(o, execId, outcome).calls && NoteResult(o, execId, outcome).calls[id] == o.calls[id]
    ensures id in DropHeld(o, execId).calls && DropHeld(o, execId).calls[id] == o.calls[id]
  {
    var at := FindHeld(o.held, execId);
    if at < |o.held| {
      assert IsHeld(o, o.held[at].callId);
    }
  }

  ghost predicate NeverClears(s: System, events: seq<Event>)
    decreases |events|
  {
    events != [] ==> !Clears(s.order, events[0]) && NeverClears(Next(s, events[0]), events[1..])
  }

  lemma EntryNotBehind(s: System, e: Event, refused: CallId, id: CallId)
    requires SystemInv(s) && Enabled(s, e) && !Clears(s.order, e)
    requires refused in s.order.calls && s.order.calls[refused].fileChange && s.order.calls[refused].state == Refused
    requires Enters(s.order, Next(s, e).order, id)
    ensures Next(s, e).order.calls[id].index <= s.order.calls[refused].index
  {
    RefusalStays(s, e, refused);
    EntryFollowsChanges(s, e, id);
  }

  /** Once a file change is refused, no later call of the step ever starts
      running before the step is cleared, however the run goes on. */
  lemma {:induction false} NothingRunsBehindRefusal(s: System, events: seq<Event>, refused: CallId, k: nat, id: CallId)
    requires SystemInv(s) && Allowed(s, events) && NeverClears(s, events)
    requires refused in s.order.calls && s.order.calls[refused].fileChange && s.order.calls[refused].state == Refused
    requires k < |events|
    requires Enters(Trace(s, events)[k].order, Trace(s, events)[k + 1].order, id)
    ensures Trace(s, events)[k + 1].order.calls[id].index <= s.order.calls[refused].index
    decreases |events|
  {
    var next := Next(s, events[0]);
    assert Trace(s, events)[k + 1] == Trace(next, events[1..])[k];
    if k == 0 {
      EntryNotBehind(s, events[0], refused, id);
    } else {
      RefusalStays(s, events[0], refused);
      NextKeepsInv(s, events[0]);
      assert Trace(s, events)[k] == Trace(next, events[1..])[k - 1];
      NothingRunsBehindRefusal(next, events[1..], refused, k - 1, id);
    }
  }

  // ------------------------------------------------------ the scheduler in place

  /** The scheduler as the provider keeps it: one object per Run, updated in place. */
  class Scheduler {
    var nextIndex: nat
    var listed: Count
    var calls: map<CallId, Call>
    var execs: map<int, ExecRecord>
    var held: seq<HeldExec>

    function Model(): Order
      reads this
    {
      Order(nextIndex, listed, calls, execs, held)
    }

    constructor ()
      ensures Model() == EMPTY
    {
      nextIndex, listed, calls, execs, held := 0, Unlisted, map[], map[], [];
    }

    method ClearStep()
      modifies this
      ensures Model() == Clear(old(Model()))
    {
      calls, execs, nextIndex, listed := map[], map[], 0, Unlisted;
    }

    method NoteOrderedCallCount(count: int)
      modifies this
      ensures Model() == ListCalls(old(Model()), count)
    {
      if count < 0 { return; }
      if listed.Listed? && StepFinished(Model()) { ClearStep(); }
      listed := Listed(count);
    }

    method StartOrderedStep()
      modifies this
      ensures Model() == StartStep(old(Model()))
    {
      if held == [] && AllTerminal(Model()) { ClearStep(); }
    }

    method Ensure(id: CallId, fileChange: bool)
      modifies this
      ensures Model() == EnsureCall(old(Model()), id, fileChange)
      ensures id in calls
    {
      if id !in calls {
        calls := calls[id := Call(nextIndex, fileChange, Announced)];
        nextIndex := nextIndex + 1;
      } else if fileChange {
        calls := calls[id := calls[id].(fileChange := true)];
      }
    }

    method AnnounceCall(id: CallId, fileChange: bool)
      modifies this
      ensures Model() == Announce(old(Model()), id, fileChange)
    {
      if StepFinished(Model()) { ClearStep(); }
      Ensure(id, fileChange);
    }

    /** The scan of `blocked`: stops at the first call that blocks. */
    method IsBlocked(id: CallId) returns (found: bool)
      requires id in calls
      ensures found <==> Blocked(Model(), id)
    {
      var rest := calls.Keys;
      while rest != {}
        invariant rest <= calls.Keys
        invariant forall other | other in calls && other !in rest && other != id :: !Blocks(calls[other], calls[id])
      {
        var other :| other in rest;
        rest := rest - {other};
        if other != id && calls[other].index < calls[id].index {
          if calls[other].fileChange && Unfinished(calls[other].state) { return true; }
          if calls[id].fileChange && (calls[other].state == Held || calls[other].state == Running) { return true; }
        }
      }
      return false;
    }

    method FollowsRefused(id: CallId) returns (found: bool)
      requires id in calls
      ensures found <==> FollowsRefusal(Model(), id)
    {
      var rest := calls.Keys;
      while rest != {}
        invariant rest <= calls.Keys
        invariant forall other | other in calls && other !in rest :: !RefusesLater(calls[other], calls[id])
      {
        var other :| other in rest;
        rest := rest - {other};
        if calls[other].index < calls[id].index && calls[other].fileChange && calls[other].state == Refused {
          assert RefusesLater(calls[other], calls[id]);
          return true;
        }
      }
      return false;
    }

    method OrderExec(id: CallId, fileChange: bool) returns (decision: Decision)
      modifies this
      ensures Model() == EnsureCall(old(Model()), id, fileChange)
      ensures id in calls && decision == Decide(Model(), id)
    {
      Ensure(id, fileChange);
      var refused := FollowsRefused(id);
      if refused { return Cancel; }
      var blocked := IsBlocked(id);
      decision := if blocked then Decision.Hold else Decision.Run;
    }

    method HoldBack(h: HeldExec)
      modifies this
      ensures Model() == HoldExec(old(Model()), h)
    {
      Ensure(h.callId, false);
      calls := calls[h.callId := calls[h.callId].(state := Held)];
      var at := 0;
      while at < |held| && (if held[at].callId in calls then calls[held[at].callId].index else 0) <= calls[h.callId].index
        invariant at <= |held|
        invariant InsertionPoint(Model(), calls[h.callId].index, at) == InsertionPoint(Model(), calls[h.callId].index, 0)
      {
        at := at + 1;
      }
      held := held[..at] + [h] + held[at..];
    }

    method Dispatch(id: CallId, execId: int, fileChangeRead: bool)
      modifies this
      ensures Model() == RunExec(old(Model()), id, execId, fileChangeRead)
    {
      Ensure(id, false);
      if !Terminal(calls[id].state) {
        calls := calls[id := calls[id].(state := Running)];
      }
      execs := execs[execId := ExecRecord(id, fileChangeRead)];
    }

    method Finish(id: CallId)
      modifies this
      ensures Model() == FinishCall(old(Model()), id)
    {
      if id in calls && calls[id].state != Held && calls[id].state != Refused {
        calls := calls[id := calls[id].(state := Done)];
      }
    }

    method Refuse(id: CallId)
      modifies this
      ensures Model() == RefuseCall(old(Model()), id)
    {
      if id !in calls || calls[id].state == Held { return; }
      calls := calls[id := calls[id].(state := if calls[id].fileChange then Refused else Done)];
    }

    /** The first held exec with that id leaves and is handed back. */
    method DropHeldExec(execId: int) returns (dropped: Option<HeldExec>)
      modifies this
      ensures Model() == DropHeld(old(Model()), execId)
      ensures var at := FindHeld(old(held), execId);
              dropped == if at == |old(held)| then None else Some(old(held)[at])
    {
      var at := FindHeld(held, execId);
      if at == |held| { return None; }
      dropped := Some(held[at]);
      Splice(at, Done);
    }

    method Splice(at: nat, state: CallState)
      requires at < |held|
      modifies this
      ensures Model() == TakeAt(old(Model()), at, state)
    {
      var id := held[at].callId;
      held := held[..at] + held[at + 1..];
      if id in calls {
        calls := calls[id := calls[id].(state := state)];
      }
    }

    method NoteExecResult(execId: int, outcome: Outcome) returns (changed: bool)
      modifies this
      ensures Model() == NoteResult(old(Model()), execId, outcome)
      ensures changed <==> FindHeld(old(held), execId) < |old(held)| || execId in old(execs)
    {
      var dropped := DropHeldExec(execId);
      if dropped.Some? { return true; }
      if execId !in execs { return false; }
      var exec := execs[execId];
      execs := execs - {execId};
      if outcome == Rejected {
        Refuse(exec.callId);
      } else if !exec.fileChangeRead {
        Finish(exec.callId);
      }
      return true;
    }

    /** Cancelling a held exec does not change who follows a refusal, so the
        filter and the removals are one pass. */
    method TakeCancelledExecs() returns (cancelled: seq<HeldExec>)
      modifies this
      ensures (Model(), cancelled) == CancelFrom(old(Model()), 0)
    {
      cancelled := [];
      var i := 0;
      assert [] + CancelFrom(Model(), 0).1 == CancelFrom(Model(), 0).1;
      while i < |held|
        invariant i <= |held|
        invariant CancelFrom(old(Model()), 0) == (CancelFrom(Model(), i).0, cancelled + CancelFrom(Model(), i).1)
        decreases |held| - i
      {
        var h := held[i];
        var follows := false;
        if h.callId in calls {
          follows := FollowsRefused(h.callId);
        }
        if follows {
          ghost var rest := CancelFrom(TakeAt(Model(), i, Done), i).1;
          Splice(i, Done);
          assert cancelled + ([h] + rest) == (cancelled + [h]) + rest;
          cancelled := cancelled + [h];
        } else {
          i := i + 1;
        }
      }
      assert cancelled + [] == cancelled;
    }

    method TakeReleasableExecs() returns (released: seq<HeldExec>)
      modifies this
      ensures (Model(), released) == ReleaseFrom(old(Model()), 0)
    {
      released := [];
      var i := 0;
      assert [] + ReleaseFrom(Model(), 0).1 == ReleaseFrom(Model(), 0).1;
      while i < |held|
        invariant i <= |held|
        invariant ReleaseFrom(old(Model()), 0) == (ReleaseFrom(Model(), i).0, released + ReleaseFrom(Model(), i).1)
        decreases |held| - i
      {
        var h := held[i];
        var stays := true;
        if h.callId in calls {
          stays := FollowsRefused(h.callId);
          if !stays {
            stays := IsBlocked(h.callId);
          }
        }
        if stays {
          i := i + 1;
        } else {
          ghost var rest := ReleaseFrom(TakeAt(Model(), i, Running), i).1;
          Splice(i, Running);
          assert released + ([h] + rest) == (released + [h]) + rest;
          released := released + [h];
        }
      }
      assert released + [] == released;
    }
  }
}
