/** What each operation of the step scheduler (src/step-order.ts) does to its
    calls, held execs and dispatched execs, spelled out field by field, and what
    a refused result means for the rest of the step. */
module StepOrderEffects {

  import opened StepOrder

  /** No call but `id` appears, leaves or changes. */
  ghost predicate OthersKept(o: Order, r: Order, id: CallId) {
    forall x | x != id :: (x in r.calls <==> x in o.calls) && (x in o.calls ==> r.calls[x] == o.calls[x])
  }

  /** The call behind `id`, or the one it becomes when it is first seen. */
  function Seen(o: Order, id: CallId, fileChange: bool): Call {
    if id in o.calls then Call(o.calls[id].index, o.calls[id].fileChange || fileChange, o.calls[id].state)
    else Call(o.nextIndex, fileChange, Announced)
  }

  // ------------------------------------------------------------------- arrivals

  /** A file change written before `index` was refused. */
  ghost predicate AfterRefusal(o: Order, index: nat) {
    exists x | x in o.calls :: o.calls[x].index < index && o.calls[x].fileChange && o.calls[x].state == Refused
  }

  /** Nothing written before the call has to come first: no unfinished file
      change, and for a file change no call that is held or running. */
  ghost predicate NothingFirst(o: Order, id: CallId, call: Call) {
    forall x | x in o.calls && x != id && o.calls[x].index < call.index ::
      && (o.calls[x].fileChange ==> o.calls[x].state == Done || o.calls[x].state == Refused)
      && (call.fileChange ==> o.calls[x].state != Held && o.calls[x].state != Running)
  }

  lemma ArrivalDecision(o: Order, id: CallId, execId: int, fileChange: bool, fileChangeRead: bool)
    ensures var decision, me := Arrive(o, id, execId, fileChange, fileChangeRead).1, Seen(o, id, fileChange);
            && (decision == Cancel <==> AfterRefusal(o, me.index))
            && (decision == Run <==> !AfterRefusal(o, me.index) && NothingFirst(o, id, me))
  {
    var o1, me := EnsureCall(o, id, fileChange), Seen(o, id, fileChange);
    assert OthersKept(o, o1, id) && o1.calls[id] == me;
    if AfterRefusal(o, me.index) {
      var x :| x in o.calls && o.calls[x].index < me.index && o.calls[x].fileChange && o.calls[x].state == Refused;
      assert RefusesLater(o1.calls[x], me);
    }
    if FollowsRefusal(o1, id) {
      var x :| x in o1.calls && RefusesLater(o1.calls[x], me);
      assert x != id && o.calls[x] == o1.calls[x];
    }
    DecisionBlocked(o, o1, id, me);
  }

  lemma DecisionBlocked(o: Order, o1: Order, id: CallId, me: Call)
    requires id in o1.calls && o1.calls[id] == me && OthersKept(o, o1, id)
    ensures Blocked(o1, id) <==> !NothingFirst(o, id, me)
  {
    if Blocked(o1, id) {
      var x :| x in o1.calls && x != id && Blocks(o1.calls[x], me);
      assert o.calls[x] == o1.calls[x];
    }
    if !NothingFirst(o, id, me) {
      var x :| x in o.calls && x != id && o.calls[x].index < me.index
               && !((o.calls[x].fileChange ==> o.calls[x].state == Done || o.calls[x].state == Refused)
                    && (me.fileChange ==> o.calls[x].state != Held && o.calls[x].state != Running));
      assert Blocks(o1.calls[x], me);
    }
  }

  /** An arriving exec runs and is remembered, is held in place, or its call is
      done and nothing is held; no other call moves. */
  lemma ArrivalEffect(o: Order, id: CallId, execId: int, fileChange: bool, fileChangeRead: bool)
    ensures var (r, decision) := Arrive(o, id, execId, fileChange, fileChangeRead);
            var me := Seen(o, id, fileChange);
            && OthersKept(o, r, id) && id in r.calls && r.listed == o.listed
            && r.nextIndex == (if id in o.calls then o.nextIndex else o.nextIndex + 1)
            && (decision == Run ==>
                  && r.held == o.held && r.execs == o.execs[execId := ExecRecord(id, fileChangeRead)]
                  && r.calls[id] == me.(state := if me.state == Done || me.state == Refused then me.state else Running))
            && (decision == Hold ==>
                  && multiset(r.held) == multiset(o.held) + multiset{HeldExec(id, execId)} && r.execs == o.execs
                  && r.calls[id] == me.(state := Held))
            && (decision == Cancel ==>
                  && r.held == o.held && r.execs == o.execs
                  && r.calls[id] == me.(state := if me.state == Held || me.state == Refused then me.state else Done))
  {
    var o1 := EnsureCall(o, id, fileChange);
    SeenIs(o, id, fileChange);
    match Decide(o1, id)
    case Run => RunAdds(o1, id, execId, fileChangeRead);
    case Hold => HoldAdds(o1, HeldExec(id, execId));
    case Cancel =>
  }

  lemma SeenIs(o: Order, id: CallId, fileChange: bool)
    ensures var r := EnsureCall(o, id, fileChange);
            && OthersKept(o, r, id) && id in r.calls && r.calls[id] == Seen(o, id, fileChange)
            && r.nextIndex == (if id in o.calls then o.nextIndex else o.nextIndex + 1)
            && r.held == o.held && r.execs == o.execs && r.listed == o.listed
  {}

  lemma RunAdds(o: Order, id: CallId, execId: int, fileChangeRead: bool)
    requires id in o.calls
    ensures var r, state := RunExec(o, id, execId, fileChangeRead), o.calls[id].state;
            && r.calls == o.calls[id := o.calls[id].(state := if state == Done || state == Refused then state else Running)]
            && r.execs == o.execs[execId := ExecRecord(id, fileChangeRead)]
            && r.held == o.held && r.nextIndex == o.nextIndex && r.listed == o.listed
  {}

  lemma HoldAdds(o: Order, h: HeldExec)
    requires h.callId in o.calls
    ensures var r := HoldExec(o, h);
            && multiset(r.held) == multiset(o.held) + multiset{h}
            && r.calls == o.calls[h.callId := o.calls[h.callId].(state := Held)]
            && r.execs == o.execs && r.nextIndex == o.nextIndex && r.listed == o.listed
  {
    InsertElements(o.held, InsertionPoint(SetState(o, h.callId, Held), o.calls[h.callId].index, 0), h);
  }

  // -------------------------------------------------------------------- results

  /** A delivered result of a dispatched exec moves exactly that exec's call:
      rejected, a file change is refused and any other call is done; a private
      read that succeeded leaves its call alone, and any other success finishes it. */
  lemma ResultEffect(o: Order, execId: int, outcome: Outcome)
    requires execId in o.execs && forall h | h in o.held :: h.execId != execId
    ensures var r, id, read := NoteResult(o, execId, outcome), o.execs[execId].callId, o.execs[execId].fileChangeRead;
            && r.held == o.held && r.execs == o.execs - {execId} && r.nextIndex == o.nextIndex && r.listed == o.listed
            && OthersKept(o, r, id) && (id in r.calls <==> id in o.calls)
            && (id in o.calls && o.calls[id].state == Held ==> r.calls[id] == o.calls[id])
            && (id in o.calls && o.calls[id].state != Held ==>
                  match outcome
                  case Rejected => r.calls[id] == o.calls[id].(state := if o.calls[id].fileChange then Refused else Done)
                  case Succeeded =>
                    r.calls[id] == if read || o.calls[id].state == Refused then o.calls[id] else o.calls[id].(state := Done))
  {}

  /** A result for a held exec, or its withdrawal, takes it out of the list and
      finishes its call. */
  lemma HeldResultEffect(o: Order, execId: int, outcome: Outcome, at: nat)
    requires Inv(o) && at < |o.held| && o.held[at].execId == execId
    requires forall j | 0 <= j < at :: o.held[j].execId != execId
    ensures NoteResult(o, execId, outcome) == DropHeld(o, execId)
    ensures var r, id := DropHeld(o, execId), o.held[at].callId;
            && r.held == o.held[..at] + o.held[at + 1..] && r.execs == o.execs
            && r.nextIndex == o.nextIndex && r.listed == o.listed
            && OthersKept(o, r, id) && id in o.calls && id in r.calls && r.calls[id] == o.calls[id].(state := Done)
  {
    assert FindHeld(o.held, execId) == at;
    assert IsHeld(o, o.held[at].callId);
  }

  /** A result nobody waits for changes nothing. */
  lemma StrayResult(o: Order, execId: int, outcome: Outcome)
    requires execId !in o.execs && forall h | h in o.held :: h.execId != execId
    ensures NoteResult(o, execId, outcome) == o && DropHeld(o, execId) == o
  {}

  /** Completing a call finishes it, unless it is held or was refused. */
  lemma CompletionEffect(s: System, id: CallId)
    ensures var o, r := s.order, Next(s, CallCompleted(id)).order;
            && r == o.(calls := r.calls) && OthersKept(o, r, id) && (id in r.calls <==> id in o.calls)
            && (id in o.calls ==>
                  r.calls[id] == if o.calls[id].state == Held || o.calls[id].state == Refused then o.calls[id] else o.calls[id].(state := Done))
  {}

  /** A released exec is dispatched, or given up and its call done. */
  lemma RedispatchEffect(s: System, fileChangeRead: bool)
    requires SystemInv(s) && s.limbo != []
    ensures var o, h, n := s.order, s.limbo[0], Next(s, Redispatched(fileChangeRead));
            n.limbo == s.limbo[1..] && n.order == o.(execs := o.execs[h.execId := ExecRecord(h.callId, fileChangeRead)])
    ensures var o, h, n := s.order, s.limbo[0], Next(s, ReleaseAbandoned);
            && n.limbo == s.limbo[1..] && h.callId in o.calls
            && n.order == o.(calls := o.calls[h.callId := o.calls[h.callId].(state := Done)])
  {
    assert IsRunning(s.order, s.limbo[0].callId);
  }

  // --------------------------------------------------------------- generations

  ghost predicate AllOver(o: Order) {
    o.held == [] && forall x | x in o.calls :: o.calls[x].state == Done || o.calls[x].state == Refused
  }

  /** All the calls Cursor listed have arrived and are over. */
  ghost predicate ListedOver(o: Order) {
    o.listed.Listed? && |o.calls| >= o.listed.count && AllOver(o)
  }

  /** A call announced after a finished generation starts a new one with it;
      otherwise it is added at the next index, or keeps its place. */
  lemma AnnouncementEffect(s: System, id: CallId, fileChange: bool)
    ensures var o, r := s.order, Next(s, CallStarted(id, fileChange)).order;
            if ListedOver(o) then r == Order(1, Unlisted, map[id := Call(0, fileChange, Announced)], map[], [])
            else
              && OthersKept(o, r, id) && id in r.calls && r.calls[id] == Seen(o, id, fileChange)
              && r.nextIndex == (if id in o.calls then o.nextIndex else o.nextIndex + 1)
              && r.listed == o.listed && r.execs == o.execs && r.held == o.held
  {
    assert ListedOver(s.order) <==> StepFinished(s.order);
  }

  /** A listed count is remembered, for a new generation if the last one is over. */
  lemma ListingEffect(s: System, count: int)
    ensures var o, r := s.order, Next(s, CallsListed(count)).order;
            r == if count < 0 then o
                 else if ListedOver(o) then Order(0, Listed(count), map[], map[], [])
                 else o.(listed := Listed(count))
  {
    assert ListedOver(s.order) <==> StepFinished(s.order);
  }

  lemma StepStartEffect(s: System)
    ensures Next(s, StepStarted).order == if AllOver(s.order) then EMPTY else s.order
  {}

  // --------------------------------------------------------------------- passes

  /** A cancel pass takes exactly the held execs written after a refused file
      change, and their calls are done. */
  lemma CancelExact(o: Order, h: HeldExec)
    requires Inv(o)
    ensures var (last, taken) := CancelFrom(o, 0);
            && (h in taken <==> h in o.held && AfterRefusal(o, IndexOf(o, h)))
            && (h in o.held ==> h in taken || h in last.held)
            && (h in taken ==> h.callId in last.calls && last.calls[h.callId].state == Done)
  {
    CancelPass(o, 0);
    CancelTakes(o, 0, h);
    var (last, taken) := CancelFrom(o, 0);
    InEither(o.held, last.held, taken, h);
    if h in o.held {
      assert IsHeld(o, h.callId);
      CancellableIff(o, h);
      if h in last.held {
        RefusalsUnchanged(o, last);
        assert !Cancellable(last, h);
      }
    }
  }

  lemma InEither(held: seq<HeldExec>, last: seq<HeldExec>, taken: seq<HeldExec>, h: HeldExec)
    requires multiset(held) == multiset(last) + multiset(taken)
    ensures h in held <==> h in last || h in taken
  {
    assert h in held <==> h in multiset(held);
    assert h in multiset(held) <==> h in multiset(last) || h in multiset(taken);
  }

  lemma CancellableIff(o: Order, h: HeldExec)
    requires h.callId in o.calls
    ensures Cancellable(o, h) <==> AfterRefusal(o, o.calls[h.callId].index)
  {
    if AfterRefusal(o, o.calls[h.callId].index) {
      var x :| x in o.calls && o.calls[x].index < o.calls[h.callId].index && o.calls[x].fileChange && o.calls[x].state == Refused;
      assert RefusesLater(o.calls[x], o.calls[h.callId]);
    }
  }

  lemma {:induction false} CancelTakes(o: Order, i: nat, h: HeldExec)
    requires Inv(o) && i <= |o.held|
    ensures var (last, taken) := CancelFrom(o, i);
            h in taken ==> Cancellable(o, h) && h.callId in last.calls && last.calls[h.callId].state == Done
    decreases |o.held| - i
  {
    if i == |o.held| {
    } else if !Cancellable(o, o.held[i]) {
      CancelTakes(o, i + 1, h);
    } else {
      var o1 := TakeAt(o, i, Done);
      TakeKeepsInv(o, i, Done);
      TakeEffects(o, i, Done);
      assert IsHeld(o, o.held[i].callId);
      CancelTakes(o1, i, h);
      RefusalsUnchanged(o, o1);
      if h == o.held[i] {
        CancelOnlyFinishes(o1, i, h.callId);
      }
    }
  }

  /** Some of the execs held from `i` on, in model order. */
  ghost predicate PickedInOrder(o: Order, i: nat, taken: seq<HeldExec>)
    requires i <= |o.held|
  {
    && (forall h | h in taken :: h in o.held[i..])
    && (forall j, k | 0 <= j < k < |taken| :: IndexOf(o, taken[j]) < IndexOf(o, taken[k]))
  }

  lemma PickedLater(o: Order, i: nat, taken: seq<HeldExec>)
    requires i < |o.held| && PickedInOrder(o, i + 1, taken)
    ensures PickedInOrder(o, i, taken)
  {
    assert o.held[i..] == [o.held[i]] + o.held[i + 1..];
  }

  /** A pass reports the execs it takes in model order. */
  lemma {:induction false} CancelInOrder(o: Order, i: nat)
    requires Inv(o) && i <= |o.held|
    ensures PickedInOrder(o, i, CancelFrom(o, i).1)
    decreases |o.held| - i
  {
    if i < |o.held| {
      if !Cancellable(o, o.held[i]) {
        CancelInOrder(o, i + 1);
        PickedLater(o, i, CancelFrom(o, i + 1).1);
      } else {
        var o1 := TakeAt(o, i, Done);
        TakeKeepsInv(o, i, Done);
        TakeEffects(o, i, Done);
        CancelInOrder(o1, i);
        TailAfterTake(o, i, Done);
        FirstIsFirst(o, o1, i, CancelFrom(o1, i).1);
      }
    }
  }

  lemma TailAfterTake(o: Order, i: nat, state: CallState)
    requires i < |o.held|
    ensures TakeAt(o, i, state).held[i..] == o.held[i + 1..]
  {
    assert TakeAt(o, i, state).held == o.held[..i] + o.held[i + 1..];
  }

  lemma FirstIsFirst(o: Order, o1: Order, i: nat, rest: seq<HeldExec>)
    requires HeldMatch(o) && i < |o.held| && SameOrder(o, o1)
    requires forall h | h in rest :: h in o.held[i + 1..]
    requires forall j, k | 0 <= j < k < |rest| :: IndexOf(o1, rest[j]) < IndexOf(o1, rest[k])
    ensures PickedInOrder(o, i, [o.held[i]] + rest)
  {
    assert o.held[i..] == [o.held[i]] + o.held[i + 1..];
    forall h | h in rest ensures IndexOf(o, o.held[i]) < IndexOf(o, h) && IndexOf(o1, h) == IndexOf(o, h) {
      var k :| 0 <= k < |o.held[i + 1..]| && o.held[i + 1..][k] == h;
      assert o.held[i + 1 + k] == h;
    }
  }

  lemma {:induction false} ReleaseInOrder(o: Order, i: nat)
    requires Inv(o) && i <= |o.held|
    ensures PickedInOrder(o, i, ReleaseFrom(o, i).1)
    decreases |o.held| - i
  {
    if i < |o.held| {
      if !Releasable(o, o.held[i]) {
        ReleaseInOrder(o, i + 1);
        PickedLater(o, i, ReleaseFrom(o, i + 1).1);
      } else {
        var o1 := TakeAt(o, i, Running);
        TakeKeepsInv(o, i, Running);
        TakeEffects(o, i, Running);
        ReleaseInOrder(o1, i);
        TailAfterTake(o, i, Running);
        FirstIsFirst(o, o1, i, ReleaseFrom(o1, i).1);
      }
    }
  }

  /** After a release pass every exec still held has a call to wait for, or a
      refusal before it: nothing is kept back for no reason. */
  lemma StillHeldHasReason(o: Order, h: HeldExec)
    requires Inv(o) && h in ReleaseFrom(o, 0).0.held
    ensures var last := ReleaseFrom(o, 0).0;
            h.callId in last.calls && (AfterRefusal(last, last.calls[h.callId].index) || !NothingFirst(last, h.callId, last.calls[h.callId]))
  {
    ReleasePass(o, 0);
    var last := ReleaseFrom(o, 0).0;
    assert IsHeld(last, h.callId) && !Releasable(last, h);
    CancellableIff(last, h);
    DecisionBlocked(last, last, h.callId, last.calls[h.callId]);
  }

  // ---------------------------------------------------- a file change runs alone

  /** Whatever lets a file change enter running, no earlier call is held or
      running then. */
  lemma ChangeEntersAlone(s: System, e: Event, id: CallId)
    requires SystemInv(s) && Enabled(s, e) && Enters(s.order, Next(s, e).order, id)
    requires Next(s, e).order.calls[id].fileChange
    ensures NothingEarlier(Next(s, e).order, id)
  {
    var o := s.order;
    match e
    case ExecArrives(callId, execId, fileChange, fileChangeRead) =>
      ArrivalEntersAlone(o, callId, execId, fileChange, fileChangeRead, id);
    case Redispatched(_) => RedispatchEntersNothing(s, e, id);
    case CancelHeld =>
      CancelPass(o, 0);
      CancelOnlyFinishes(o, 0, id);
    case ReleaseHeld =>
      ReleaseMovesHeld(o, 0);
      ReleaseEntersAlone(o, 0, id);
    case ResultDelivered(execId, outcome) => NoteEntersNothing(o, execId, outcome, id);
    case HoldWithdrawn(execId) => NoteEntersNothing(o, execId, Succeeded, id);
    case _ =>
  }

  lemma ArrivalEntersAlone(o: Order, callId: CallId, execId: int, fileChange: bool, fileChangeRead: bool, id: CallId)
    requires var r := Arrive(o, callId, execId, fileChange, fileChangeRead).0; Enters(o, r, id) && r.calls[id].fileChange
    ensures NothingEarlier(Arrive(o, callId, execId, fileChange, fileChangeRead).0, id)
  {
    ArrivalEnters(o, callId, execId, fileChange, fileChangeRead, id);
    ArrivalDecision(o, id, execId, fileChange, fileChangeRead);
    ArrivalEffect(o, id, execId, fileChange, fileChangeRead);
  }

  ghost predicate NothingEarlier(o: Order, id: CallId)
    requires id in o.calls
  {
    forall x | x in o.calls && o.calls[x].index < o.calls[id].index :: o.calls[x].state != Held && o.calls[x].state != Running
  }

  lemma {:induction false} ReleaseEntersAlone(o: Order, i: nat, id: CallId)
    requires Inv(o) && i <= |o.held| && id in o.calls && o.calls[id].fileChange
    requires Enters(o, ReleaseFrom(o, i).0, id)
    ensures NothingEarlier(ReleaseFrom(o, i).0, id)
    decreases |o.held| - i
  {
    if i < |o.held| {
      if !Releasable(o, o.held[i]) {
        ReleaseEntersAlone(o, i + 1, id);
      } else {
        var o1 := TakeAt(o, i, Running);
        TakeKeepsInv(o, i, Running);
        TakeEffects(o, i, Running);
        ReleaseMovesHeld(o1, i);
        if id == o.held[i].callId {
          TakenAlone(o, id, ReleaseFrom(o1, i).0);
        } else {
          ReleaseEntersAlone(o1, i, id);
        }
      }
    }
  }

  lemma TakenAlone(o: Order, id: CallId, last: Order)
    requires id in o.calls && o.calls[id].fileChange && !Blocked(o, id)
    requires last.calls.Keys == o.calls.Keys
    requires forall x | x in o.calls :: last.calls[x].index == o.calls[x].index
    requires forall x | x in o.calls && x != id && o.calls[x].state != Held :: last.calls[x] == o.calls[x]
    ensures NothingEarlier(last, id)
  {
    DecisionBlocked(o, o, id, o.calls[id]);
    forall x | x in o.calls && o.calls[x].index < o.calls[id].index ensures last.calls[x].state != Held && last.calls[x].state != Running {
      assert last.calls[x] == o.calls[x];
    }
  }

  // ----------------------------------------------------------- a refused change

  /** The host rejects a dispatched file change. */
  ghost predicate RejectsChange(o: Order, execId: int, id: CallId) {
    && execId in o.execs && o.execs[execId].callId == id && (forall h | h in o.held :: h.execId != execId)
    && id in o.calls && o.calls[id].fileChange && o.calls[id].state != Held
  }

  lemma {:induction false} RefusalKept(s: System, events: seq<Event>, refused: CallId)
    requires SystemInv(s) && Allowed(s, events) && NeverClears(s, events)
    requires refused in s.order.calls && s.order.calls[refused].fileChange && s.order.calls[refused].state == Refused
    ensures var last := Trace(s, events)[|events|].order;
            refused in last.calls && last.calls[refused] == s.order.calls[refused]
    ensures SystemInv(Trace(s, events)[|events|])
    decreases |events|
  {
    if events != [] {
      RefusalStays(s, events[0], refused);
      NextKeepsInv(s, events[0]);
      RefusalKept(Next(s, events[0]), events[1..], refused);
    }
  }

  /** After a rejected file change no later call of the step ever enters running
      before the step is cleared. */
  lemma RejectionStopsLater(s: System, execId: int, refused: CallId, events: seq<Event>, k: nat, id: CallId)
    requires SystemInv(s) && RejectsChange(s.order, execId, refused) && Enabled(s, ResultDelivered(execId, Rejected))
    requires var s1 := Next(s, ResultDelivered(execId, Rejected));
             && Allowed(s1, events) && NeverClears(s1, events) && k < |events|
             && Enters(Trace(s1, events)[k].order, Trace(s1, events)[k + 1].order, id)
    ensures Trace(Next(s, ResultDelivered(execId, Rejected)), events)[k + 1].order.calls[id].index <= s.order.calls[refused].index
  {
    var e := ResultDelivered(execId, Rejected);
    ResultEffect(s.order, execId, Rejected);
    NextKeepsInv(s, e);
    NothingRunsBehindRefusal(Next(s, e), events, refused, k, id);
  }

  /** And whatever is held behind it at any such time is in the next cancel pass. */
  lemma RejectionCancelsLater(s: System, execId: int, refused: CallId, events: seq<Event>, h: HeldExec)
    requires SystemInv(s) && RejectsChange(s.order, execId, refused) && Enabled(s, ResultDelivered(execId, Rejected))
    requires var s1 := Next(s, ResultDelivered(execId, Rejected)); Allowed(s1, events) && NeverClears(s1, events)
    requires var o := Trace(Next(s, ResultDelivered(execId, Rejected)), events)[|events|].order;
             h in o.held && IndexOf(o, h) > s.order.calls[refused].index
    ensures h in CancelFrom(Trace(Next(s, ResultDelivered(execId, Rejected)), events)[|events|].order, 0).1
  {
    var e := ResultDelivered(execId, Rejected);
    ResultEffect(s.order, execId, Rejected);
    NextKeepsInv(s, e);
    RefusalKept(Next(s, e), events, refused);
    var o := Trace(Next(s, e), events)[|events|].order;
    CancelExact(o, h);
  }
}
