/** The gate that serializes shell creates (src/shell-timeout.ts): one lane per
    command, held by one tool call, with its waiters in the order they came. */
module ShellGate {

  type Id = string

  type Command = string

  datatype Option<T> = None | Some(value: T)

  datatype Lane = Lane(lockedBy: Id, waiters: seq<Id>)

  type Lanes = map<Command, Lane>

  /** A lane's calls, the holder first. */
  function Queue(lanes: Lanes, command: Command): seq<Id> {
    if command in lanes then [lanes[command].lockedBy] + lanes[command].waiters else []
  }

  /** The calls in `ids` that are not in `gone`, in their order. */
  function Kept(ids: seq<Id>, gone: set<Id>): seq<Id> {
    if ids == [] then [] else if ids[0] in gone then Kept(ids[1..], gone) else [ids[0]] + Kept(ids[1..], gone)
  }

  // ---------------------------------------------------------------- operations

  function Armed(lanes: Lanes, id: Id, command: Command): Lanes {
    lanes[command := if command in lanes then Lane(lanes[command].lockedBy, lanes[command].waiters + [id]) else Lane(id, [])]
  }

  /** One lane once `id` is out of it; nothing if nobody is left. */
  function Released(lane: Lane, id: Id): Option<Lane> {
    var waiters := Kept(lane.waiters, {id});
    if lane.lockedBy != id then Some(Lane(lane.lockedBy, waiters))
    else if waiters == [] then None
    else Some(Lane(waiters[0], waiters[1..]))
  }

  function Disarmed(lanes: Lanes, id: Id): Lanes {
    map c | c in lanes && Released(lanes[c], id).Some? :: Released(lanes[c], id).value
  }

  datatype Event = Arm(id: Id, command: Command) | Disarm(id: Id)

  function Next(lanes: Lanes, e: Event): Lanes {
    match e
    case Arm(id, command) => Armed(lanes, id, command)
    case Disarm(id) => Disarmed(lanes, id)
  }

  function Run(lanes: Lanes, events: seq<Event>): Lanes
    decreases |events|
  {
    if events == [] then lanes else Run(Next(lanes, events[0]), events[1..])
  }

  // -------------------------------------------------------------- main results

  function DisarmedIn(events: seq<Event>): set<Id> {
    if events == [] then {} else (if events[0].Disarm? then {events[0].id} else {}) + DisarmedIn(events[1..])
  }

  function Arrival(e: Event, rest: seq<Event>, command: Command): seq<Id> {
    if e.Arm? && e.command == command && e.id !in DisarmedIn(rest) then [e.id] else []
  }

  /** The calls armed for a command and not disarmed since, in the order they came. */
  function Arrivals(events: seq<Event>, command: Command): seq<Id> {
    if events == [] then []
    else
      Arrival(events[0], events[1..], command) + Arrivals(events[1..], command)
  }

  lemma QueueDisarmed(lanes: Lanes, id: Id, command: Command)
    ensures Queue(Disarmed(lanes, id), command) == Kept(Queue(lanes, command), {id})
  {
    if command in lanes {
      var lane := lanes[command];
      assert Queue(lanes, command)[1..] == lane.waiters;
      if lane.lockedBy == id && Kept(lane.waiters, {id}) != [] {
        var left := Kept(lane.waiters, {id});
        assert [left[0]] + left[1..] == left;
      }
    }
  }

  lemma QueueArmed(lanes: Lanes, id: Id, armed: Command, command: Command)
    ensures Queue(Armed(lanes, id, armed), command) == Queue(lanes, command) + if armed == command then [id] else []
  {}

  lemma {:induction false} KeptSplits(ids: seq<Id>, more: seq<Id>, gone: set<Id>)
    ensures Kept(ids + more, gone) == Kept(ids, gone) + Kept(more, gone)
  {
    if ids == [] {
      assert ids + more == more;
    } else {
      KeptSplits(ids[1..], more, gone);
      assert (ids + more)[1..] == ids[1..] + more && (ids + more)[0] == ids[0];
      if ids[0] !in gone {
        assert [ids[0]] + (Kept(ids[1..], gone) + Kept(more, gone)) == ([ids[0]] + Kept(ids[1..], gone)) + Kept(more, gone);
      }
    }
  }

  lemma {:induction false} KeptTwice(ids: seq<Id>, gone: set<Id>, later: set<Id>)
    ensures Kept(Kept(ids, gone), later) == Kept(ids, gone + later)
  {
    if ids != [] {
      KeptTwice(ids[1..], gone, later);
      if ids[0] !in gone {
        var kept := [ids[0]] + Kept(ids[1..], gone);
        assert kept[1..] == Kept(ids[1..], gone) && kept[0] == ids[0];
        assert Kept(ids, gone) == kept;
      }
    }
  }

  lemma {:induction false} KeptAll(ids: seq<Id>)
    ensures Kept(ids, {}) == ids
  {
    if ids != [] {
      KeptAll(ids[1..]);
    }
  }

  lemma {:induction false} KeptNothing(ids: seq<Id>, gone: set<Id>)
    requires forall i | 0 <= i < |ids| :: ids[i] in gone
    ensures Kept(ids, gone) == []
  {
    if ids != [] {
      KeptNothing(ids[1..], gone);
    }
  }

  /** The queue after one event, as the events that follow will leave it. */
  lemma StepOfQueue(lanes: Lanes, e: Event, rest: seq<Event>, command: Command)
    ensures Kept(Queue(Next(lanes, e), command), DisarmedIn(rest))
            == Kept(Queue(lanes, command), (if e.Disarm? then {e.id} else {}) + DisarmedIn(rest))
               + Arrival(e, rest, command)
  {
    var queue, gone := Queue(lanes, command), DisarmedIn(rest);
    if e.Disarm? {
      QueueDisarmed(lanes, e.id, command);
      KeptTwice(queue, {e.id}, gone);
    } else {
      QueueArmed(lanes, e.id, e.command, command);
      assert {} + gone == gone;
      if e.command == command {
        KeptSplits(queue, [e.id], gone);
      }
    }
  }

  lemma Associates(a: seq<Id>, b: seq<Id>, c: seq<Id>)
    ensures (a + b) + c == a + (b + c)
  {}

  /** No armed call is lost and none overtakes another: after any events a lane
      holds the calls it held before and the calls armed for it since, in that
      order, less those disarmed after they came. */
  lemma {:induction false} LanesAreQueues(lanes: Lanes, events: seq<Event>, command: Command)
    ensures Queue(Run(lanes, events), command) == Kept(Queue(lanes, command), DisarmedIn(events)) + Arrivals(events, command)
    decreases |events|
  {
    if events == [] {
      KeptAll(Queue(lanes, command));
    } else {
      LanesAreQueues(Next(lanes, events[0]), events[1..], command);
      StepOfQueue(lanes, events[0], events[1..], command);
      Associates(Kept(Queue(lanes, command), DisarmedIn(events)), Arrival(events[0], events[1..], command), Arrivals(events[1..], command));
    }
  }

  /** Once every call ahead of it is disarmed, whatever else is armed or disarmed
      meanwhile, a waiting call holds its lane. */
  lemma EveryWaiterGetsItsTurn(lanes: Lanes, events: seq<Event>, command: Command, k: nat)
    requires k < |Queue(lanes, command)| && Queue(lanes, command)[k] !in DisarmedIn(events)
    requires forall i | 0 <= i < k :: Queue(lanes, command)[i] in DisarmedIn(events)
    ensures command in Run(lanes, events) && Run(lanes, events)[command].lockedBy == Queue(lanes, command)[k]
  {
    var queue, gone := Queue(lanes, command), DisarmedIn(events);
    LanesAreQueues(lanes, events, command);
    HeadOfKept(queue, gone, k);
    assert Queue(Run(lanes, events), command)[0] == queue[k];
  }

  lemma HeadOfKept(queue: seq<Id>, gone: set<Id>, k: nat)
    requires k < |queue| && queue[k] !in gone && forall i | 0 <= i < k :: queue[i] in gone
    ensures Kept(queue, gone) != [] && Kept(queue, gone)[0] == queue[k]
  {
    assert queue == queue[..k] + queue[k..];
    KeptSplits(queue[..k], queue[k..], gone);
    KeptNothing(queue[..k], gone);
    assert [] + Kept(queue[k..], gone) == Kept(queue[k..], gone);
  }

  lemma {:induction false} ArmedArrives(events: seq<Event>, i: nat)
    requires i < |events| && events[i].Arm? && events[i].id !in DisarmedIn(events[i + 1..])
    ensures events[i].id in Arrivals(events, events[i].command)
  {
    if i > 0 {
      assert events[1..][i..] == events[i + 1..];
      ArmedArrives(events[1..], i - 1);
    }
  }

  /** A call that was armed and never disarmed is still in its lane. */
  lemma ArmedIsKept(lanes: Lanes, events: seq<Event>, i: nat)
    requires i < |events| && events[i].Arm? && events[i].id !in DisarmedIn(events[i + 1..])
    ensures events[i].id in Queue(Run(lanes, events), events[i].command)
  {
    ArmedArrives(events, i);
    LanesAreQueues(lanes, events, events[i].command);
  }

  // ----------------------------------------------------------------- the class

  /** The lanes with `id` out of all but those in `left`. */
  function Swept(lanes: Lanes, left: set<Command>, id: Id): Lanes {
    map c | c in lanes && (c in left || Released(lanes[c], id).Some?) :: if c in left then lanes[c] else Released(lanes[c], id).value
  }

  /** The new holders of those lanes among `swept` that `id` held and left to a waiter. */
  function Woken(lanes: Lanes, swept: set<Command>, id: Id): map<Command, Id> {
    map c | c in lanes && c in swept && lanes[c].lockedBy == id && Released(lanes[c], id).Some? :: Released(lanes[c], id).value.lockedBy
  }

  /** A disarm wakes exactly the calls that hold a lane after it and did not before. */
  lemma WokenAreNewHolders(lanes: Lanes, id: Id, command: Command)
    ensures var woken, after := Woken(lanes, lanes.Keys, id), Disarmed(lanes, id);
            && (command in woken <==>
                  Queue(lanes, command) != [] && Queue(lanes, command)[0] == id && Queue(after, command) != [])
            && (command in woken ==> woken[command] == Queue(after, command)[0])
  {
    if command in lanes && Kept(lanes[command].waiters, {id}) != [] {
      QueueDisarmed(lanes, id, command);
    }
  }

  lemma SweepsOne(lanes: Lanes, left: set<Command>, command: Command, id: Id)
    requires command in left && left <= lanes.Keys
    ensures command in Swept(lanes, left, id) && Swept(lanes, left, id)[command] == lanes[command]
    ensures var swept, one := Swept(lanes, left, id), Released(lanes[command], id);
            Swept(lanes, left - {command}, id) == if one.Some? then swept[command := one.value] else swept - {command}
    ensures var woken, one := Woken(lanes, lanes.Keys - left, id), Released(lanes[command], id);
            Woken(lanes, lanes.Keys - (left - {command}), id)
            == if lanes[command].lockedBy == id && one.Some? then woken[command := one.value.lockedBy] else woken
  {}

  class CreateGate {
    var lanes: Lanes

    constructor ()
      ensures lanes == map[]
    {
      lanes := map[];
    }

    /** Whether the call holds its lane at once; otherwise it waits to be woken. */
    method ArmCreate(id: Id, command: Command) returns (holds: bool)
      modifies this
      ensures lanes == Armed(old(lanes), id, command)
      ensures holds <==> Queue(old(lanes), command) == []
    {
      holds := command !in lanes;
      if holds {
        lanes := lanes[command := Lane(id, [])];
      } else {
        var lane := lanes[command];
        lanes := lanes[command := Lane(lane.lockedBy, lane.waiters + [id])];
      }
    }

    /** Every lane in turn: the call leaves its waiters and, if it was the holder,
        the oldest remaining waiter is woken as the next one. */
    method DisarmCreate(id: Id) returns (woken: map<Command, Id>)
      modifies this
      ensures lanes == Disarmed(old(lanes), id)
      ensures woken == Woken(old(lanes), old(lanes).Keys, id)
    {
      var left := lanes.Keys;
      woken := map[];
      while left != {}
        invariant left <= old(lanes).Keys
        invariant lanes == Swept(old(lanes), left, id)
        invariant woken == Woken(old(lanes), old(lanes).Keys - left, id)
        decreases |left|
      {
        var command :| command in left;
        SweepsOne(old(lanes), left, command, id);
        var lane := lanes[command];
        var waiters := Kept(lane.waiters, {id});
        if lane.lockedBy != id {
          lanes := lanes[command := Lane(lane.lockedBy, waiters)];
        } else if waiters == [] {
          lanes := lanes - {command};
        } else {
          lanes := lanes[command := Lane(waiters[0], waiters[1..])];
          woken := woken[command := waiters[0]];
        }
        left := left - {command};
      }
      assert old(lanes).Keys - {} == old(lanes).Keys;
    }
  }
}
