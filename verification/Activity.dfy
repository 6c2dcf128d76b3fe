/** Host activity and the leases it renews: the session activity tracker
    (src/activity.ts) and the lease of a pending exec (`refreshHardDeadline`
    in src/session.ts).

    Which old entries the tracker's pruning picks does not matter to a lease:
    a run may forget any entry at any time. */
module Activity {

  type Id = string

  datatype Option<T> = None | Some(value: T)

  datatype ToolKey = ToolKey(session: Id, call: Id)

  datatype PromptKey = PromptKey(session: Id, request: Id)

  /** `tools` maps a running host tool to its start; `prompts` an open prompt to its opening. */
  datatype Tracker = Tracker(
    parent: map<Id, Id>,
    activity: map<Id, int>,
    prompts: map<PromptKey, int>,
    tools: map<ToolKey, int>)

  const MAX_ANCESTRY_DEPTH: nat := 64
  const RUNNING_TOOL_CAP_MS: int := 4 * 60 * 60 * 1000

  // ------------------------------------------------------------------ ancestry

  /** The session `n` parent links above `s`, if the links go that far. */
  function Above(parent: map<Id, Id>, s: Id, n: nat): Option<Id>
    decreases n
  {
    if n == 0 then Some(s)
    else if s in parent then Above(parent, parent[s], n - 1)
    else None
  }

  /** `session` is `s` or one of the first ancestors of `s`. */
  predicate BelongsTo(parent: map<Id, Id>, s: Id, session: Id, depth: nat)
    decreases depth, s
  {
    depth > 0 && (s == session || (s in parent && BelongsTo(parent, parent[s], session, depth - 1)))
  }

  lemma {:induction false} BelongsToGoesUp(parent: map<Id, Id>, s: Id, session: Id, depth: nat) returns (n: nat)
    requires BelongsTo(parent, s, session, depth)
    ensures n < depth && Above(parent, s, n) == Some(session)
    decreases depth
  {
    if s == session { return 0; }
    var up := BelongsToGoesUp(parent, parent[s], session, depth - 1);
    return up + 1;
  }

  lemma {:induction false} AboveBelongs(parent: map<Id, Id>, s: Id, session: Id, depth: nat, n: nat)
    requires n < depth && Above(parent, s, n) == Some(session)
    ensures BelongsTo(parent, s, session, depth)
    decreases depth
  {
    if s != session {
      AboveBelongs(parent, parent[s], session, depth - 1, n - 1);
    }
  }

  /** The walk of at most `depth` steps finds exactly the ancestors fewer than
      `depth` links away. */
  lemma BelongsToIsAbove(parent: map<Id, Id>, s: Id, session: Id, depth: nat)
    ensures BelongsTo(parent, s, session, depth) <==> exists n: nat :: n < depth && Above(parent, s, n) == Some(session)
  {
    if BelongsTo(parent, s, session, depth) {
      var n := BelongsToGoesUp(parent, s, session, depth);
    }
    forall n: nat | n < depth && Above(parent, s, n) == Some(session)
      ensures BelongsTo(parent, s, session, depth)
    {
      AboveBelongs(parent, s, session, depth, n);
    }
  }

  /** The sessions `recordActivity` renews: it walks up until a link is missing,
      a session repeats, or the depth is used up. */
  function Renewed(parent: map<Id, Id>, s: Id, depth: nat, visited: set<Id>): set<Id>
    decreases depth, s
  {
    if depth == 0 || s in visited then {}
    else {s} + if s in parent then Renewed(parent, parent[s], depth - 1, visited + {s}) else {}
  }

  /** From a set closed under parent links, no walk leaves. */
  lemma {:induction false} ClosedContains(parent: map<Id, Id>, s: Id, session: Id, depth: nat, closed: set<Id>)
    requires s in closed && forall x | x in closed && x in parent :: parent[x] in closed
    requires BelongsTo(parent, s, session, depth)
    ensures session in closed
    decreases depth
  {
    if s != session {
      ClosedContains(parent, parent[s], session, depth - 1, closed);
    }
  }

  lemma {:induction false} RenewedSound(parent: map<Id, Id>, s: Id, session: Id, depth: nat, visited: set<Id>)
    requires session in Renewed(parent, s, depth, visited)
    ensures BelongsTo(parent, s, session, depth)
    decreases depth
  {
    if s != session {
      RenewedSound(parent, parent[s], session, depth - 1, visited + {s});
    }
  }

  lemma {:induction false} RenewedComplete(parent: map<Id, Id>, s: Id, session: Id, depth: nat, visited: set<Id>)
    requires BelongsTo(parent, s, session, depth)
    requires forall x | x in visited :: x in parent && (parent[x] in visited || parent[x] == s)
    ensures session in Renewed(parent, s, depth, visited) || session in visited
    decreases depth
  {
    if s in visited {
      ClosedContains(parent, s, session, depth, visited);
    } else if s != session {
      RenewedComplete(parent, parent[s], session, depth - 1, visited + {s});
    }
  }

  /** Activity in `s` renews exactly the sessions whose leases a tool running
      in `s` holds, also when the parent links form a cycle. */
  lemma RenewedIsBelongsTo(parent: map<Id, Id>, s: Id, session: Id)
    ensures session in Renewed(parent, s, MAX_ANCESTRY_DEPTH, {}) <==> BelongsTo(parent, s, session, MAX_ANCESTRY_DEPTH)
  {
    if session in Renewed(parent, s, MAX_ANCESTRY_DEPTH, {}) {
      RenewedSound(parent, s, session, MAX_ANCESTRY_DEPTH, {});
    }
    if BelongsTo(parent, s, session, MAX_ANCESTRY_DEPTH) {
      RenewedComplete(parent, s, session, MAX_ANCESTRY_DEPTH, {});
    }
  }

  // --------------------------------------------------------------- the tracker

  function Later(activity: map<Id, int>, s: Id, at: int): int {
    if s in activity && activity[s] > at then activity[s] else at
  }

  function Stamp(activity: map<Id, int>, sessions: set<Id>, at: int): map<Id, int> {
    map x | x in activity.Keys + sessions :: if x in sessions then Later(activity, x, at) else activity[x]
  }

  function Record(t: Tracker, s: Id, at: int): Tracker {
    t.(activity := Stamp(t.activity, Renewed(t.parent, s, MAX_ANCESTRY_DEPTH, {}), at))
  }

  lemma StampOne(activity: map<Id, int>, sessions: set<Id>, at: int, s: Id)
    requires s !in sessions
    ensures var m := Stamp(activity, sessions, at);
            Stamp(activity, sessions + {s}, at) == if s !in m || at > m[s] then m[s := at] else m
  {
    var m := Stamp(activity, sessions, at);
    var one := if s !in m || at > m[s] then m[s := at] else m;
    var all := Stamp(activity, sessions + {s}, at);
    assert all.Keys == one.Keys;
    forall x | x in all
      ensures all[x] == one[x]
    {}
  }

  /** A repeated start keeps the tool's own start; it is activity all the same. */
  function ToolStarted(t: Tracker, key: ToolKey, at: int): Tracker {
    Record(if key in t.tools then t else t.(tools := t.tools[key := at]), key.session, at)
  }

  function ToolEnded(t: Tracker, key: ToolKey, at: int): Tracker {
    Record(t.(tools := t.tools - {key}), key.session, at)
  }

  function EndTools(t: Tracker, s: Id, at: int): Tracker {
    if exists k | k in t.tools :: k.session == s
    then Record(t.(tools := map k | k in t.tools && k.session != s :: t.tools[k]), s, at) else t
  }

  function OpenPrompt(t: Tracker, key: PromptKey, at: int): Tracker {
    Record(t.(prompts := t.prompts[key := at]), key.session, at)
  }

  function ClosePrompt(t: Tracker, key: PromptKey, at: int): Tracker {
    Record(t.(prompts := t.prompts - {key}), key.session, at)
  }

  predicate AwaitsUser(t: Tracker, s: Id) {
    exists k | k in t.prompts :: BelongsTo(t.parent, k.session, s, MAX_ANCESTRY_DEPTH)
  }

  /** An open prompt counts as activity now: it waits for the user. */
  function LastActivityAt(t: Tracker, s: Id, now: int): Option<int> {
    if AwaitsUser(t, s) then Some(now) else if s in t.activity then Some(t.activity[s]) else None
  }

  predicate HoldsLease(t: Tracker, key: ToolKey, s: Id, now: int) {
    key in t.tools && BelongsTo(t.parent, key.session, s, MAX_ANCESTRY_DEPTH) && now < t.tools[key] + RUNNING_TOOL_CAP_MS
  }

  /** `deadline` is the latest ceiling of a tool that still holds the lease of `s`. */
  ghost predicate IsToolDeadline(t: Tracker, s: Id, now: int, deadline: Option<int>) {
    match deadline
    case None => forall k | k in t.tools :: !HoldsLease(t, k, s, now)
    case Some(d) =>
      && (exists k :: HoldsLease(t, k, s, now) && d == t.tools[k] + RUNNING_TOOL_CAP_MS)
      && (forall k | HoldsLease(t, k, s, now) :: t.tools[k] + RUNNING_TOOL_CAP_MS <= d)
  }

  class SessionActivityTracker {
    var parent: map<Id, Id>
    var activity: map<Id, int>
    var prompts: map<PromptKey, int>
    var tools: map<ToolKey, int>

    function Model(): Tracker
      reads this
    {
      Tracker(parent, activity, prompts, tools)
    }

    constructor ()
      ensures Model() == Tracker(map[], map[], map[], map[])
    {
      parent, activity, prompts, tools := map[], map[], map[], map[];
    }

    method RecordActivity(s: Id, at: int)
      modifies this`activity
      ensures Model() == Record(old(Model()), s, at)
    {
      ghost var all := Renewed(parent, s, MAX_ANCESTRY_DEPTH, {});
      ghost var before := activity;
      var visited: set<Id> := {};
      var current := s;
      var depth := 0;
      assert Stamp(before, {}, at) == before;
      while depth < MAX_ANCESTRY_DEPTH
        invariant depth <= MAX_ANCESTRY_DEPTH
        invariant visited + Renewed(parent, current, MAX_ANCESTRY_DEPTH - depth, visited) == all
        invariant activity == Stamp(before, visited, at)
      {
        if current in visited { break; }
        StampOne(before, visited, at, current);
        if current !in activity || at > activity[current] {
          activity := activity[current := at];
        }
        visited := visited + {current};
        depth := depth + 1;
        if current !in parent { break; }
        current := parent[current];
      }
      assert visited == all;
    }

    method StartTool(key: ToolKey, at: int)
      modifies this
      ensures Model() == ToolStarted(old(Model()), key, at)
    {
      if key !in tools {
        tools := tools[key := at];
      }
      RecordActivity(key.session, at);
    }

    method EndTool(key: ToolKey, at: int)
      modifies this
      ensures Model() == ToolEnded(old(Model()), key, at)
    {
      tools := tools - {key};
      RecordActivity(key.session, at);
    }

    /** The scan over the running tools. */
    method RunningToolDeadline(s: Id, now: int) returns (deadline: Option<int>)
      ensures IsToolDeadline(Model(), s, now, deadline)
    {
      deadline := None;
      var rest := tools.Keys;
      while rest != {}
        invariant rest <= tools.Keys
        invariant deadline.Some? ==> exists k :: HoldsLease(Model(), k, s, now) && deadline.value == tools[k] + RUNNING_TOOL_CAP_MS
        invariant forall k | k in tools && k !in rest && HoldsLease(Model(), k, s, now) ::
                    deadline.Some? && tools[k] + RUNNING_TOOL_CAP_MS <= deadline.value
      {
        var k :| k in rest;
        rest := rest - {k};
        if BelongsTo(parent, k.session, s, MAX_ANCESTRY_DEPTH) {
          var cap := tools[k] + RUNNING_TOOL_CAP_MS;
          if now < cap {
            assert HoldsLease(Model(), k, s, now);
            if deadline.None? || cap > deadline.value {
              deadline := Some(cap);
            }
          }
        }
      }
    }
  }

  // ----------------------------------------------------------------- the lease

  /** A pending exec's lease under an inactivity cap. */
  datatype Lease = Lease(registeredAt: int, deadline: int)

  function Max(a: int, b: int): int {
    if a >= b then a else b
  }

  function Min(a: int, b: int): int {
    if a <= b then a else b
  }

  function NewLease(now: int, cap: int): Lease {
    Lease(now, now + cap)
  }

  /** One refresh: activity after the registration renews from its own time, a
      running tool from now, never past that tool's own ceiling. */
  function RefreshLease(lease: Lease, cap: int, now: int, activityAt: Option<int>, toolCapAt: Option<int>): Lease {
    var byActivity :=
      if activityAt.Some? && activityAt.value > lease.registeredAt && activityAt.value + cap > lease.deadline
      then lease.(deadline := activityAt.value + cap) else lease;
    if toolCapAt.Some? && Min(now + cap, toolCapAt.value) > byActivity.deadline
    then byActivity.(deadline := Min(now + cap, toolCapAt.value)) else byActivity
  }

  /** The tracker, one lease of session `s` under `cap`, and two facts about the
      run so far: the last activity that counted for `s` (its own or a
      descendant's, or the time of a refresh that found a prompt open) and the
      latest start of a tool that held the lease at a refresh. */
  datatype Watch = Watch(tracker: Tracker, s: Id, cap: int, lease: Lease, lastActivity: Option<int>, lastStart: Option<int>)

  datatype Event =
    | Linked(session: Id, parent: Option<Id>)
    | Acted(session: Id, at: int)
    | Started(tool: ToolKey, at: int)
    | Ended(tool: ToolKey, at: int)
    | Idle(session: Id, at: int)
    | Asked(prompt: PromptKey, at: int)
    | Answered(prompt: PromptKey, at: int)
    | ForgotActivity(session: Id)
    | ForgotParent(session: Id)
    | ForgotTool(tool: ToolKey)
    | ForgotPrompt(prompt: PromptKey)
    | Refreshed(now: int, toolCapAt: Option<int>)

  /** A refresh reads the tool ceiling the tracker reports at that time. */
  ghost predicate Enabled(w: Watch, e: Event) {
    e.Refreshed? ==> IsToolDeadline(w.tracker, w.s, e.now, e.toolCapAt)
  }

  function Latest(time: Option<int>, at: int): Option<int> {
    Some(if time.Some? then Max(time.value, at) else at)
  }

  /** Activity at `at` in `session`, over the links that `t` has then. */
  function Noted(w: Watch, t: Tracker, session: Id, at: int): Option<int> {
    if BelongsTo(t.parent, session, w.s, MAX_ANCESTRY_DEPTH) then Latest(w.lastActivity, at) else w.lastActivity
  }

  function Relinked(t: Tracker, s: Id, parent: Option<Id>): Tracker {
    t.(parent := if parent.Some? && parent.value != s then t.parent[s := parent.value] else t.parent - {s})
  }

  function Next(w: Watch, e: Event): Watch {
    var t := w.tracker;
    match e
    case Linked(s, parent) =>
      var t1 := Relinked(t, s, parent);
      if s in t1.activity
      then w.(tracker := Record(t1, s, t1.activity[s]), lastActivity := Noted(w, t1, s, t1.activity[s]))
      else w.(tracker := t1)
    case Acted(s, at) => w.(tracker := Record(t, s, at), lastActivity := Noted(w, t, s, at))
    case Started(key, at) => w.(tracker := ToolStarted(t, key, at), lastActivity := Noted(w, t, key.session, at))
    case Ended(key, at) => w.(tracker := ToolEnded(t, key, at), lastActivity := Noted(w, t, key.session, at))
    case Idle(s, at) =>
      if exists k | k in t.tools :: k.session == s
      then w.(tracker := EndTools(t, s, at), lastActivity := Noted(w, t, s, at)) else w
    case Asked(key, at) => w.(tracker := OpenPrompt(t, key, at), lastActivity := Noted(w, t, key.session, at))
    case Answered(key, at) => w.(tracker := ClosePrompt(t, key, at), lastActivity := Noted(w, t, key.session, at))
    case ForgotActivity(s) => w.(tracker := t.(activity := t.activity - {s}))
    case ForgotParent(s) => w.(tracker := t.(parent := t.parent - {s}))
    case ForgotTool(key) => w.(tracker := t.(tools := t.tools - {key}))
    case ForgotPrompt(key) => w.(tracker := t.(prompts := t.prompts - {key}))
    case Refreshed(now, toolCapAt) =>
      w.(lease := RefreshLease(w.lease, w.cap, now, LastActivityAt(t, w.s, now), toolCapAt),
         lastActivity := if AwaitsUser(t, w.s) then Latest(w.lastActivity, now) else w.lastActivity,
         lastStart := if toolCapAt.Some? then Latest(w.lastStart, toolCapAt.value - RUNNING_TOOL_CAP_MS) else w.lastStart)
  }

  /** The ceiling a lease can never pass. */
  function Ceiling(w: Watch): int {
    var byActivity := (if w.lastActivity.Some? then Max(w.lease.registeredAt, w.lastActivity.value) else w.lease.registeredAt) + w.cap;
    if w.lastStart.Some? then Max(byActivity, w.lastStart.value + RUNNING_TOOL_CAP_MS) else byActivity
  }

  ghost predicate ActivityNoted(w: Watch) {
    w.s in w.tracker.activity ==> w.lastActivity.Some? && w.tracker.activity[w.s] <= w.lastActivity.value
  }

  ghost predicate WatchInv(w: Watch) {
    && ActivityNoted(w)
    && w.lease.registeredAt + w.cap <= w.lease.deadline <= Ceiling(w)
  }

  /** The tracker's activity entry for the watched session moves only with
      activity that counts for it. */
  lemma RecordNoted(w: Watch, t: Tracker, session: Id, at: int)
    requires ActivityNoted(w) && t.activity == w.tracker.activity
    ensures ActivityNoted(w.(tracker := Record(t, session, at), lastActivity := Noted(w, t, session, at)))
  {
    RenewedIsBelongsTo(t.parent, session, w.s);
  }

  lemma RefreshBounded(w: Watch, now: int, toolCapAt: Option<int>)
    requires WatchInv(w) && Enabled(w, Refreshed(now, toolCapAt))
    ensures WatchInv(Next(w, Refreshed(now, toolCapAt)))
    ensures w.lease.deadline <= Next(w, Refreshed(now, toolCapAt)).lease.deadline
  {}

  lemma NextKeepsInv(w: Watch, e: Event)
    requires WatchInv(w) && Enabled(w, e)
    ensures WatchInv(Next(w, e))
    ensures w.lease.deadline <= Next(w, e).lease.deadline && Next(w, e).lease.registeredAt == w.lease.registeredAt
    ensures Next(w, e).cap == w.cap && Next(w, e).s == w.s
  {
    var t := w.tracker;
    match e
    case Linked(s, parent) =>
      var t1 := Relinked(t, s, parent);
      if s in t1.activity { RecordNoted(w, t1, s, t1.activity[s]); }
    case Acted(s, at) => RecordNoted(w, t, s, at);
    case Started(key, at) => RecordNoted(w, if key in t.tools then t else t.(tools := t.tools[key := at]), key.session, at);
    case Ended(key, at) => RecordNoted(w, t.(tools := t.tools - {key}), key.session, at);
    case Idle(s, at) => RecordNoted(w, t.(tools := map k | k in t.tools && k.session != s :: t.tools[k]), s, at);
    case Asked(key, at) => RecordNoted(w, t.(prompts := t.prompts[key := at]), key.session, at);
    case Answered(key, at) => RecordNoted(w, t.(prompts := t.prompts - {key}), key.session, at);
    case Refreshed(now, toolCapAt) => RefreshBounded(w, now, toolCapAt);
    case _ =>
  }

  function Run(w: Watch, events: seq<Event>): Watch
    decreases |events|
  {
    if events == [] then w else Run(Next(w, events[0]), events[1..])
  }

  ghost predicate Allowed(w: Watch, events: seq<Event>)
    decreases |events|
  {
    events != [] ==> Enabled(w, events[0]) && Allowed(Next(w, events[0]), events[1..])
  }

  /** Over any run a lease never shrinks and never passes the greatest of
      registration + cap, the session's last activity + cap, and the latest
      start of a tool that held the lease + 4 h. */
  lemma {:induction false} LeaseBounds(w: Watch, events: seq<Event>)
    requires WatchInv(w) && Allowed(w, events)
    ensures var r := Run(w, events);
            w.lease.deadline <= r.lease.deadline <= Ceiling(r)
            && r.lease.registeredAt == w.lease.registeredAt && r.cap == w.cap
    decreases |events|
  {
    if events != [] {
      NextKeepsInv(w, events[0]);
      LeaseBounds(Next(w, events[0]), events[1..]);
    }
  }

  /** A registration takes its lease over whatever the tracker holds by then. */
  function Registered(tracker: Tracker, s: Id, cap: int, now: int): Watch {
    Watch(tracker, s, cap, NewLease(now, cap), if s in tracker.activity then Some(tracker.activity[s]) else None, None)
  }

  /** So from its registration on, whatever the tracker held, a lease lasts its
      cap at least and stays below the ceiling. */
  lemma LeaseFromRegistration(tracker: Tracker, s: Id, cap: int, now: int, events: seq<Event>)
    requires Allowed(Registered(tracker, s, cap, now), events)
    ensures var r := Run(Registered(tracker, s, cap, now), events);
            now + cap <= r.lease.deadline <= Ceiling(r)
            && r.lease.registeredAt == now && r.cap == cap
  {
    LeaseBounds(Registered(tracker, s, cap, now), events);
  }

  /** A refresh gives at least what activity and a running tool are due. */
  lemma RefreshGrants(w: Watch, now: int, toolCapAt: Option<int>)
    ensures var r := Next(w, Refreshed(now, toolCapAt)).lease.deadline;
            var a := LastActivityAt(w.tracker, w.s, now);
            && (a.Some? && a.value > w.lease.registeredAt ==> a.value + w.cap <= r)
            && (toolCapAt.Some? ==> Min(now + w.cap, toolCapAt.value) <= r)
            && (r == w.lease.deadline || (a.Some? && r == a.value + w.cap)
                || (toolCapAt.Some? && r == Min(now + w.cap, toolCapAt.value)))
  {}

  /** Until it ends or is forgotten, a tool's ceiling stays where its first
      start put it, however often the start is repeated. */
  lemma {:induction false} StartsDoNotMoveCeiling(w: Watch, events: seq<Event>, key: ToolKey)
    requires key in w.tracker.tools
    requires forall e | e in events :: e != ForgotTool(key) && !(e.Ended? && e.tool == key) && !(e.Idle? && e.session == key.session)
    ensures key in Run(w, events).tracker.tools && Run(w, events).tracker.tools[key] == w.tracker.tools[key]
    decreases |events|
  {
    if events != [] {
      assert events[0] in events;
      StartsDoNotMoveCeiling(Next(w, events[0]), events[1..], key);
    }
  }
}
