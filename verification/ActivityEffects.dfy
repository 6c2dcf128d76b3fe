/** What each event does to the activity tracker (src/activity.ts), spelled out
    over sessions and their descendants, and what holds and renews a lease. */
module ActivityEffects {

  import opened Activity

  /** `x` is `s`, or a subagent session fewer than 64 links below it. */
  ghost predicate Under(parent: map<Id, Id>, x: Id, s: Id) {
    exists n: nat :: n < 64 && Above(parent, x, n) == Some(s)
  }

  lemma UnderIs(parent: map<Id, Id>, x: Id, s: Id)
    ensures Under(parent, x, s) <==> BelongsTo(parent, x, s, MAX_ANCESTRY_DEPTH)
  {
    if BelongsTo(parent, x, s, MAX_ANCESTRY_DEPTH) {
      var n := BelongsToGoesUp(parent, x, s, MAX_ANCESTRY_DEPTH);
      assert n < 64;
    }
    if Under(parent, x, s) {
      var n: nat :| n < 64 && Above(parent, x, n) == Some(s);
      AboveBelongs(parent, x, s, MAX_ANCESTRY_DEPTH, n);
    }
  }

  /** Activity in `x` at `at` counts for `x` and the sessions above it, never back in time. */
  ghost predicate Active(t: Tracker, n: Tracker, x: Id, at: int) {
    && n.parent == t.parent
    && (forall s | Under(t.parent, x, s) ::
          s in n.activity && n.activity[s] == if s in t.activity && t.activity[s] > at then t.activity[s] else at)
    && (forall s | !Under(t.parent, x, s) ::
          (s in n.activity <==> s in t.activity) && (s in t.activity ==> n.activity[s] == t.activity[s]))
  }

  lemma RecordActive(t: Tracker, x: Id, at: int)
    ensures Active(t, Record(t, x, at), x, at)
    ensures Record(t, x, at).prompts == t.prompts && Record(t, x, at).tools == t.tools
  {
    forall s ensures s in Renewed(t.parent, x, MAX_ANCESTRY_DEPTH, {}) <==> Under(t.parent, x, s) {
      RenewedIsBelongsTo(t.parent, x, s);
      UnderIs(t.parent, x, s);
    }
  }

  /** A tool keeps its first start, and a start is activity. */
  lemma StartEffect(w: Watch, key: ToolKey, at: int)
    ensures var t, n := w.tracker, Next(w, Started(key, at)).tracker;
            && Active(t, n, key.session, at) && n.prompts == t.prompts
            && n.tools == t.tools[key := if key in t.tools then t.tools[key] else at]
  {
    var t := w.tracker;
    var t1 := if key in t.tools then t else t.(tools := t.tools[key := at]);
    RecordActive(t1, key.session, at);
    if key in t.tools {
      assert t.tools[key := t.tools[key]] == t.tools;
    }
  }

  /** A tool that ends is gone, and its end is activity. */
  lemma EndEffect(w: Watch, key: ToolKey, at: int)
    ensures var t, n := w.tracker, Next(w, Ended(key, at)).tracker;
            Active(t, n, key.session, at) && n.prompts == t.prompts && n.tools == t.tools - {key}
  {
    RecordActive(w.tracker.(tools := w.tracker.tools - {key}), key.session, at);
  }

  /** A session that goes idle ends all its own tools; that is activity if there were any. */
  lemma IdleEffect(w: Watch, s: Id, at: int)
    ensures var t, n := w.tracker, Next(w, Idle(s, at)).tracker;
            && n.prompts == t.prompts
            && (forall k :: k in n.tools <==> k in t.tools && k.session != s)
            && (forall k | k in n.tools :: n.tools[k] == t.tools[k])
            && (if exists k | k in t.tools :: k.session == s then Active(t, n, s, at) else n.activity == t.activity && n.parent == t.parent)
  {
    var t := w.tracker;
    RecordActive(t.(tools := map k | k in t.tools && k.session != s :: t.tools[k]), s, at);
  }

  /** A prompt is open from its opening to its answer; both are activity. */
  lemma PromptEffect(w: Watch, key: PromptKey, at: int)
    ensures var t, n := w.tracker, Next(w, Asked(key, at)).tracker;
            Active(t, n, key.session, at) && n.tools == t.tools && n.prompts == t.prompts[key := at]
    ensures var t, n := w.tracker, Next(w, Answered(key, at)).tracker;
            Active(t, n, key.session, at) && n.tools == t.tools && n.prompts == t.prompts - {key}
  {
    RecordActive(w.tracker.(prompts := w.tracker.prompts[key := at]), key.session, at);
    RecordActive(w.tracker.(prompts := w.tracker.prompts - {key}), key.session, at);
  }

  lemma ActedEffect(w: Watch, s: Id, at: int)
    ensures var t, n := w.tracker, Next(w, Acted(s, at)).tracker;
            Active(t, n, s, at) && n.tools == t.tools && n.prompts == t.prompts
  {
    RecordActive(w.tracker, s, at);
  }

  /** A link is set, or removed when there is no other parent; what activity the
      session already had then counts for the sessions now above it. */
  lemma LinkEffect(w: Watch, s: Id, parent: Option<Id>)
    ensures var t, n := w.tracker, Next(w, Linked(s, parent)).tracker;
            var linked := if parent.Some? && parent.value != s then t.parent[s := parent.value] else t.parent - {s};
            && n.parent == linked && n.tools == t.tools && n.prompts == t.prompts
            && (if s in t.activity then Active(t.(parent := linked), n, s, t.activity[s]) else n.activity == t.activity)
  {
    var t := w.tracker;
    var linked := if parent.Some? && parent.value != s then t.parent[s := parent.value] else t.parent - {s};
    if s in t.activity {
      RecordActive(t.(parent := linked), s, t.activity[s]);
    }
  }

  // ------------------------------------------------------------ what counts, when

  /** An open prompt of the session or of a descendant is activity now, because the
      host waits for the user; without one the last recorded activity counts. */
  lemma LastActivityEffect(t: Tracker, s: Id, now: int)
    ensures var waits := exists k | k in t.prompts :: Under(t.parent, k.session, s);
            LastActivityAt(t, s, now) == if waits then Some(now) else if s in t.activity then Some(t.activity[s]) else None
  {
    forall k: PromptKey ensures Under(t.parent, k.session, s) <==> BelongsTo(t.parent, k.session, s, MAX_ANCESTRY_DEPTH) {
      UnderIs(t.parent, k.session, s);
    }
  }

  /** A tool holds the lease of its session and of those above it for four hours
      from its start. */
  ghost predicate Holding(t: Tracker, key: ToolKey, s: Id, now: int) {
    key in t.tools && Under(t.parent, key.session, s) && now < t.tools[key] + 14400000
  }

  lemma HoldingIs(t: Tracker, key: ToolKey, s: Id, now: int)
    ensures HoldsLease(t, key, s, now) <==> Holding(t, key, s, now)
  {
    UnderIs(t.parent, key.session, s);
  }

  /** The deadline reported is the latest end of such a hold, or none without one. */
  lemma ToolDeadlineIff(t: Tracker, s: Id, now: int, deadline: Option<int>)
    ensures IsToolDeadline(t, s, now, deadline) <==>
              match deadline
              case None => forall k | k in t.tools :: !Holding(t, k, s, now)
              case Some(d) =>
                && (exists k :: Holding(t, k, s, now) && d == t.tools[k] + 14400000)
                && (forall k | Holding(t, k, s, now) :: t.tools[k] + 14400000 <= d)
  {
    forall k ensures HoldsLease(t, k, s, now) <==> Holding(t, k, s, now) {
      HoldingIs(t, k, s, now);
    }
    if deadline.Some? {
      if k :| HoldsLease(t, k, s, now) && deadline.value == t.tools[k] + RUNNING_TOOL_CAP_MS {
        assert Holding(t, k, s, now);
      }
      if k :| Holding(t, k, s, now) && deadline.value == t.tools[k] + 14400000 {
        assert HoldsLease(t, k, s, now);
      }
    }
  }

  /** A tool that has ended holds no lease until it is started again. */
  lemma {:induction false} EndedHoldsNothing(w: Watch, events: seq<Event>, key: ToolKey)
    requires key !in w.tracker.tools
    requires forall e | e in events :: !(e.Started? && e.tool == key)
    ensures forall s, now :: !Holding(Run(w, events).tracker, key, s, now)
    decreases |events|
  {
    if events != [] {
      assert events[0] in events;
      EndedHoldsNothing(Next(w, events[0]), events[1..], key);
    }
  }

  // --------------------------------------------------------------------- renewal

  /** A refresh while a prompt of the session or of a descendant is open renews the
      lease from now. */
  lemma PromptRenews(w: Watch, now: int, toolCapAt: Option<int>, key: PromptKey)
    requires key in w.tracker.prompts && Under(w.tracker.parent, key.session, w.s) && now > w.lease.registeredAt
    ensures Next(w, Refreshed(now, toolCapAt)).lease.deadline >= now + w.cap
  {
    LastActivityEffect(w.tracker, w.s, now);
    RefreshGrants(w, now, toolCapAt);
  }

  /** So does a running tool of the session or of a descendant, as far as its own
      four hours reach. */
  lemma ToolRenews(w: Watch, now: int, toolCapAt: Option<int>, key: ToolKey)
    requires Enabled(w, Refreshed(now, toolCapAt)) && Holding(w.tracker, key, w.s, now)
    ensures var end := w.tracker.tools[key] + 14400000;
            Next(w, Refreshed(now, toolCapAt)).lease.deadline >= if end < now + w.cap then end else now + w.cap
  {
    HoldingIs(w.tracker, key, w.s, now);
    RefreshGrants(w, now, toolCapAt);
  }

  /** And activity after the registration, from its own time. */
  lemma ActivityRenews(w: Watch, now: int, toolCapAt: Option<int>)
    requires w.s in w.tracker.activity && w.lease.registeredAt < w.tracker.activity[w.s] <= now
    ensures Next(w, Refreshed(now, toolCapAt)).lease.deadline >= w.tracker.activity[w.s] + w.cap
  {
    LastActivityEffect(w.tracker, w.s, now);
    RefreshGrants(w, now, toolCapAt);
  }

  /** Nothing else moves a lease: with no open prompt, no activity since the
      registration and no running tool that holds it, a refresh leaves it alone. */
  lemma NothingRenews(w: Watch, now: int, toolCapAt: Option<int>)
    requires Enabled(w, Refreshed(now, toolCapAt))
    requires forall k | k in w.tracker.prompts :: !Under(w.tracker.parent, k.session, w.s)
    requires w.s in w.tracker.activity ==> w.tracker.activity[w.s] <= w.lease.registeredAt
    requires forall k | k in w.tracker.tools :: !Holding(w.tracker, k, w.s, now)
    ensures Next(w, Refreshed(now, toolCapAt)).lease == w.lease
  {
    LastActivityEffect(w.tracker, w.s, now);
    ToolDeadlineIff(w.tracker, w.s, now, toolCapAt);
  }

  /** No other event touches a lease. */
  lemma OnlyRefreshMoves(w: Watch, e: Event)
    requires !e.Refreshed?
    ensures Next(w, e).lease == w.lease
  {}
}
