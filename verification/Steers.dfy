/** Early steers (src/host-steer.ts): messages injected into a running Cursor
    Run before the host places its own copy of them, their life over Runs,
    hand-overs, checkpoints and restarts, and the match of host copies to them. */
module Steers {

  type Id = string

  datatype Option<T> = None | Some(value: T)

  datatype Steer = Steer(
    session: Id,
    inbox: Id,
    injection: Id,
    run: Id,
    text: string,
    delivered: bool,
    checkpointed: bool,
    answered: bool,
    promoted: Option<bool>,
    hostTurn: Option<string>)

  /** The records of each host session; a session without records has no entry. */
  type Table = map<Id, seq<Steer>>

  const MAX_RECORDS_PER_SESSION: nat := 32
  const MAX_REMEMBERED: nat := 256

  predicate Promoted(r: Steer) {
    r.promoted == Some(true)
  }

  function RecordsOf(t: Table, s: Id): seq<Steer> {
    if s in t then t[s] else []
  }

  function Keep(t: Table, s: Id, records: seq<Steer>): Table {
    if records == [] then t - {s} else t[s := records]
  }

  // ---------------------------------------------------------------- operations

  function Recorded(t: Table, r: Steer): (Table, bool) {
    if (if r.session in t then |t[r.session]| >= MAX_RECORDS_PER_SESSION else |t| >= MAX_REMEMBERED) then (t, false)
    else (t[r.session := RecordsOf(t, r.session) + [r]], true)
  }

  function FirstOf(records: seq<Steer>, injection: Id): (i: nat)
    ensures i <= |records|
    ensures i < |records| ==> records[i].injection == injection
    ensures forall j | 0 <= j < i :: records[j].injection != injection
  {
    if records == [] then 0
    else if records[0].injection == injection then 0
    else 1 + FirstOf(records[1..], injection)
  }

  function Delivered(t: Table, s: Id, injection: Id): (Table, bool) {
    var records := RecordsOf(t, s);
    var i := FirstOf(records, injection);
    if i < |records| then (t[s := records[i := records[i].(delivered := true)]], true) else (t, false)
  }

  /** The operations that treat each record of a session by itself. */
  datatype Fate =
    | CheckpointFate(run: Id)
      /** At `turn_ended` of `run`. */
    | SettleFate(run: Id)
      /** After `from` failed: to the Run resumed from its checkpoint, or, for a
          rebase, to nobody. */
    | HandOverFate(from: Id, to: Option<Id>)
    | UndeliveredFate(injection: Id)
    | InboxFate(inbox: Id)
    | UnansweredFate
      /** The host's copies of these injections came after the step's results. */
    | PromoteFate(injections: set<Id>, hostTurn: string)
    | Unchanged

  /** What a record becomes, or that it goes. */
  function Becomes(fate: Fate, r: Steer): Option<Steer> {
    match fate
    case CheckpointFate(run) => Some(if r.run == run && r.delivered then r.(checkpointed := true) else r)
    case SettleFate(run) =>
      if r.run != run then if r.answered then None else Some(r)
      else if r.delivered then Some(r.(answered := true))
      else if Promoted(r) then Some(r.(delivered := true))
      else None
    case HandOverFate(from, to) =>
      if r.run != from || r.answered then Some(r)
      else if to.None? || to.value == "" || (!r.checkpointed && !Promoted(r)) then None
      else Some(r.(run := to.value, delivered := r.delivered && r.checkpointed))
    case UndeliveredFate(injection) => if r.injection == injection && !r.delivered && !Promoted(r) then None else Some(r)
    case InboxFate(inbox) => if r.inbox == inbox then None else Some(r)
    case UnansweredFate => if r.answered then Some(r) else None
    case PromoteFate(injections, hostTurn) =>
      Some(if r.injection in injections then r.(promoted := Some(true), hostTurn := Some(hostTurn)) else r)
    case Unchanged => Some(r)
  }

  function Piece(fate: Fate, r: Steer): seq<Steer> {
    if Becomes(fate, r).Some? then [Becomes(fate, r).value] else []
  }

  /** The records an operation keeps, changed as it changes them. */
  function Survivors(records: seq<Steer>, fate: Fate): seq<Steer> {
    if records == [] then [] else Piece(fate, records[0]) + Survivors(records[1..], fate)
  }

  function Apply(t: Table, s: Id, fate: Fate): Table {
    if s in t then Keep(t, s, Survivors(t[s], fate)) else t
  }

  /** What `turn_ended` must send again: the promoted messages Cursor never took. */
  function Undelivered(records: seq<Steer>, run: Id): seq<Steer> {
    if records == [] then []
    else (if records[0].run == run && Promoted(records[0]) && !records[0].delivered then [records[0].(delivered := true)] else [])
         + Undelivered(records[1..], run)
  }

  /** The records of the Run that `turn_ended` first reports as answered. */
  ghost function NewlyAnswered(records: seq<Steer>, run: Id): set<nat> {
    set i: nat | i < |records| && records[i].run == run && records[i].delivered && !records[i].answered
  }

  /** The records it leaves to the host: not taken by Cursor, and no copy promoted. */
  ghost function LeftToHost(records: seq<Steer>, run: Id): set<nat> {
    set i: nat | i < |records| && records[i].run == run && !records[i].delivered && !Promoted(records[i])
  }

  /** Records of other Runs that were answered before. */
  ghost function Spent(records: seq<Steer>, run: Id): set<nat> {
    set i: nat | i < |records| && records[i].run != run && records[i].answered
  }

  // ---------------------------------------------------------------- invariant

  predicate Sound(r: Steer) {
    r.checkpointed || r.answered ==> r.delivered
  }

  ghost predicate RecordsInv(s: Id, records: seq<Steer>) {
    && 0 < |records| <= MAX_RECORDS_PER_SESSION
    && (forall i | 0 <= i < |records| :: records[i].session == s && Sound(records[i]))
    && (forall i, j | 0 <= i < j < |records| :: records[i].injection != records[j].injection)
  }

  ghost predicate TableInv(t: Table) {
    |t| <= MAX_REMEMBERED && forall s | s in t :: RecordsInv(s, t[s])
  }

  /** Every operation keeps a sound record sound, in its session, and the same injection. */
  lemma FateIsGood(fate: Fate, r: Steer)
    requires Sound(r) && Becomes(fate, r).Some?
    ensures var n := Becomes(fate, r).value;
            Sound(n) && n.session == r.session && n.injection == r.injection
  {}

  lemma {:induction false} SurvivorsFrom(records: seq<Steer>, fate: Fate, k: nat) returns (i: nat)
    requires k < |Survivors(records, fate)|
    ensures i < |records| && Becomes(fate, records[i]) == Some(Survivors(records, fate)[k])
    ensures i >= k
  {
    if Becomes(fate, records[0]).Some? {
      if k == 0 { return 0; }
      i := SurvivorsFrom(records[1..], fate, k - 1);
    } else {
      i := SurvivorsFrom(records[1..], fate, k);
    }
    i := i + 1;
  }

  lemma {:induction false} SurvivorStays(records: seq<Steer>, fate: Fate, i: nat) returns (k: nat)
    requires i < |records| && Becomes(fate, records[i]).Some?
    ensures k < |Survivors(records, fate)| && Survivors(records, fate)[k] == Becomes(fate, records[i]).value
  {
    if i == 0 { return 0; }
    k := SurvivorStays(records[1..], fate, i - 1);
    if Becomes(fate, records[0]).Some? { k := k + 1; }
  }

  lemma {:induction false} SurvivorsKeep(s: Id, records: seq<Steer>, fate: Fate)
    requires forall i | 0 <= i < |records| :: records[i].session == s && Sound(records[i])
    requires forall i, j | 0 <= i < j < |records| :: records[i].injection != records[j].injection
    ensures var r := Survivors(records, fate);
            && |r| <= |records|
            && (forall i | 0 <= i < |r| :: r[i].session == s && Sound(r[i]))
            && (forall i, j | 0 <= i < j < |r| :: r[i].injection != r[j].injection)
  {
    if records != [] {
      SurvivorsKeep(s, records[1..], fate);
      var rest := Survivors(records[1..], fate);
      if Becomes(fate, records[0]).Some? {
        var head := Becomes(fate, records[0]).value;
        FateIsGood(fate, records[0]);
        forall k | 0 <= k < |rest|
          ensures rest[k].injection != head.injection
        {
          var i := SurvivorsFrom(records[1..], fate, k);
          FateIsGood(fate, records[1..][i]);
        }
      }
    }
  }

  lemma KeepBounded(t: Table, s: Id, records: seq<Steer>)
    requires TableInv(t) && s in t && (records != [] ==> RecordsInv(s, records))
    ensures TableInv(Keep(t, s, records))
  {
    if records == [] {
      assert (t - {s}).Keys == t.Keys - {s};
    } else {
      assert t[s := records].Keys == t.Keys;
    }
  }

  lemma ApplyKeeps(t: Table, s: Id, fate: Fate)
    requires TableInv(t)
    ensures TableInv(Apply(t, s, fate))
  {
    if s in t {
      SurvivorsKeep(s, t[s], fate);
      KeepBounded(t, s, Survivors(t[s], fate));
    }
  }

  lemma RecordedKeeps(t: Table, r: Steer)
    requires TableInv(t) && Sound(r)
    requires forall i | 0 <= i < |RecordsOf(t, r.session)| :: RecordsOf(t, r.session)[i].injection != r.injection
    ensures TableInv(Recorded(t, r).0)
  {
    if Recorded(t, r).1 {
      assert Recorded(t, r).0.Keys == t.Keys + {r.session};
    }
  }

  lemma DeliveredKeeps(t: Table, s: Id, injection: Id)
    requires TableInv(t)
    ensures TableInv(Delivered(t, s, injection).0)
  {
    if Delivered(t, s, injection).1 {
      KeepBounded(t, s, Delivered(t, s, injection).0[s]);
    }
  }

  // -------------------------------------------------------------------- events

  datatype Event =
    | Injected(steer: Steer)
    | WasDelivered(session: Id, injection: Id)
    | Checkpointed(session: Id, run: Id)
    | TurnEnded(session: Id, run: Id)
    | HandedOver(session: Id, from: Id, to: Option<Id>)
    | NeverAccepted(session: Id, injection: Id)
    | Withdrawn(session: Id, inbox: Id)
    | Promotion(session: Id, injections: set<Id>, hostTurn: string)
    | NewTurn(session: Id)
    | Forgotten(session: Id)
    | Restarted(session: Id, saved: Json)

  /** An injection id is a fresh UUID, and a saved session's ids are distinct. */
  ghost predicate Enabled(t: Table, e: Event) {
    match e
    case Injected(r) => Sound(r) && forall i | 0 <= i < |RecordsOf(t, r.session)| :: RecordsOf(t, r.session)[i].injection != r.injection
    case Restarted(s, saved) =>
      var records := ReadRecords(s, saved);
      records.Some? ==> forall i, j | 0 <= i < j < |records.value| :: records.value[i].injection != records.value[j].injection
    case _ => true
  }

  function FateOf(e: Event): Fate {
    match e
    case Checkpointed(_, run) => CheckpointFate(run)
    case TurnEnded(_, run) => SettleFate(run)
    case HandedOver(_, from, to) => HandOverFate(from, to)
    case NeverAccepted(_, injection) => UndeliveredFate(injection)
    case Withdrawn(_, inbox) => InboxFate(inbox)
    case Promotion(_, injections, hostTurn) => PromoteFate(injections, hostTurn)
    case NewTurn(_) => UnansweredFate
    case _ => Unchanged
  }

  function Next(t: Table, e: Event): Table {
    match e
    case Injected(r) => Recorded(t, r).0
    case WasDelivered(s, injection) => Delivered(t, s, injection).0
    case Forgotten(s) => t - {s}
    case Restarted(s, saved) => Restore(t - {s}, s, saved)
    case _ => Apply(t, e.session, FateOf(e))
  }

  lemma NextKeepsInv(t: Table, e: Event)
    requires TableInv(t) && Enabled(t, e)
    ensures TableInv(Next(t, e))
  {
    match e
    case Injected(r) => RecordedKeeps(t, r);
    case WasDelivered(s, injection) => DeliveredKeeps(t, s, injection);
    case Forgotten(s) => assert (t - {s}).Keys == t.Keys - {s};
    case Restarted(s, saved) =>
      assert (t - {s}).Keys == t.Keys - {s};
      RestoreKeeps(t - {s}, s, saved);
    case _ => ApplyKeeps(t, e.session, FateOf(e));
  }

  function Run(t: Table, events: seq<Event>): Table
    decreases |events|
  {
    if events == [] then t else Run(Next(t, events[0]), events[1..])
  }

  ghost predicate Possible(t: Table, events: seq<Event>)
    decreases |events|
  {
    events != [] ==> Enabled(t, events[0]) && Possible(Next(t, events[0]), events[1..])
  }

  /** In every reachable table a checkpointed or answered steer was delivered, no
      session exceeds its cap, and no table exceeds its own. */
  lemma {:induction false} RunKeepsInv(t: Table, events: seq<Event>)
    requires TableInv(t) && Possible(t, events)
    ensures TableInv(Run(t, events))
    decreases |events|
  {
    if events != [] {
      NextKeepsInv(t, events[0]);
      RunKeepsInv(Next(t, events[0]), events[1..]);
    }
  }

  // ------------------------------------------------------------ one steer's life

  ghost predicate Holds(t: Table, s: Id, r: Steer) {
    s in t && r in t[s]
  }

  /** A promoted, unanswered steer survives every settlement, every hand-over to a
      successor and the report that Cursor never took it: it is answered, sent
      again, or passed on, and never dropped. */
  lemma PromotedSurvives(t: Table, s: Id, r: Steer, e: Event)
    requires TableInv(t) && Holds(t, s, r) && Promoted(r) && !r.answered && !e.Injected? && e.session == s
    requires e.TurnEnded? || e.NeverAccepted? || e.Checkpointed? || (e.HandedOver? && e.to.Some? && e.to.value != "")
    ensures Becomes(FateOf(e), r).Some? && Holds(Next(t, e), s, Becomes(FateOf(e), r).value)
    ensures Promoted(Becomes(FateOf(e), r).value)
    ensures e.TurnEnded? && e.run == r.run ==>
              if r.delivered then Becomes(FateOf(e), r).value == r.(answered := true)
              else Becomes(FateOf(e), r).value == r.(delivered := true) && r.(delivered := true) in Undelivered(t[s], e.run)
    ensures e.HandedOver? && e.from == r.run ==>
              Becomes(FateOf(e), r).value == r.(run := e.to.value, delivered := r.checkpointed)
  {
    var i :| 0 <= i < |t[s]| && t[s][i] == r;
    var k := SurvivorStays(t[s], FateOf(e), i);
    if e.TurnEnded? && e.run == r.run && !r.delivered {
      UndeliveredHas(t[s], e.run, i);
    }
  }

  /** The host withdrew the message, started a new turn, forgot the session, or
      rebuilt the Run from a history that already holds the copy. */
  predicate Ends(e: Event, s: Id, r: Steer) {
    !e.Injected? && e.session == s &&
    match e
    case HandedOver(_, from, to) => from == r.run && (to.None? || to.value == "")
    case Withdrawn(_, inbox) => inbox == r.inbox
    case NewTurn(_) => true
    case Forgotten(_) => true
    case Restarted(_, _) => true
    case _ => false
  }

  ghost predicate Waiting(t: Table, s: Id, injection: Id) {
    exists r :: Holds(t, s, r) && r.injection == injection && Promoted(r) && !r.answered
  }

  ghost predicate Answered(t: Table, s: Id, injection: Id) {
    exists r :: Holds(t, s, r) && r.injection == injection && r.answered
  }

  lemma AppliedHolds(t: Table, s: Id, r: Steer, fate: Fate)
    requires Holds(t, s, r) && Becomes(fate, r).Some?
    ensures Holds(Apply(t, s, fate), s, Becomes(fate, r).value)
  {
    var i :| 0 <= i < |t[s]| && t[s][i] == r;
    var k := SurvivorStays(t[s], fate, i);
  }

  lemma DeliveredHolds(t: Table, s: Id, r: Steer, injection: Id) returns (now: Steer)
    requires Holds(t, s, r)
    ensures Holds(Delivered(t, s, injection).0, s, now) && (now == r || now == r.(delivered := true))
  {
    var i :| 0 <= i < |t[s]| && t[s][i] == r;
    now := Delivered(t, s, injection).0[s][i];
  }

  lemma InjectedHolds(t: Table, s: Id, r: Steer, steer: Steer)
    requires Holds(t, s, r)
    ensures Holds(Recorded(t, steer).0, s, r)
  {
    var i :| 0 <= i < |t[s]| && t[s][i] == r;
    assert Recorded(t, steer).0[s][i] == r;
  }

  lemma KeepsWaiting(t: Table, s: Id, r: Steer, e: Event)
    requires Holds(t, s, r) && Sound(r) && Promoted(r) && !r.answered && !Ends(e, s, r)
    ensures Waiting(Next(t, e), s, r.injection) || Answered(Next(t, e), s, r.injection)
  {
    if e.Injected? {
      InjectedHolds(t, s, r, e.steer);
    } else if e.session != s {
      assert Holds(Next(t, e), s, r);
    } else if e.WasDelivered? {
      var now := DeliveredHolds(t, s, r, e.injection);
    } else {
      AppliedHolds(t, s, r, FateOf(e));
      FateIsGood(FateOf(e), r);
    }
  }

  ghost predicate EverEnds(t: Table, events: seq<Event>, s: Id, injection: Id)
    decreases |events|
  {
    events != [] && ((exists r :: Holds(t, s, r) && r.injection == injection && Ends(events[0], s, r))
                     || EverEnds(Next(t, events[0]), events[1..], s, injection))
  }

  ghost predicate EverAnswered(t: Table, events: seq<Event>, s: Id, injection: Id)
    decreases |events|
  {
    Answered(t, s, injection) || (events != [] && EverAnswered(Next(t, events[0]), events[1..], s, injection))
  }

  /** Over any run a promoted steer is kept until the model has answered it. */
  lemma {:induction false} PromotedWaitsForAnswer(t: Table, events: seq<Event>, s: Id, injection: Id)
    requires TableInv(t) && Possible(t, events) && Waiting(t, s, injection) && !EverEnds(t, events, s, injection)
    ensures Waiting(Run(t, events), s, injection) || EverAnswered(t, events, s, injection)
    decreases |events|
  {
    if events != [] {
      var r :| Holds(t, s, r) && r.injection == injection && Promoted(r) && !r.answered;
      NextKeepsInv(t, events[0]);
      KeepsWaiting(t, s, r, events[0]);
      if Waiting(Next(t, events[0]), s, injection) {
        PromotedWaitsForAnswer(Next(t, events[0]), events[1..], s, injection);
      }
    }
  }

  lemma {:induction false} UndeliveredHas(records: seq<Steer>, run: Id, i: nat)
    requires i < |records| && records[i].run == run && Promoted(records[i]) && !records[i].delivered
    ensures records[i].(delivered := true) in Undelivered(records, run)
  {
    if i > 0 {
      UndeliveredHas(records[1..], run, i - 1);
    }
  }

  /** What is sent again is exactly what was promoted into this Run and not taken. */
  lemma {:induction false} UndeliveredIsExact(records: seq<Steer>, run: Id, r: Steer)
    ensures r in Undelivered(records, run) <==>
              exists i :: 0 <= i < |records| && records[i].run == run && Promoted(records[i]) && !records[i].delivered
                          && r == records[i].(delivered := true)
  {
    if records != [] {
      UndeliveredIsExact(records[1..], run, r);
      if i :| 0 <= i < |records[1..]| && records[1..][i].run == run && Promoted(records[1..][i]) && !records[1..][i].delivered
              && r == records[1..][i].(delivered := true) {
        assert records[i + 1] == records[1..][i];
      }
      if i :| 0 <= i < |records| && records[i].run == run && Promoted(records[i]) && !records[i].delivered
              && r == records[i].(delivered := true) {
        if i > 0 {
          assert records[1..][i - 1] == records[i];
        }
      }
    }
  }

  lemma NothingCounted(run: Id)
    ensures NewlyAnswered([], run) == {} && LeftToHost([], run) == {}
  {}

  lemma CountsSnoc(records: seq<Steer>, run: Id, i: nat)
    requires i < |records|
    ensures |NewlyAnswered(records[..i + 1], run)|
         == |NewlyAnswered(records[..i], run)| + if i in NewlyAnswered(records, run) then 1 else 0
    ensures |LeftToHost(records[..i + 1], run)| == |LeftToHost(records[..i], run)| + if i in LeftToHost(records, run) then 1 else 0
    ensures |Spent(records[..i + 1], run)| == |Spent(records[..i], run)| + if i in Spent(records, run) then 1 else 0
  {
    NewlySnoc(records, run, i);
    LeftSnoc(records, run, i);
    SpentSnoc(records, run, i);
  }

  lemma NewlySnoc(records: seq<Steer>, run: Id, i: nat)
    requires i < |records|
    ensures NewlyAnswered(records[..i + 1], run) == NewlyAnswered(records[..i], run) + if i in NewlyAnswered(records, run) then {i} else {}
  {}

  lemma LeftSnoc(records: seq<Steer>, run: Id, i: nat)
    requires i < |records|
    ensures LeftToHost(records[..i + 1], run) == LeftToHost(records[..i], run) + if i in LeftToHost(records, run) then {i} else {}
  {}

  lemma SpentSnoc(records: seq<Steer>, run: Id, i: nat)
    requires i < |records|
    ensures Spent(records[..i + 1], run) == Spent(records[..i], run) + if i in Spent(records, run) then {i} else {}
  {}

  /** `turn_ended` drops what it leaves to the host and what other Runs have
      answered, and nothing else. */
  lemma {:induction false} SettleDropsOnly(records: seq<Steer>, run: Id, n: nat)
    requires n <= |records|
    ensures |Survivors(records[..n], SettleFate(run))| + |LeftToHost(records[..n], run)| + |Spent(records[..n], run)| == n
  {
    if n > 0 {
      SettleDropsOnly(records, run, n - 1);
      SurvivorsSnoc(records, SettleFate(run), n - 1);
      CountsSnoc(records, run, n - 1);
    }
  }

  /** The injection is not in the table, or it was delivered. */
  ghost predicate SentOrGone(t: Table, s: Id, injection: Id) {
    s in t ==> forall i | 0 <= i < |t[s]| :: t[s][i].injection == injection ==> t[s][i].delivered
  }

  /** A hand-over whose checkpoint does not hold the steer. */
  ghost predicate Unsends(t: Table, e: Event, s: Id, injection: Id) {
    e.HandedOver? && e.session == s && s in t
    && exists i :: 0 <= i < |t[s]| && t[s][i].injection == injection && t[s][i].run == e.from && !t[s][i].checkpointed
  }

  ghost predicate NewCopy(e: Event, s: Id, injection: Id) {
    (e.Injected? && e.steer.injection == injection) || (e.Restarted? && e.session == s)
  }

  /** The fate leaves the injection sent wherever the list has it sent. */
  ghost predicate KeepsSent(records: seq<Steer>, fate: Fate, injection: Id) {
    forall i | 0 <= i < |records| && Becomes(fate, records[i]).Some? ::
      var r := Becomes(fate, records[i]).value;
      r.injection == records[i].injection && (r.injection == injection ==> r.delivered)
  }

  lemma AppliedStaysSent(t: Table, s: Id, fate: Fate, injection: Id)
    requires s in t && KeepsSent(t[s], fate, injection)
    ensures SentOrGone(Apply(t, s, fate), s, injection)
  {
    var kept := Survivors(t[s], fate);
    forall k: nat | k < |kept| && kept[k].injection == injection
      ensures kept[k].delivered
    {
      var i := SurvivorsFrom(t[s], fate, k);
    }
  }

  lemma FateKeepsSent(t: Table, e: Event, s: Id, injection: Id)
    requires TableInv(t) && s in t && SentOrGone(t, s, injection) && !Unsends(t, e, s, injection)
    requires !e.Injected? && e.session == s
    ensures KeepsSent(t[s], FateOf(e), injection)
  {}

  lemma OthersStaySent(t: Table, e: Event, s: Id, injection: Id)
    requires SentOrGone(t, s, injection) && !NewCopy(e, s, injection) && (e.Injected? || e.session != s)
    ensures SentOrGone(Next(t, e), s, injection)
  {}

  lemma StaysSent(t: Table, e: Event, s: Id, injection: Id)
    requires TableInv(t) && SentOrGone(t, s, injection) && !Unsends(t, e, s, injection) && !NewCopy(e, s, injection)
    ensures SentOrGone(Next(t, e), s, injection)
  {
    if e.Injected? || e.session != s {
      OthersStaySent(t, e, s, injection);
    } else if s in t && !e.WasDelivered? && !e.Forgotten? {
      FateKeepsSent(t, e, s, injection);
      AppliedStaysSent(t, s, FateOf(e), injection);
    }
  }

  lemma SentIsNotResent(t: Table, e: Event, s: Id, injection: Id)
    requires SentOrGone(t, s, injection)
    ensures !Resends(t, e, s, injection)
  {
    if e.TurnEnded? && e.session == s && s in t {
      forall r | r in Undelivered(t[s], e.run)
        ensures r.injection != injection
      {
        UndeliveredIsExact(t[s], e.run, r);
      }
    }
  }

  /** Whether `turn_ended` sends the injection again. */
  ghost predicate Resends(t: Table, e: Event, s: Id, injection: Id) {
    e.TurnEnded? && e.session == s && s in t && exists r :: r in Undelivered(t[s], e.run) && r.injection == injection
  }

  ghost predicate EverUnsent(t: Table, events: seq<Event>, s: Id, injection: Id)
    decreases |events|
  {
    events != [] && (Unsends(t, events[0], s, injection) || NewCopy(events[0], s, injection)
                     || EverUnsent(Next(t, events[0]), events[1..], s, injection))
  }

  ghost predicate EverResent(t: Table, events: seq<Event>, s: Id, injection: Id)
    decreases |events|
  {
    events != [] && (Resends(t, events[0], s, injection) || EverResent(Next(t, events[0]), events[1..], s, injection))
  }

  /** Once sent, a steer is sent again only after a hand-over whose checkpoint
      lacks it: over any run without one, no `turn_ended` returns it. */
  lemma {:induction false} ResentOnlyAfterLoss(t: Table, events: seq<Event>, s: Id, injection: Id)
    requires TableInv(t) && Possible(t, events) && SentOrGone(t, s, injection)
    requires !EverUnsent(t, events, s, injection)
    ensures !EverResent(t, events, s, injection)
    decreases |events|
  {
    if events != [] {
      SentIsNotResent(t, events[0], s, injection);
      StaysSent(t, events[0], s, injection);
      NextKeepsInv(t, events[0]);
      ResentOnlyAfterLoss(Next(t, events[0]), events[1..], s, injection);
    }
  }

  // ------------------------------------------------------------------- restart

  /** The property names that matter, and any other. */
  datatype Name =
    | Version | Records
    | SessionID | InboxID | InjectionId | RunID | TextOf
    | IsDelivered | IsCheckpointed | IsAnswered | IsPromoted | HostTurn
    | Unknown(name: string)

  /** A parsed JSON value; a saved string that is not JSON is `Invalid`. */
  datatype Json = Invalid | Null | Bool(b: bool) | Number(n: int) | Str(s: string) | Arr(items: seq<Json>) | Obj(fields: map<Name, Json>)

  function Field(j: Json, name: Name): Option<Json> {
    if j.Obj? && name in j.fields then Some(j.fields[name]) else None
  }

  function Text(j: Json, name: Name): Option<string> {
    var f := Field(j, name);
    if f.Some? && f.value.Str? && f.value.s != "" then Some(f.value.s) else None
  }

  function Flag(j: Json, name: Name): Option<bool> {
    var f := Field(j, name);
    if f.Some? && f.value.Bool? then Some(f.value.b) else None
  }

  predicate IsHex(c: char) {
    '0' <= c <= '9' || 'a' <= c <= 'f'
  }

  predicate IsHostTurn(s: string) {
    |s| == 64 && forall i | 0 <= i < 64 :: IsHex(s[i])
  }

  /** An optional field: absent, or of the right kind; anything else is refused. */
  function OptionalFlag(j: Json, name: Name): Option<Option<bool>> {
    if Field(j, name).None? then Some(None)
    else if Flag(j, name).Some? then Some(Flag(j, name))
    else None
  }

  function OptionalTurn(j: Json, name: Name): Option<Option<string>> {
    var f := Field(j, name);
    if f.None? then Some(None)
    else if f.value.Str? && IsHostTurn(f.value.s) then Some(Some(f.value.s))
    else None
  }

  function ReadRecord(s: Id, j: Json): Option<Steer> {
    var inbox, injection, run, text := Text(j, InboxID), Text(j, InjectionId), Text(j, RunID), Text(j, TextOf);
    var delivered, checkpointed, answered := Flag(j, IsDelivered), Flag(j, IsCheckpointed), Flag(j, IsAnswered);
    var promoted, hostTurn := OptionalFlag(j, IsPromoted), OptionalTurn(j, HostTurn);
    if Field(j, SessionID) != Some(Str(s)) || inbox.None? || injection.None? || run.None? || text.None?
       || delivered.None? || checkpointed.None? || answered.None?
       || ((checkpointed.value || answered.value) && !delivered.value)
       || promoted.None? || hostTurn.None?
    then None
    else Some(Steer(s, inbox.value, injection.value, run.value, text.value, delivered.value, checkpointed.value, answered.value,
                    promoted.value, hostTurn.value))
  }

  /** Every record, or none of them. */
  function ReadAll(s: Id, items: seq<Json>): Option<seq<Steer>> {
    if items == [] then Some([])
    else
      var one, rest := ReadRecord(s, items[0]), ReadAll(s, items[1..]);
      if one.None? || rest.None? then None else Some([one.value] + rest.value)
  }

  function ReadRecords(s: Id, saved: Json): Option<seq<Steer>> {
    var records := Field(saved, Records);
    if Field(saved, Version) != Some(Number(1)) || records.None? || !records.value.Arr?
       || |records.value.items| > MAX_RECORDS_PER_SESSION
    then None
    else ReadAll(s, records.value.items)
  }

  function Restore(t: Table, s: Id, saved: Json): Table {
    if s in t || |t| >= MAX_REMEMBERED then t
    else
      var records := ReadRecords(s, saved);
      if records.Some? && records.value != [] then t[s := records.value] else t
  }

  function WriteRecord(r: Steer): Json {
    var plain := map[SessionID := Str(r.session), InboxID := Str(r.inbox), InjectionId := Str(r.injection),
                     RunID := Str(r.run), TextOf := Str(r.text), IsDelivered := Bool(r.delivered),
                     IsCheckpointed := Bool(r.checkpointed), IsAnswered := Bool(r.answered)];
    var withPromoted := if r.promoted.Some? then plain[IsPromoted := Bool(r.promoted.value)] else plain;
    Obj(if r.hostTurn.Some? then withPromoted[HostTurn := Str(r.hostTurn.value)] else withPromoted)
  }

  function WriteAll(records: seq<Steer>): seq<Json> {
    if records == [] then [] else [WriteRecord(records[0])] + WriteAll(records[1..])
  }

  /** What is saved with the checkpoint it describes; nothing for no records. */
  function Serialize(t: Table, s: Id): Option<Json> {
    if s in t && t[s] != [] then Some(Obj(map[Version := Number(1), Records := Arr(WriteAll(t[s]))])) else None
  }

  lemma {:induction false} ReadAllSound(s: Id, items: seq<Json>)
    requires ReadAll(s, items).Some?
    ensures var r := ReadAll(s, items).value;
            |r| == |items| && forall i | 0 <= i < |r| :: r[i].session == s && Sound(r[i])
  {
    if items != [] {
      ReadAllSound(s, items[1..]);
    }
  }

  /** Whatever was saved, what is restored satisfies the invariant. */
  lemma RestoreKeeps(t: Table, s: Id, saved: Json)
    requires TableInv(t) && Enabled(t, Restarted(s, saved))
    ensures TableInv(Restore(t, s, saved))
  {
    if Restore(t, s, saved) != t {
      ReadAllSound(s, Field(saved, Records).value.items);
      assert Restore(t, s, saved).Keys == t.Keys + {s};
    }
  }

  /** What a record must satisfy, beyond the invariant, to be read back. */
  predicate Savable(r: Steer) {
    r.inbox != "" && r.injection != "" && r.run != "" && r.text != "" && (r.hostTurn.Some? ==> IsHostTurn(r.hostTurn.value))
  }

  /** The property a written record has under each name. */
  function Property(r: Steer, name: Name): Option<Json> {
    match name
    case SessionID => Some(Str(r.session))
    case InboxID => Some(Str(r.inbox))
    case InjectionId => Some(Str(r.injection))
    case RunID => Some(Str(r.run))
    case TextOf => Some(Str(r.text))
    case IsDelivered => Some(Bool(r.delivered))
    case IsCheckpointed => Some(Bool(r.checkpointed))
    case IsAnswered => Some(Bool(r.answered))
    case IsPromoted => if r.promoted.Some? then Some(Bool(r.promoted.value)) else None
    case HostTurn => if r.hostTurn.Some? then Some(Str(r.hostTurn.value)) else None
    case _ => None
  }

  lemma WrittenProperty(r: Steer, name: Name)
    ensures Field(WriteRecord(r), name) == Property(r, name)
  {}

  lemma ReadProperties(s: Id, r: Steer, j: Json)
    requires r.session == s && Sound(r)
    requires forall name :: Field(j, name) == Property(r, name)
    ensures ReadRecord(s, j) == if Savable(r) then Some(r) else None
  {
    assert Text(j, InboxID) == if r.inbox != "" then Some(r.inbox) else None;
    assert Text(j, InjectionId) == if r.injection != "" then Some(r.injection) else None;
    assert Text(j, RunID) == if r.run != "" then Some(r.run) else None;
    assert Text(j, TextOf) == if r.text != "" then Some(r.text) else None;
  }

  lemma ReadWritten(s: Id, r: Steer)
    requires r.session == s && Sound(r)
    ensures ReadRecord(s, WriteRecord(r)) == if Savable(r) then Some(r) else None
  {
    forall name
      ensures Field(WriteRecord(r), name) == Property(r, name)
    {
      WrittenProperty(r, name);
    }
    ReadProperties(s, r, WriteRecord(r));
  }

  predicate AllSavable(records: seq<Steer>) {
    forall i | 0 <= i < |records| :: Savable(records[i])
  }

  lemma AllSavableSplits(records: seq<Steer>)
    requires records != []
    ensures AllSavable(records) <==> Savable(records[0]) && AllSavable(records[1..])
  {
    if Savable(records[0]) && AllSavable(records[1..]) {
      forall i | 0 <= i < |records|
        ensures Savable(records[i])
      {
        if i > 0 { assert Savable(records[1..][i - 1]); }
      }
    }
  }

  lemma {:induction false} ReadAllWritten(s: Id, records: seq<Steer>)
    requires forall i | 0 <= i < |records| :: records[i].session == s && Sound(records[i])
    ensures |WriteAll(records)| == |records|
    ensures ReadAll(s, WriteAll(records)) == if AllSavable(records) then Some(records) else None
  {
    if records != [] {
      ReadWritten(s, records[0]);
      ReadAllWritten(s, records[1..]);
      AllSavableSplits(records);
      ReadAllCons(s, WriteRecord(records[0]), WriteAll(records[1..]));
      assert records == [records[0]] + records[1..];
    }
  }

  lemma ReadAllCons(s: Id, first: Json, items: seq<Json>)
    ensures ReadAll(s, [first] + items)
            == if ReadRecord(s, first).None? || ReadAll(s, items).None? then None
               else Some([ReadRecord(s, first).value] + ReadAll(s, items).value)
  {
    assert ([first] + items)[1..] == items;
  }

  /** A session serialized from a reachable table is restored with the same
      records if and only if every record's texts are there to be read back. */
  lemma RoundTrip(t: Table, s: Id)
    requires TableInv(t) && s in t
    ensures Serialize(t, s).Some?
    ensures Restore(map[], s, Serialize(t, s).value) == map[s := t[s]]
            <==> AllSavable(t[s])
  {
    ReadAllWritten(s, t[s]);
    var saved := Serialize(t, s).value;
    assert Field(saved, Version) == Some(Number(1)) && Field(saved, Records) == Some(Arr(WriteAll(t[s])));
    if ReadRecords(s, saved).None? {
      assert s !in Restore(map[], s, saved);
    }
  }

  // ------------------------------------------------------------------ matching

  const OPEN_TAG := "<system-reminder>"
  const CLOSE_TAG := "</system-reminder>"

  predicate StartsAt(s: string, i: nat, tag: string) {
    i + |tag| <= |s| && s[i..i + |tag|] == tag
  }

  /** The first place of `tag` at `i` or later, or the length. */
  function Find(s: string, tag: string, i: nat): (at: nat)
    requires i <= |s|
    ensures i <= at <= |s|
    ensures at < |s| ==> StartsAt(s, at, tag)
    decreases |s| - i
  {
    if i == |s| || StartsAt(s, i, tag) then i else Find(s, tag, i + 1)
  }

  datatype Span = Span(from: nat, to: nat)

  /** The first part of `s` from `i` on between the tags, with them. */
  function NextSpan(s: string, i: nat, open: string, close: string): (r: Option<Span>)
    requires i <= |s| && open != "" && close != ""
    ensures r.Some? ==> i <= r.value.from < r.value.to <= |s|
  {
    var at := Find(s, open, i);
    if at == |s| then None
    else
      var end := Find(s, close, at + |open|);
      if end == |s| then None else Some(Span(at, end + |close|))
  }

  /** `s` from `i` on without what stands between the tags; an unclosed part stays. */
  function Stripped(s: string, i: nat, open: string, close: string): string
    requires i <= |s| && open != "" && close != ""
    decreases |s| - i
  {
    var span := NextSpan(s, i, open, close);
    if span.None? then s[i..] else s[i..span.value.from] + Stripped(s, span.value.to, open, close)
  }

  /** The message without its system reminders. */
  function WithoutReminders(s: string): string {
    Stripped(s, 0, OPEN_TAG, CLOSE_TAG)
  }

  /** What JavaScript's `trim` removes. */
  predicate IsSpace(c: char) {
    c in {'\t', '\n', '\r', ' ', '\U{000B}', '\U{000C}', '\U{00A0}', '\U{1680}', '\U{2028}', '\U{2029}', '\U{202F}', '\U{205F}', '\U{3000}', '\U{FEFF}'}
    || '\U{2000}' <= c <= '\U{200A}'
  }

  function Trim(s: string): string {
    if s != "" && IsSpace(s[0]) then Trim(s[1..])
    else if s != "" && IsSpace(s[|s| - 1]) then Trim(s[..|s| - 1])
    else s
  }

  predicate CarriesSteer(message: string, text: string) {
    Trim(WithoutReminders(message)) == Trim(text)
  }

  predicate Fits(message: string, r: Steer, accept: Steer -> bool) {
    accept(r) && CarriesSteer(message, r.text)
  }

  function FirstFit(records: seq<Steer>, message: string, accept: Steer -> bool): (i: nat)
    ensures i <= |records|
    ensures i < |records| ==> Fits(message, records[i], accept)
    ensures forall j | 0 <= j < i :: !Fits(message, records[j], accept)
  {
    if records == [] || Fits(message, records[0], accept) then 0 else 1 + FirstFit(records[1..], message, accept)
  }

  function Removed<T>(s: seq<T>, i: nat): seq<T>
    requires i < |s|
  {
    s[..i] + s[i + 1..]
  }

  /** One record for each message, taking the first that fits; nothing unless
      every message gets one. */
  function Match(candidates: seq<Steer>, messages: seq<string>, accept: Steer -> bool): Option<seq<Steer>>
    decreases |messages|
  {
    if messages == [] then Some([])
    else
      var i := FirstFit(candidates, messages[0], accept);
      if i == |candidates| then None
      else
        Prepended([candidates[i]], Match(Removed(candidates, i), messages[1..], accept))
  }

  function MatchEarlySteers(records: seq<Steer>, messages: seq<string>, accept: Steer -> bool): seq<Steer> {
    if records == [] || messages == [] then []
    else
      var m := Match(records, messages, accept);
      if m.Some? then m.value else []
  }

  /** Message `k` is given the record at `choice[k]`; no record is given twice. */
  ghost predicate Assignment(records: seq<Steer>, messages: seq<string>, accept: Steer -> bool, choice: seq<nat>) {
    && |choice| == |messages|
    && (forall k | 0 <= k < |choice| :: choice[k] < |records| && Fits(messages[k], records[choice[k]], accept))
    && (forall j, k | 0 <= j < k < |choice| :: choice[j] != choice[k])
  }

  /** Where position `c` of the whole list is once position `gone` is out of it. */
  function Shifted(c: nat, gone: nat): nat {
    if c > gone then c - 1 else c
  }

  function ShiftAll(choice: seq<nat>, gone: nat): seq<nat> {
    seq(|choice|, k requires 0 <= k < |choice| => Shifted(choice[k], gone))
  }

  /** Taking the first fit for the first message leaves the others an assignment:
      a message that wanted that record can have the first message's instead,
      because both carry the same text. */
  lemma Exchange(records: seq<Steer>, messages: seq<string>, accept: Steer -> bool, choice: seq<nat>) returns (tail: seq<nat>)
    requires Assignment(records, messages, accept, choice) && messages != []
    ensures FirstFit(records, messages[0], accept) < |records|
    ensures Assignment(records, messages[1..], accept, tail)
    ensures FirstFit(records, messages[0], accept) !in tail
  {
    var i := FirstFit(records, messages[0], accept);
    assert Fits(messages[0], records[choice[0]], accept);
    tail := seq(|choice| - 1, k requires 0 <= k < |choice| - 1 => if choice[k + 1] == i then choice[0] else choice[k + 1]);
    forall k | 0 <= k < |tail|
      ensures tail[k] < |records| && Fits(messages[1..][k], records[tail[k]], accept) && tail[k] != i
    {
      assert Fits(messages[k + 1], records[choice[k + 1]], accept);
      assert choice[0] != choice[k + 1];
    }
    forall j, k | 0 <= j < k < |tail|
      ensures tail[j] != tail[k]
    {
      assert choice[j + 1] != choice[k + 1] && choice[0] != choice[j + 1] && choice[0] != choice[k + 1];
    }
  }

  lemma Shortened(records: seq<Steer>, messages: seq<string>, accept: Steer -> bool, choice: seq<nat>, i: nat)
    requires Assignment(records, messages, accept, choice) && i < |records| && i !in choice
    ensures Assignment(Removed(records, i), messages, accept, ShiftAll(choice, i))
  {
    var rest, left := ShiftAll(choice, i), Removed(records, i);
    forall k | 0 <= k < |rest|
      ensures rest[k] < |left| && Fits(messages[k], left[rest[k]], accept)
    {
      assert choice[k] != i;
      assert left[rest[k]] == records[choice[k]];
    }
    forall j, k | 0 <= j < k < |rest|
      ensures rest[j] != rest[k]
    {
      assert choice[j] != choice[k] && choice[j] != i && choice[k] != i;
    }
  }

  /** The greedy choice finds a match whenever any one-to-one assignment exists. */
  lemma {:induction false} GreedyIsComplete(records: seq<Steer>, messages: seq<string>, accept: Steer -> bool, choice: seq<nat>)
    requires Assignment(records, messages, accept, choice)
    ensures Match(records, messages, accept).Some?
    decreases |messages|
  {
    if messages != [] {
      var i := FirstFit(records, messages[0], accept);
      var tail := Exchange(records, messages, accept, choice);
      Shortened(records, messages[1..], accept, tail, i);
      GreedyIsComplete(Removed(records, i), messages[1..], accept, ShiftAll(tail, i));
    }
  }

  /** Back from a position of the shortened list to one of the whole list. */
  function Unshifted(c: nat, gone: nat): nat {
    if c >= gone then c + 1 else c
  }

  function UnshiftAll(choice: seq<nat>, gone: nat): seq<nat> {
    seq(|choice|, k requires 0 <= k < |choice| => Unshifted(choice[k], gone))
  }

  lemma UnshiftedPosition<T>(list: seq<T>, i: nat, c: nat)
    requires i < |list| && c < |list| - 1
    ensures Unshifted(c, i) < |list| && Unshifted(c, i) != i && list[Unshifted(c, i)] == Removed(list, i)[c]
  {}

  lemma Lengthened(records: seq<Steer>, messages: seq<string>, accept: Steer -> bool, rest: seq<nat>, i: nat)
    requires messages != [] && i < |records| && Fits(messages[0], records[i], accept)
    requires Assignment(Removed(records, i), messages[1..], accept, rest)
    ensures Assignment(records, messages, accept, [i] + UnshiftAll(rest, i))
  {
    var choice := [i] + UnshiftAll(rest, i);
    forall k | 0 <= k < |choice|
      ensures choice[k] < |records| && Fits(messages[k], records[choice[k]], accept)
    {
      if k > 0 {
        assert Fits(messages[1..][k - 1], Removed(records, i)[rest[k - 1]], accept);
        UnshiftedPosition(records, i, rest[k - 1]);
      }
    }
    forall j, k | 0 <= j < k < |choice|
      ensures choice[j] != choice[k]
    {
      UnshiftedPosition(records, i, rest[k - 1]);
      if j > 0 {
        assert rest[j - 1] != rest[k - 1];
      }
    }
  }

  /** A match gives every message its own accepted record, at its own position. */
  lemma {:induction false} GreedyIsSound(records: seq<Steer>, messages: seq<string>, accept: Steer -> bool) returns (choice: seq<nat>)
    requires Match(records, messages, accept).Some?
    ensures Assignment(records, messages, accept, choice)
    ensures var m := Match(records, messages, accept).value;
            |m| == |messages| && forall k | 0 <= k < |m| :: m[k] == records[choice[k]]
    decreases |messages|
  {
    if messages == [] { return []; }
    var i := FirstFit(records, messages[0], accept);
    var rest := GreedyIsSound(Removed(records, i), messages[1..], accept);
    Lengthened(records, messages, accept, rest, i);
    choice := [i] + UnshiftAll(rest, i);
    MatchedRecords(records, i, rest, Match(Removed(records, i), messages[1..], accept).value);
  }

  lemma MatchedRecords(records: seq<Steer>, i: nat, rest: seq<nat>, tail: seq<Steer>)
    requires i < |records| && |rest| == |tail|
    requires forall k | 0 <= k < |rest| :: rest[k] < |records| - 1 && tail[k] == Removed(records, i)[rest[k]]
    ensures var choice := [i] + UnshiftAll(rest, i);
            forall k | 0 <= k < |choice| :: choice[k] < |records| && ([records[i]] + tail)[k] == records[choice[k]]
  {
    forall k | 0 <= k < |rest|
      ensures Unshifted(rest[k], i) < |records| && tail[k] == records[Unshifted(rest[k], i)]
    {
      UnshiftedPosition(records, i, rest[k]);
    }
  }

  lemma NothingToAssign(messages: seq<string>, accept: Steer -> bool, choice: seq<nat>)
    requires messages != []
    ensures !Assignment([], messages, accept, choice)
  {
    var records: seq<Steer> := [];
    if |choice| == |messages| {
      assert !(choice[0] < |records|);
    }
  }

  /** Every message gets a record of its own if and only if that is possible at all. */
  lemma MatchIffPossible(records: seq<Steer>, messages: seq<string>, accept: Steer -> bool)
    requires messages != []
    ensures MatchEarlySteers(records, messages, accept) != [] <==> exists choice :: Assignment(records, messages, accept, choice)
  {
    if records == [] {
      forall choice: seq<nat>
        ensures !Assignment(records, messages, accept, choice)
      {
        NothingToAssign(messages, accept, choice);
      }
    } else {
      if Match(records, messages, accept).Some? {
        var choice := GreedyIsSound(records, messages, accept);
      }
      forall choice | Assignment(records, messages, accept, choice)
        ensures Match(records, messages, accept).Some?
      {
        GreedyIsComplete(records, messages, accept, choice);
      }
    }
  }

  lemma {:induction false} SurvivorsSnoc(records: seq<Steer>, fate: Fate, i: nat)
    requires i < |records|
    ensures Survivors(records[..i + 1], fate) == Survivors(records[..i], fate) + Piece(fate, records[i])
  {
    if i == 0 {
      assert records[..1] == [records[0]];
    } else {
      SurvivorsSnoc(records[1..], fate, i - 1);
      assert records[..i + 1][1..] == records[1..][..i] && records[..i][1..] == records[1..][..i - 1];
    }
  }

  lemma {:induction false} UndeliveredSnoc(records: seq<Steer>, run: Id, i: nat)
    requires i < |records|
    ensures Undelivered(records[..i + 1], run) == Undelivered(records[..i], run) + Undelivered([records[i]], run)
  {
    if i == 0 {
      assert records[..1] == [records[0]];
    } else {
      UndeliveredSnoc(records[1..], run, i - 1);
      assert records[..i + 1][1..] == records[1..][..i] && records[..i][1..] == records[1..][..i - 1];
    }
  }

  function Prepended(head: seq<Steer>, rest: Option<seq<Steer>>): Option<seq<Steer>> {
    if rest.Some? then Some(head + rest.value) else None
  }

  lemma PrependedTwice(a: seq<Steer>, b: seq<Steer>, rest: Option<seq<Steer>>)
    ensures Prepended(a, Prepended(b, rest)) == Prepended(a + b, rest)
  {
    if rest.Some? {
      assert a + (b + rest.value) == (a + b) + rest.value;
    }
  }

  lemma PrependedNothing(rest: Option<seq<Steer>>)
    ensures Prepended([], rest) == rest
  {
    if rest.Some? {
      assert [] + rest.value == rest.value;
    }
  }

  // ----------------------------------------------------------------- the class

  /** The `findIndex` of the matcher. */
  method FindFit(candidates: seq<Steer>, message: string, accept: Steer -> bool) returns (index: nat)
    ensures index == FirstFit(candidates, message, accept)
  {
    index := 0;
    while index < |candidates| && !Fits(message, candidates[index], accept)
      invariant index <= |candidates|
      invariant FirstFit(candidates, message, accept) == index + FirstFit(candidates[index..], message, accept)
    {
      assert candidates[index..][1..] == candidates[index + 1..];
      index := index + 1;
    }
  }

  /** The filter of `settleEarlySteers`, record by record. */
  method SettleEach(records: seq<Steer>, run: Id) returns (kept: seq<Steer>, answered: nat, undelivered: seq<Steer>, leftToHost: nat)
    ensures kept == Survivors(records, SettleFate(run)) && undelivered == Undelivered(records, run)
    ensures answered == |NewlyAnswered(records, run)| && leftToHost == |LeftToHost(records, run)|
  {
    kept, answered, undelivered, leftToHost := [], 0, [], 0;
    NothingCounted(run);
    assert records[..0] == [];
    var i := 0;
    while i < |records|
      invariant i <= |records|
      invariant kept == Survivors(records[..i], SettleFate(run))
      invariant undelivered == Undelivered(records[..i], run)
      invariant answered == |NewlyAnswered(records[..i], run)| && leftToHost == |LeftToHost(records[..i], run)|
    {
      SurvivorsSnoc(records, SettleFate(run), i);
      UndeliveredSnoc(records, run, i);
      CountsSnoc(records, run, i);
      var record := records[i];
      if record.run != run {
        if !record.answered { kept := kept + [record]; }
      } else if record.delivered {
        if !record.answered { answered := answered + 1; }
        kept := kept + [record.(answered := true)];
      } else if Promoted(record) {
        record := record.(delivered := true);
        undelivered := undelivered + [record];
        kept := kept + [record];
      } else {
        leftToHost := leftToHost + 1;
      }
      i := i + 1;
    }
    assert records[..i] == records;
  }

  class EarlySteers {
    var injected: Table

    constructor ()
      ensures injected == map[] && TableInv(injected)
    {
      injected := map[];
    }

    method Put(s: Id, records: seq<Steer>)
      modifies this
      ensures injected == Keep(old(injected), s, records)
    {
      if records == [] {
        injected := injected - {s};
      } else {
        injected := injected[s := records];
      }
    }

    method RecordEarlySteer(steer: Steer) returns (tracked: bool)
      modifies this
      ensures (injected, tracked) == Recorded(old(injected), steer)
    {
      var records := if steer.session in injected then injected[steer.session] else [];
      if steer.session in injected {
        if |records| >= MAX_RECORDS_PER_SESSION { return false; }
      } else if |injected| >= MAX_REMEMBERED {
        return false;
      }
      injected := injected[steer.session := records + [steer]];
      tracked := true;
    }

    method MarkDelivered(s: Id, injection: Id) returns (found: bool)
      modifies this
      ensures (injected, found) == Delivered(old(injected), s, injection)
    {
      if s !in injected { return false; }
      var records := injected[s];
      var i := 0;
      while i < |records|
        invariant i <= |records|
        invariant FirstOf(records, injection) == i + FirstOf(records[i..], injection)
      {
        if records[i].injection == injection {
          injected := injected[s := records[i := records[i].(delivered := true)]];
          return true;
        }
        assert records[i..][1..] == records[i + 1..];
        i := i + 1;
      }
      found := false;
    }

    /** A checkpoint arrived for `run`: in place, record after record. */
    method MarkCheckpointed(s: Id, run: Id)
      requires TableInv(injected)
      modifies this
      ensures injected == Apply(old(injected), s, CheckpointFate(run))
    {
      if s !in injected { return; }
      var records := injected[s];
      var i := 0;
      while i < |records|
        invariant i <= |records| == |old(injected)[s]| && injected == old(injected)
        invariant records[..i] == Survivors(old(injected)[s][..i], CheckpointFate(run))
        invariant records[i..] == old(injected)[s][i..]
      {
        SurvivorsSnoc(old(injected)[s], CheckpointFate(run), i);
        assert records[i] == records[i..][0];
        ghost var done, left := records[..i], records[i + 1..];
        assert left == old(injected)[s][i + 1..] by { assert left == records[i..][1..]; }
        if records[i].run == run && records[i].delivered {
          records := records[i := records[i].(checkpointed := true)];
        }
        assert records[..i + 1] == done + [records[i]] && records[i + 1..] == left;
        i := i + 1;
      }
      assert records[..i] == records && old(injected)[s][..i] == old(injected)[s];
      Put(s, records);
    }

    /** `turn_ended` of `run`. */
    method SettleEarlySteers(s: Id, run: Id) returns (answered: nat, undelivered: seq<Steer>, leftToHost: nat)
      modifies this
      ensures injected == Apply(old(injected), s, SettleFate(run))
      ensures var records := if s in old(injected) then old(injected)[s] else [];
              && undelivered == Undelivered(records, run)
              && answered == |NewlyAnswered(records, run)| && leftToHost == |LeftToHost(records, run)|
    {
      if s !in injected {
        NothingCounted(run);
        return 0, [], 0;
      }
      var kept;
      kept, answered, undelivered, leftToHost := SettleEach(injected[s], run);
      Put(s, kept);
    }

    method HandOverEarlySteers(s: Id, from: Id, to: Option<Id>)
      modifies this
      ensures injected == Apply(old(injected), s, HandOverFate(from, to))
    {
      if s !in injected { return; }
      var records := injected[s];
      var kept: seq<Steer> := [];
      var i := 0;
      while i < |records|
        invariant i <= |records| && injected == old(injected)
        invariant kept == Survivors(records[..i], HandOverFate(from, to))
      {
        SurvivorsSnoc(records, HandOverFate(from, to), i);
        var record := records[i];
        if record.run != from || record.answered {
          kept := kept + [record];
        } else if to.Some? && to.value != "" && (record.checkpointed || Promoted(record)) {
          record := record.(run := to.value);
          if !record.checkpointed {
            record := record.(delivered := false);
          }
          kept := kept + [record];
        }
        i := i + 1;
      }
      assert records[..i] == records;
      Put(s, kept);
    }

    method Matching(s: Id, messages: seq<string>, accept: Steer -> bool) returns (matched: seq<Steer>)
      ensures matched == MatchEarlySteers(RecordsOf(injected, s), messages, accept)
    {
      if s !in injected || injected[s] == [] || messages == [] { return []; }
      var candidates := injected[s];
      matched := [];
      var k := 0;
      assert messages[0..] == messages;
      PrependedNothing(Match(candidates, messages, accept));
      while k < |messages|
        invariant k <= |messages|
        invariant Match(injected[s], messages, accept) == Prepended(matched, Match(candidates, messages[k..], accept))
      {
        var index := FindFit(candidates, messages[k], accept);
        assert messages[k..][0] == messages[k] && messages[k..][1..] == messages[k + 1..];
        if index == |candidates| { return []; }
        PrependedTwice(matched, [candidates[index]], Match(Removed(candidates, index), messages[k + 1..], accept));
        matched := matched + [candidates[index]];
        candidates := candidates[..index] + candidates[index + 1..];
        k := k + 1;
      }
    }
  }
}
