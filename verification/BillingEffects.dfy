/** What each booking (src/billing.ts, `BillingLedger`) does to a session's
    account and to its Run, and the laws of output that follow over whole runs:
    equalities, not bounds. */
module BillingEffects {

  import opened StepUsage
  import opened BillingLedger

  /** A session's totals, as its ledger entry holds them; zero without one. */
  datatype Account = Account(cost: real, billed: real, estimated: real, measured: Tokens, reported: Tokens, pending: Tokens)

  function AccountOfEntry(e: Entry): Account {
    Account(e.realUsd, e.billedUsd, e.estimatedUsd, e.realOutput, e.reported, e.pending)
  }

  function AccountOf(b: Books, key: Key): Account {
    if key in b.ledger.entries then AccountOfEntry(b.ledger.entries[key])
    else Account(0.0, 0.0, 0.0, Tokens(0, 0), Tokens(0, 0), Tokens(0, 0))
  }

  /** How far `n` goes beyond `limit`. */
  function Beyond(n: nat, limit: nat): nat {
    if n > limit then n - limit else 0
  }

  /** A booking's output: whole tokens, reasoning a part of them. */
  function OutputIn(e: Event): nat
    requires e.TurnEnded? || e.StepEstimated? || e.TurnBilled?
  {
    WholeTokens(e.output.output)
  }

  function ReasoningIn(e: Event): nat
    requires e.TurnEnded? || e.StepEstimated? || e.TurnBilled?
  {
    Min(OutputIn(e), WholeTokens(e.output.reasoning))
  }

  /** A cost that is no positive number counts as nothing. */
  function UsdIn(e: Event): real
    requires e.TurnEnded? || e.StepEstimated? || e.TurnBilled?
  {
    if e.usd.Finite? && e.usd.value > 0.0 then e.usd.value else 0.0
  }

  /** A `TurnEnded` whose cost is no number at least zero is not booked at all. */
  predicate Unpriced(e: Event) {
    e.TurnEnded? && (e.usd.NonFinite? || e.usd.value < 0.0)
  }

  /** The account after a booking of one of its Runs, of whose cost estimates it
      holds `own`. A `TurnEnded` replaces the Run's own estimates: only output
      beyond them becomes pending. An estimate is reported at once. The turn's bill
      takes what it reports off what is pending. */
  function Booking(a: Account, own: real, r: Run, e: Event): Account
    requires e.TurnEnded? || e.StepEstimated? || e.TurnBilled?
  {
    var out, think := OutputIn(e), ReasoningIn(e);
    if Unpriced(e) then a
    else
      match e
      case TurnEnded(_, _, _) =>
        var more := Beyond(out, r.output);
        a.(cost := a.cost + UsdIn(e), estimated := a.estimated - own,
           measured := Tokens(a.measured.output + out, a.measured.reasoning + think),
           pending := Tokens(a.pending.output + more, a.pending.reasoning + Min(more, Beyond(think, r.reasoning))))
      case StepEstimated(_, _, _) =>
        a.(billed := a.billed + UsdIn(e), estimated := a.estimated + UsdIn(e),
           reported := Tokens(a.reported.output + out, a.reported.reasoning + think))
      case TurnBilled(_, _, _) =>
        var left := Beyond(a.pending.output, out);
        a.(billed := a.billed + UsdIn(e),
           reported := Tokens(a.reported.output + out, a.reported.reasoning + think),
           pending := Tokens(left, Min(left, Beyond(a.pending.reasoning, think))))
  }

  lemma BookedAccount(o: Entry, r: Run, e: Event)
    requires Counts(e)
    requires r.epoch == Some(o.epoch) ==> o.estimatedUsd >= r.estimatedUsd
    requires o.estimatedUsd >= 0.0
    ensures AccountOfEntry(Booked(o, r, e).0) == Booking(AccountOfEntry(o), if r.epoch == Some(o.epoch) then r.estimatedUsd else 0.0, r, e)
  {}

  lemma IgnoredBooking(a: Account, own: real, r: Run, e: Event)
    requires (e.TurnEnded? || e.StepEstimated? || e.TurnBilled?) && !Counts(e) && a.pending.reasoning <= a.pending.output
    ensures Booking(a, own, r, e) == a
  {}

  predicate BookedTo(b: Books, e: Event, key: Key) {
    (e.TurnEnded? || e.StepEstimated? || e.TurnBilled?) && e.run < |b.runs| && b.runs[e.run].key == key
  }

  /** What of a Run's cost estimates the session's entry holds. */
  function OwnEstimate(b: Books, run: nat, key: Key): real
    requires run < |b.runs|
  {
    if key in b.ledger.entries && b.runs[run].epoch == Some(b.ledger.entries[key].epoch) then b.runs[run].estimatedUsd else 0.0
  }

  /** Each booking changes its own session's account in this way and no other's,
      unless the account is evicted. */
  lemma BookingEffect(b: Books, e: Event, key: Key)
    requires BooksInv(b) && Enabled(b, e) && key !in Next(b, e).evicted
    ensures AccountOf(Next(b, e), key) ==
            if BookedTo(b, e, key) then Booking(AccountOf(b, key), OwnEstimate(b, e.run, key), b.runs[e.run], e)
            else AccountOf(b, key)
  {
    if e.Opened? || e.Replaced? {
    } else if !Counts(e) {
      IgnoredChangesNothing(b, e);
      if BookedTo(b, e, key) {
        IgnoredBooking(AccountOf(b, key), OwnEstimate(b, e.run, key), b.runs[e.run], e);
      }
    } else {
      var own := b.runs[e.run].key;
      CurrentKeeps(b, own);
      PostIsPosted(b, e);
      CurrentAccount(b, own, key);
      PostedAccount(Current(b, own), e, key);
      CurrentKeepsEpoch(b, e.run, own);
    }
  }

  lemma CurrentAccount(b: Books, own: Key, key: Key)
    requires BooksInv(b) && key !in Current(b, own).evicted
    ensures AccountOf(Current(b, own), key) == AccountOf(b, key)
  {
    TouchKeeps(b.ledger, own);
  }

  lemma PostedAccount(b: Books, e: Event, key: Key)
    requires BooksInv(b) && Enabled(b, e) && Counts(e) && b.runs[e.run].key in b.ledger.entries
    ensures var own := b.runs[e.run].key;
            var (entry, r) := Booked(b.ledger.entries[own], b.runs[e.run], e);
            AccountOf(Posted(b, own, entry, e.run, r), key) ==
            if key == own then Booking(AccountOf(b, key), OwnEstimate(b, e.run, key), b.runs[e.run], e) else AccountOf(b, key)
  {
    var own := b.runs[e.run].key;
    ClampNeverBites(b, e.run);
    EstimatesCover(b.runs, e.run, b.ledger.entries[own].epoch);
    BookedAccount(b.ledger.entries[own], b.runs[e.run], e);
  }

  // ------------------------------------------------------------------- the Runs

  /** The Run after an event that names it; `mine` says whether the session's
      present entry holds its cost estimates. */
  function RunAfter(r: Run, mine: bool, entry: nat, e: Event): Run
    requires !e.Opened?
  {
    match e
    case TurnEnded(_, _, _) => if Unpriced(e) then r else Run(r.key, 0.0, 0, 0, r.epoch)
    case StepEstimated(_, _, _) =>
      if UsdIn(e) == 0.0 && OutputIn(e) == 0 then r
      else Run(r.key, (if mine then r.estimatedUsd else 0.0) + UsdIn(e), r.output + OutputIn(e), r.reasoning + ReasoningIn(e), Some(entry))
    case TurnBilled(_, _, _) => r
    case Replaced(_) => Run(r.key, 0.0, 0, 0, None)
  }

  /** The entry that an event of this Run's session is booked to: the present one,
      or the one made for it. */
  function EntryFor(b: Books, key: Key): nat {
    if key in b.ledger.entries then b.ledger.entries[key].epoch else b.ledger.nextEpoch
  }

  /** Only the Run an event names changes: it starts with no estimates, collects
      what its steps report, and loses all of it when its own counters arrive or
      another stream takes over. */
  lemma RunEffect(b: Books, e: Event)
    requires BooksInv(b) && Enabled(b, e)
    ensures Next(b, e).runs ==
            if e.Opened? then b.runs + [Run(e.key, 0.0, 0, 0, None)]
            else
              var r := b.runs[e.run];
              b.runs[e.run := RunAfter(r, r.epoch == Some(EntryFor(b, r.key)), EntryFor(b, r.key), e)]
  {
    if e.Opened? || e.Replaced? {
    } else if !Counts(e) {
      IgnoredChangesNothing(b, e);
      IgnoredRun(b.runs[e.run], EntryFor(b, b.runs[e.run].key), e);
      assert b.runs[e.run := b.runs[e.run]] == b.runs;
    } else {
      var own := b.runs[e.run].key;
      CurrentKeeps(b, own);
      CurrentEntry(b, own);
      PostIsPosted(b, e);
      BookedRun(Current(b, own).ledger.entries[own], b.runs[e.run], e);
    }
  }

  lemma BookedRun(o: Entry, r: Run, e: Event)
    requires Counts(e)
    ensures Booked(o, r, e).1 == RunAfter(r, r.epoch == Some(o.epoch), o.epoch, e)
  {}

  lemma IgnoredRun(r: Run, entry: nat, e: Event)
    requires !e.Opened? && !e.Replaced? && !Counts(e)
    ensures RunAfter(r, r.epoch == Some(entry), entry, e) == r
  {}

  lemma CurrentEntry(b: Books, own: Key)
    requires BooksInv(b)
    ensures own in Current(b, own).ledger.entries && Current(b, own).ledger.entries[own].epoch == EntryFor(b, own)
  {
    TouchKeeps(b.ledger, own);
  }

  // ------------------------------------------------------------------ output laws

  /** What the Runs of one session estimate in reasoning tokens. */
  function ReasoningOfKey(runs: seq<Run>, key: Key): nat {
    if runs == [] then 0 else (if runs[0].key == key then runs[0].reasoning else 0) + ReasoningOfKey(runs[1..], key)
  }

  lemma {:induction false} ReasoningUpdate(runs: seq<Run>, i: nat, r: Run, key: Key)
    requires i < |runs|
    ensures ReasoningOfKey(runs[i := r], key)
            == ReasoningOfKey(runs, key) - (if runs[i].key == key then runs[i].reasoning else 0) + (if r.key == key then r.reasoning else 0)
  {
    if i > 0 {
      ReasoningUpdate(runs[1..], i - 1, r, key);
      assert runs[i := r][1..] == runs[1..][i - 1 := r];
    } else {
      assert runs[i := r][1..] == runs[1..];
    }
  }

  lemma {:induction false} ReasoningAppend(runs: seq<Run>, r: Run, key: Key)
    requires r.reasoning == 0
    ensures ReasoningOfKey(runs + [r], key) == ReasoningOfKey(runs, key)
  {
    if runs != [] {
      ReasoningAppend(runs[1..], r, key);
      assert (runs + [r])[1..] == runs[1..] + [r];
    }
  }

  /** Reported and pending output beyond what was measured and what live Runs estimate. */
  function OutputSurplus(b: Books, key: Key): int {
    var a := AccountOf(b, key);
    a.reported.output + a.pending.output - a.measured.output - OutputOfKey(b.runs, key)
  }

  function ReasoningSurplus(b: Books, key: Key): int {
    var a := AccountOf(b, key);
    a.reported.reasoning + a.pending.reasoning - a.measured.reasoning - ReasoningOfKey(b.runs, key)
  }

  /** The surplus an event adds: what a Run estimated beyond what was measured, what
      a turn's bill reports beyond what was pending, and the estimates of a stream
      that is replaced. */
  function OutputGain(b: Books, e: Event, key: Key): int
    requires Enabled(b, e)
  {
    if e.Opened? || b.runs[e.run].key != key then 0
    else
      var r := b.runs[e.run];
      match e
      case TurnEnded(_, _, _) => if Unpriced(e) then 0 else Beyond(r.output, OutputIn(e))
      case StepEstimated(_, _, _) => 0
      case TurnBilled(_, _, _) => Beyond(OutputIn(e), AccountOf(b, key).pending.output)
      case Replaced(_) => r.output
  }

  /** The same for reasoning, which is pending only within the pending output. */
  function ReasoningGain(b: Books, e: Event, key: Key): int
    requires Enabled(b, e)
  {
    if e.Opened? || b.runs[e.run].key != key then 0
    else
      var r, a := b.runs[e.run], AccountOf(b, key);
      match e
      case TurnEnded(_, _, _) =>
        if Unpriced(e) then 0
        else r.reasoning + Min(Beyond(OutputIn(e), r.output), Beyond(ReasoningIn(e), r.reasoning)) - ReasoningIn(e)
      case StepEstimated(_, _, _) => 0
      case TurnBilled(_, _, _) =>
        ReasoningIn(e) + Min(Beyond(a.pending.output, OutputIn(e)), Beyond(a.pending.reasoning, ReasoningIn(e))) - a.pending.reasoning
      case Replaced(_) => r.reasoning
  }

  /** The live estimates of a session before and after an event. */
  lemma LiveEstimates(b: Books, e: Event, key: Key)
    requires BooksInv(b) && Enabled(b, e)
    ensures var n := Next(b, e);
            if e.Opened? then OutputOfKey(n.runs, key) == OutputOfKey(b.runs, key) && ReasoningOfKey(n.runs, key) == ReasoningOfKey(b.runs, key)
            else
              var r := b.runs[e.run];
              var s := RunAfter(r, r.epoch == Some(EntryFor(b, r.key)), EntryFor(b, r.key), e);
              && OutputOfKey(n.runs, key) == OutputOfKey(b.runs, key) + (if r.key == key then s.output - r.output else 0)
              && ReasoningOfKey(n.runs, key) == ReasoningOfKey(b.runs, key) + (if r.key == key then s.reasoning - r.reasoning else 0)
  {
    RunEffect(b, e);
    if e.Opened? {
      AppendRun(b.runs, Run(e.key, 0.0, 0, 0, None), 0, key);
      ReasoningAppend(b.runs, Run(e.key, 0.0, 0, 0, None), key);
    } else {
      var r := b.runs[e.run];
      var s := RunAfter(r, r.epoch == Some(EntryFor(b, r.key)), EntryFor(b, r.key), e);
      OutputUpdate(b.runs, e.run, s, key);
      ReasoningUpdate(b.runs, e.run, s, key);
    }
  }

  /** One event changes a session's surplus by exactly its gain. */
  lemma SurplusChanges(b: Books, e: Event, key: Key)
    requires BooksInv(b) && Enabled(b, e) && key !in Next(b, e).evicted
    ensures OutputSurplus(Next(b, e), key) == OutputSurplus(b, key) + OutputGain(b, e, key)
    ensures ReasoningSurplus(Next(b, e), key) == ReasoningSurplus(b, key) + ReasoningGain(b, e, key)
  {
    LiveEstimates(b, e, key);
    BookingEffect(b, e, key);
  }

  function TotalOutputGain(b: Books, events: seq<Event>, key: Key): int
    requires Possible(b, events)
    decreases |events|
  {
    if events == [] then 0 else OutputGain(b, events[0], key) + TotalOutputGain(Next(b, events[0]), events[1..], key)
  }

  function TotalReasoningGain(b: Books, events: seq<Event>, key: Key): int
    requires Possible(b, events)
    decreases |events|
  {
    if events == [] then 0 else ReasoningGain(b, events[0], key) + TotalReasoningGain(Next(b, events[0]), events[1..], key)
  }

  /** Over any run in which the session is not evicted, output and reasoning are
      conserved: what was reported and is pending is what was measured and is
      estimated, plus exactly the gains. */
  lemma {:induction false} OutputConserved(b: Books, events: seq<Event>, key: Key)
    requires BooksInv(b) && Possible(b, events) && key !in Trace(b, events).evicted
    ensures OutputSurplus(Trace(b, events), key) == OutputSurplus(b, key) + TotalOutputGain(b, events, key)
    ensures ReasoningSurplus(Trace(b, events), key) == ReasoningSurplus(b, key) + TotalReasoningGain(b, events, key)
    decreases |events|
  {
    if events != [] {
      NextKeepsBooks(b, events[0]);
      TraceKeepsBooks(Next(b, events[0]), events[1..]);
      SurplusChanges(b, events[0], key);
      OutputConserved(Next(b, events[0]), events[1..], key);
    }
  }

  // -------------------------------------------------------------- which one goes

  ghost predicate Before(order: seq<Key>, x: Key, y: Key) {
    exists i, j :: 0 <= i < j < |order| && order[i] == x && order[j] == y
  }

  lemma {:induction false} WithoutKeepsOrder(order: seq<Key>, key: Key, x: Key, y: Key)
    requires Before(order, x, y) && x != key && y != key
    ensures Before(Without(order, key), x, y)
  {
    var i, j :| 0 <= i < j < |order| && order[i] == x && order[j] == y;
    var r := Without(order, key);
    if i == 0 {
      assert order[1..][j - 1] == y;
      WithoutHas(order[1..], key, y);
      var k :| 0 <= k < |Without(order[1..], key)| && Without(order[1..], key)[k] == y;
      assert r[0] == x && r[k + 1] == y;
    } else {
      assert order[1..][i - 1] == x && order[1..][j - 1] == y;
      WithoutKeepsOrder(order[1..], key, x, y);
      var k, l :| 0 <= k < l < |Without(order[1..], key)| && Without(order[1..], key)[k] == x && Without(order[1..], key)[l] == y;
      if order[0] != key {
        assert r[k + 1] == x && r[l + 1] == y;
      }
    }
  }

  lemma {:induction false} WithoutHas(order: seq<Key>, key: Key, x: Key)
    requires x in order && x != key
    ensures x in Without(order, key)
  {
    if order[0] != x {
      WithoutHas(order[1..], key, x);
    }
  }

  /** A booked session becomes the most recently used one; the others keep their
      order, and only the least recently used one may go, when the ledger is full
      and the session is new. */
  lemma TouchMoves(l: Ledger, key: Key)
    requires LedgerInv(l)
    ensures var r := Touch(l, key);
            && r.order != [] && r.order[|r.order| - 1] == key
            && (forall x, y | Before(l.order, x, y) && x != key && y != key && x in r.entries :: Before(r.order, x, y))
            && (forall x | x in l.entries && x !in r.entries :: key !in l.entries && |l.order| == MAX_LEDGERS && x == l.order[0])
  {
    var r := Touch(l, key);
    TouchKeeps(l, key);
    if key in l.entries {
      forall x, y | Before(l.order, x, y) && x != key && y != key ensures Before(r.order, x, y) {
        WithoutKeepsOrder(l.order, key, x, y);
        BeforeStays(Without(l.order, key), key, x, y);
      }
    } else {
      EvictKeeps(l);
      var e := Evict(l);
      TouchNew(l, key);
      forall x, y | Before(l.order, x, y) && x in r.entries && x != key ensures Before(r.order, x, y) {
        EvictKeepsOrder(l, x, y);
        BeforeStays(e.order, key, x, y);
      }
    }
  }

  lemma BeforeStays(order: seq<Key>, key: Key, x: Key, y: Key)
    requires Before(order, x, y)
    ensures Before(order + [key], x, y)
  {
    var i, j :| 0 <= i < j < |order| && order[i] == x && order[j] == y;
    assert (order + [key])[i] == x && (order + [key])[j] == y;
  }

  lemma EvictKeepsOrder(l: Ledger, x: Key, y: Key)
    requires LedgerInv(l) && Before(l.order, x, y) && x in Evict(l).entries
    ensures Before(Evict(l).order, x, y)
  {
    EvictKeeps(l);
    var i, j :| 0 <= i < j < |l.order| && l.order[i] == x && l.order[j] == y;
    if |l.order| == MAX_LEDGERS {
      var one := l.(entries := l.entries - {l.order[0]}, order := l.order[1..]);
      assert Evict(one) == one;
      assert i > 0;
      assert one.order[i - 1] == x && one.order[j - 1] == y;
    }
  }
}
