/** The billing ledger (src/billing.ts, `BillingLedger`): per host session, what
    Cursor measured and what the provider reported, with each Run's estimates
    kept beside it until that Run's own counters replace them.

    A ledger entry is an object in the source and a Run remembers which entry
    holds its cost estimates by identity; here an entry carries an `epoch` that
    no other entry ever has. */
module BillingLedger {

  import opened StepUsage

  type Key = string

  const MAX_LEDGERS: nat := 1024

  datatype Tokens = Tokens(output: nat, reasoning: nat)

  datatype RawTokens = RawTokens(output: Num, reasoning: Num)

  datatype Entry = Entry(
    epoch: nat,
    realUsd: real,
    billedUsd: real,
    estimatedUsd: real,
    realOutput: Tokens,
    reported: Tokens,
    pending: Tokens)

  /** `order` lists the keys as the source's map does: least recently used first. */
  datatype Ledger = Ledger(entries: map<Key, Entry>, order: seq<Key>, nextEpoch: nat)

  /** A Run's estimates; absent fields of the source read as zero. */
  datatype Run = Run(key: Key, estimatedUsd: real, output: nat, reasoning: nat, epoch: Option<nat>)

  const EMPTY := Ledger(map[], [], 0)

  function Plus(a: Tokens, b: Tokens): Tokens {
    Tokens(a.output + b.output, a.reasoning + b.reasoning)
  }

  /** What is left of `n` after `taken`, never below zero. */
  function Less(n: nat, taken: nat): nat {
    if n >= taken then n - taken else 0
  }

  function Least(a: nat, b: nat): nat {
    if a <= b then a else b
  }

  function OutputTokens(raw: RawTokens): Tokens {
    Tokens(WholeTokens(raw.output), Least(WholeTokens(raw.output), WholeTokens(raw.reasoning)))
  }

  function Amount(usd: Num): real {
    if usd.Finite? && usd.value > 0.0 then usd.value else 0.0
  }

  // --------------------------------------------------------------- the entries

  function Without(order: seq<Key>, key: Key): seq<Key> {
    if order == [] then []
    else if order[0] == key then Without(order[1..], key)
    else [order[0]] + Without(order[1..], key)
  }

  function Evict(l: Ledger): Ledger
    decreases |l.order|
  {
    if |l.order| < MAX_LEDGERS then l
    else Evict(l.(entries := l.entries - {l.order[0]}, order := l.order[1..]))
  }

  /** The entry of `key`, made most recently used, and made if it is missing. */
  function Touch(l: Ledger, key: Key): Ledger {
    if key in l.entries then l.(order := Without(l.order, key) + [key])
    else
      var e := Evict(l);
      Ledger(e.entries[key := NewEntry(e.nextEpoch)],
             e.order + [key], e.nextEpoch + 1)
  }

  ghost predicate LedgerInv(l: Ledger) {
    && (forall i, j :: 0 <= i < j < |l.order| ==> l.order[i] != l.order[j])
    && (forall k :: k in l.order <==> k in l.entries)
    && |l.order| <= MAX_LEDGERS
    && (forall k | k in l.entries :: l.entries[k].epoch < l.nextEpoch)
    && (forall k, k' | k in l.entries && k' in l.entries && k != k' :: l.entries[k].epoch != l.entries[k'].epoch)
  }

  lemma {:induction false} WithoutKeeps(order: seq<Key>, key: Key)
    requires forall i, j :: 0 <= i < j < |order| ==> order[i] != order[j]
    ensures var r := Without(order, key);
            && (forall i, j :: 0 <= i < j < |r| ==> r[i] != r[j])
            && (forall k :: k in r <==> k in order && k != key)
            && |r| == if key in order then |order| - 1 else |order|
  {
    if order != [] {
      WithoutKeeps(order[1..], key);
      assert forall k :: k in order <==> k == order[0] || k in order[1..];
      assert order[0] !in order[1..];
      assert order[0] !in Without(order[1..], key);
    }
  }

  /** Eviction drops the least recently used keys and changes nothing else. */
  lemma EvictKeeps(l: Ledger)
    requires LedgerInv(l)
    ensures LedgerInv(Evict(l)) && |Evict(l).order| < MAX_LEDGERS
    ensures Evict(l).nextEpoch == l.nextEpoch
    ensures forall k | k in Evict(l).entries :: k in l.entries && Evict(l).entries[k] == l.entries[k]
    ensures |l.order| < MAX_LEDGERS ==> Evict(l) == l
    ensures |l.order| == MAX_LEDGERS ==> Evict(l).entries == l.entries - {l.order[0]}
    decreases |l.order|
  {
    if |l.order| == MAX_LEDGERS {
      var one := l.(entries := l.entries - {l.order[0]}, order := l.order[1..]);
      assert forall k :: k in l.order <==> k == l.order[0] || k in l.order[1..];
      assert LedgerInv(one);
      assert Evict(one) == one;
    }
  }

  const FRESH := Tokens(0, 0)

  function NewEntry(epoch: nat): Entry {
    Entry(epoch, 0.0, 0.0, 0.0, FRESH, FRESH, FRESH)
  }

  lemma TouchKnown(l: Ledger, key: Key)
    requires LedgerInv(l) && key in l.entries
    ensures LedgerInv(Touch(l, key)) && Touch(l, key).entries == l.entries && Touch(l, key).nextEpoch == l.nextEpoch
  {
    var r := Touch(l, key);
    WithoutKeeps(l.order, key);
    assert forall k :: k in r.order <==> k in Without(l.order, key) || k == key;
  }

  lemma AppendDistinct(order: seq<Key>, key: Key)
    requires (forall i, j :: 0 <= i < j < |order| ==> order[i] != order[j]) && key !in order
    ensures forall i, j :: 0 <= i < j < |order + [key]| ==> (order + [key])[i] != (order + [key])[j]
    ensures forall k :: k in order + [key] <==> k in order || k == key
  {}

  lemma TouchNew(l: Ledger, key: Key)
    requires LedgerInv(l) && key !in l.entries
    ensures var r := Touch(l, key);
            && LedgerInv(r) && r.nextEpoch == l.nextEpoch + 1
            && r.entries == Evict(l).entries[key := NewEntry(l.nextEpoch)]
  {
    EvictKeeps(l);
    var e := Evict(l);
    AppendDistinct(e.order, key);
  }

  /** Making an entry current changes no other entry, beyond the eviction. */
  lemma TouchKeeps(l: Ledger, key: Key)
    requires LedgerInv(l)
    ensures var r := Touch(l, key);
            && LedgerInv(r) && key in r.entries && r.nextEpoch >= l.nextEpoch
            && (forall k | k in r.entries && k != key :: k in l.entries && r.entries[k] == l.entries[k])
            && (key in l.entries ==> r.entries == l.entries)
            && (key !in l.entries ==> r.entries[key] == NewEntry(l.nextEpoch))
  {
    if key in l.entries {
      TouchKnown(l, key);
    } else {
      EvictKeeps(l);
      TouchNew(l, key);
    }
  }

  // ---------------------------------------------------------------- operations

  function Settle(r: Run): Run {
    r.(estimatedUsd := 0.0, output := 0, reasoning := 0)
  }

  /** `recordReal`'s effect on the entry. */
  function Measured(e: Entry, usd: real, run: Option<Run>, measured: Tokens): Entry {
    var own := if run.Some? && run.value.epoch == Some(e.epoch) then run.value.estimatedUsd else 0.0;
    var estimates := if run.Some? then Tokens(run.value.output, run.value.reasoning) else Tokens(0, 0);
    var remaining := Less(measured.output, estimates.output);
    e.(realUsd := e.realUsd + usd,
       realOutput := Plus(e.realOutput, measured),
       estimatedUsd := MaxReal(0.0, e.estimatedUsd - own),
       pending := Plus(e.pending, Tokens(remaining, Least(remaining, Less(measured.reasoning, estimates.reasoning)))))
  }

  /** A Run's `TurnEnded`: its cost and output replace its estimates. */
  function RecordReal(l: Ledger, key: Key, usd: Num, run: Option<Run>, raw: RawTokens): (Ledger, Option<Run>) {
    if usd.NonFinite? || usd.value < 0.0 then (l, run)
    else
      var t := Touch(l, key);
      if key !in t.entries then (t, run)
      else (t.(entries := t.entries[key := Measured(t.entries[key], usd.value, run, OutputTokens(raw))]),
            if run.Some? then Some(Settle(run.value)) else None)
  }

  /** `recordBilled`'s effect on the entry. */
  function Reported(e: Entry, billed: real, estimate: bool, reported: Tokens): Entry {
    var b := e.(billedUsd := e.billedUsd + billed, reported := Plus(e.reported, reported));
    if estimate then b.(estimatedUsd := e.estimatedUsd + billed)
    else
      var left := Less(e.pending.output, reported.output);
      b.(pending := Tokens(left, Least(left, Less(e.pending.reasoning, reported.reasoning))))
  }

  function Estimated(r: Run, epoch: nat, billed: real, reported: Tokens): Run {
    var before := if r.epoch == Some(epoch) then r.estimatedUsd else 0.0;
    r.(estimatedUsd := before + billed, output := r.output + reported.output,
       reasoning := r.reasoning + reported.reasoning, epoch := Some(epoch))
  }

  /** A step delivered to the host; with a Run, its amounts are that Run's estimates. */
  function RecordBilled(l: Ledger, key: Key, usd: Num, run: Option<Run>, raw: RawTokens): (Ledger, Option<Run>) {
    var billed, reported := Amount(usd), OutputTokens(raw);
    if billed <= 0.0 && reported.output == 0 then (l, run)
    else
      var t := Touch(l, key);
      if key !in t.entries then (t, run)
      else (t.(entries := t.entries[key := Reported(t.entries[key], billed, run.Some?, reported)]),
            if run.Some? then Some(Estimated(run.value, t.entries[key].epoch, billed, reported)) else None)
  }

  /** Confirmed plus unconfirmed cost minus the amount reported to the host. */
  function Outstanding(l: Ledger, key: Key): real {
    if key in l.entries then l.entries[key].realUsd + l.entries[key].estimatedUsd - l.entries[key].billedUsd else 0.0
  }

  function OutstandingOutput(l: Ledger, key: Key): Tokens {
    if key in l.entries then l.entries[key].pending else Tokens(0, 0)
  }

  // ------------------------------------------------------- ledger and its Runs

  /** The ledger with every Run that was ever opened, and the keys whose entry
      was evicted at some time. */
  datatype Books = Books(ledger: Ledger, runs: seq<Run>, evicted: set<Key>)

  datatype Event =
    | Opened(key: Key)
      /** `run` is an index into the Runs; its session's key is the one charged. */
    | TurnEnded(run: nat, usd: Num, output: RawTokens)
    | StepEstimated(run: nat, usd: Num, output: RawTokens)
    | TurnBilled(run: nat, usd: Num, output: RawTokens)
      /** `replaceStream`: the session keeps its totals, the new Run its own estimates. */
    | Replaced(run: nat)

  predicate Enabled(b: Books, e: Event) {
    e.Opened? || e.run < |b.runs|
  }

  function Post(b: Books, run: nat, result: (Ledger, Option<Run>)): Books
    requires run < |b.runs|
  {
    Books(result.0,
          if result.1.Some? then b.runs[run := result.1.value] else b.runs,
          b.evicted + (b.ledger.entries.Keys - result.0.entries.Keys))
  }

  function Next(b: Books, e: Event): Books
    requires Enabled(b, e)
  {
    match e
    case Opened(key) => b.(runs := b.runs + [Run(key, 0.0, 0, 0, None)])
    case TurnEnded(run, usd, raw) => Post(b, run, RecordReal(b.ledger, b.runs[run].key, usd, Some(b.runs[run]), raw))
    case StepEstimated(run, usd, raw) => Post(b, run, RecordBilled(b.ledger, b.runs[run].key, usd, Some(b.runs[run]), raw))
    case TurnBilled(run, usd, raw) => Post(b, run, RecordBilled(b.ledger, b.runs[run].key, usd, None, raw))
    case Replaced(run) => b.(runs := b.runs[run := Settle(b.runs[run]).(epoch := None)])
  }

  /** What the Runs of one epoch estimate in USD. */
  function EstimatesOf(runs: seq<Run>, epoch: nat): real {
    if runs == [] then 0.0
    else (if runs[0].epoch == Some(epoch) then runs[0].estimatedUsd else 0.0) + EstimatesOf(runs[1..], epoch)
  }

  /** What the Runs of one session estimate in output tokens. */
  function OutputOfKey(runs: seq<Run>, key: Key): nat {
    if runs == [] then 0 else (if runs[0].key == key then runs[0].output else 0) + OutputOfKey(runs[1..], key)
  }

  lemma {:induction false} EstimatesUpdate(runs: seq<Run>, i: nat, r: Run, epoch: nat)
    requires i < |runs|
    ensures EstimatesOf(runs[i := r], epoch)
            == EstimatesOf(runs, epoch) - (if runs[i].epoch == Some(epoch) then runs[i].estimatedUsd else 0.0)
               + (if r.epoch == Some(epoch) then r.estimatedUsd else 0.0)
  {
    if i > 0 {
      EstimatesUpdate(runs[1..], i - 1, r, epoch);
      assert runs[i := r][1..] == runs[1..][i - 1 := r];
    } else {
      assert runs[i := r][1..] == runs[1..];
    }
  }

  lemma {:induction false} OutputUpdate(runs: seq<Run>, i: nat, r: Run, key: Key)
    requires i < |runs|
    ensures OutputOfKey(runs[i := r], key)
            == OutputOfKey(runs, key) - (if runs[i].key == key then runs[i].output else 0) + (if r.key == key then r.output else 0)
  {
    if i > 0 {
      OutputUpdate(runs[1..], i - 1, r, key);
      assert runs[i := r][1..] == runs[1..][i - 1 := r];
    } else {
      assert runs[i := r][1..] == runs[1..];
    }
  }

  lemma {:induction false} AppendRun(runs: seq<Run>, r: Run, epoch: nat, key: Key)
    requires r.epoch == None && r.output == 0
    ensures EstimatesOf(runs + [r], epoch) == EstimatesOf(runs, epoch)
    ensures OutputOfKey(runs + [r], key) == OutputOfKey(runs, key)
  {
    if runs != [] {
      AppendRun(runs[1..], r, epoch, key);
      assert (runs + [r])[1..] == runs[1..] + [r];
    }
  }

  lemma {:induction false} EstimatesFresh(runs: seq<Run>, epoch: nat)
    requires forall i | 0 <= i < |runs| :: runs[i].epoch != Some(epoch)
    ensures EstimatesOf(runs, epoch) == 0.0
  {
    if runs != [] {
      EstimatesFresh(runs[1..], epoch);
    }
  }

  lemma {:induction false} EstimatesCover(runs: seq<Run>, i: nat, epoch: nat)
    requires i < |runs| && forall j | 0 <= j < |runs| :: runs[j].estimatedUsd >= 0.0
    ensures EstimatesOf(runs, epoch) >= (if runs[i].epoch == Some(epoch) then runs[i].estimatedUsd else 0.0)
    ensures EstimatesOf(runs, epoch) >= 0.0
  {
    if i > 0 {
      EstimatesCover(runs[1..], i - 1, epoch);
    } else if |runs| > 1 {
      EstimatesCover(runs[1..], 0, epoch);
    }
  }

  // ----------------------------------------------------------------- invariant

  ghost predicate RunsSound(b: Books) {
    forall i | 0 <= i < |b.runs| ::
      b.runs[i].estimatedUsd >= 0.0 && (b.runs[i].epoch.Some? ==> b.runs[i].epoch.value < b.ledger.nextEpoch)
  }

  /** An entry's estimates cover those of the Runs that hold theirs in it. */
  ghost predicate Covered(b: Books) {
    forall k | k in b.ledger.entries ::
      b.ledger.entries[k].estimatedUsd >= EstimatesOf(b.runs, b.ledger.entries[k].epoch)
  }

  ghost predicate ReasoningWithin(b: Books) {
    forall k | k in b.ledger.entries :: b.ledger.entries[k].pending.reasoning <= b.ledger.entries[k].pending.output
  }

  /** Of a session that was never evicted, all measured output and every live
      estimate is reported to the host or still pending. */
  ghost predicate OutputAccounted(b: Books) {
    && (forall k | k in b.ledger.entries && k !in b.evicted ::
          var e := b.ledger.entries[k];
          e.reported.output + e.pending.output >= e.realOutput.output + OutputOfKey(b.runs, k))
    && (forall k | k !in b.ledger.entries && k !in b.evicted :: OutputOfKey(b.runs, k) == 0)
  }

  ghost predicate BooksInv(b: Books) {
    LedgerInv(b.ledger) && RunsSound(b) && Covered(b) && ReasoningWithin(b) && OutputAccounted(b)
  }

  /** Making the entry of a Run's session current keeps the books. */
  function Current(b: Books, key: Key): Books {
    var l := Touch(b.ledger, key);
    Books(l, b.runs, b.evicted + (b.ledger.entries.Keys - l.entries.Keys))
  }

  lemma CurrentKeeps(b: Books, key: Key)
    requires BooksInv(b)
    ensures BooksInv(Current(b, key)) && key in Current(b, key).ledger.entries
  {
    var c := Current(b, key);
    TouchKeeps(b.ledger, key);
    if key !in b.ledger.entries {
      EstimatesFresh(b.runs, b.ledger.nextEpoch);
    }
    forall k | k in c.ledger.entries && k !in c.evicted
      ensures var e := c.ledger.entries[k];
              e.reported.output + e.pending.output >= e.realOutput.output + OutputOfKey(c.runs, k)
    {
      assert k in b.ledger.entries || OutputOfKey(b.runs, k) == 0;
    }
    forall k | k !in c.ledger.entries && k !in c.evicted
      ensures OutputOfKey(c.runs, k) == 0
    {
      assert k !in b.ledger.entries;
    }
  }

  /** The books after one Run's entry and the Run itself changed. */
  function Posted(b: Books, key: Key, e: Entry, run: nat, r: Run): Books
    requires run < |b.runs|
  {
    b.(ledger := b.ledger.(entries := b.ledger.entries[key := e]), runs := b.runs[run := r])
  }

  /** When changing one entry and one Run keeps the books. */
  lemma PostedKeeps(b: Books, key: Key, e: Entry, run: nat, r: Run)
    requires BooksInv(b) && run < |b.runs| && key in b.ledger.entries
    requires r.key == b.runs[run].key == key && r.estimatedUsd >= 0.0
    requires e.epoch == b.ledger.entries[key].epoch
    requires r.epoch == Some(e.epoch) || (r.epoch == b.runs[run].epoch && (r == b.runs[run] || r.estimatedUsd == 0.0))
    requires var own := if b.runs[run].epoch == Some(e.epoch) then b.runs[run].estimatedUsd else 0.0;
             var now := if r.epoch == Some(e.epoch) then r.estimatedUsd else 0.0;
             e.estimatedUsd - b.ledger.entries[key].estimatedUsd >= now - own
    requires e.pending.reasoning <= e.pending.output
    requires var o := b.ledger.entries[key];
             (e.reported.output + e.pending.output) - (o.reported.output + o.pending.output)
             >= (e.realOutput.output - o.realOutput.output) + (r.output - b.runs[run].output)
    ensures BooksInv(Posted(b, key, e, run, r))
  {
    var n := Posted(b, key, e, run, r);
    forall k | k in n.ledger.entries
      ensures n.ledger.entries[k].estimatedUsd >= EstimatesOf(n.runs, n.ledger.entries[k].epoch)
    {
      EstimatesUpdate(b.runs, run, r, n.ledger.entries[k].epoch);
    }
    forall k
      ensures OutputOfKey(n.runs, k) == OutputOfKey(b.runs, k) + if k == key then r.output - b.runs[run].output else 0
    {
      OutputUpdate(b.runs, run, r, k);
    }
    assert RunsSound(n);
  }

  lemma MeasuredKeeps(b: Books, run: nat, usd: real, measured: Tokens)
    requires BooksInv(b) && run < |b.runs| && b.runs[run].key in b.ledger.entries && usd >= 0.0
    requires measured.reasoning <= measured.output
    ensures var key := b.runs[run].key;
            BooksInv(Posted(b, key, Measured(b.ledger.entries[key], usd, Some(b.runs[run]), measured), run, Settle(b.runs[run])))
  {
    var key := b.runs[run].key;
    EstimatesCover(b.runs, run, b.ledger.entries[key].epoch);
    PostedKeeps(b, key, Measured(b.ledger.entries[key], usd, Some(b.runs[run]), measured), run, Settle(b.runs[run]));
  }

  lemma EstimatedKeeps(b: Books, run: nat, billed: real, reported: Tokens)
    requires BooksInv(b) && run < |b.runs| && b.runs[run].key in b.ledger.entries && billed >= 0.0
    ensures var key := b.runs[run].key;
            var e := b.ledger.entries[key];
            BooksInv(Posted(b, key, Reported(e, billed, true, reported), run, Estimated(b.runs[run], e.epoch, billed, reported)))
  {
    var key := b.runs[run].key;
    var e := b.ledger.entries[key];
    PostedKeeps(b, key, Reported(e, billed, true, reported), run, Estimated(b.runs[run], e.epoch, billed, reported));
  }

  lemma BilledKeeps(b: Books, run: nat, billed: real, reported: Tokens)
    requires BooksInv(b) && run < |b.runs| && b.runs[run].key in b.ledger.entries && billed >= 0.0
    ensures var key := b.runs[run].key;
            BooksInv(Posted(b, key, Reported(b.ledger.entries[key], billed, false, reported), run, b.runs[run]))
  {
    var key := b.runs[run].key;
    PostedKeeps(b, key, Reported(b.ledger.entries[key], billed, false, reported), run, b.runs[run]);
  }

  lemma ReplacedKeeps(b: Books, run: nat)
    requires BooksInv(b) && run < |b.runs|
    ensures BooksInv(Next(b, Replaced(run)))
  {
    var r := Settle(b.runs[run]).(epoch := None);
    var n := Next(b, Replaced(run));
    forall epoch
      ensures EstimatesOf(n.runs, epoch) <= EstimatesOf(b.runs, epoch)
    {
      EstimatesUpdate(b.runs, run, r, epoch);
    }
    forall k
      ensures OutputOfKey(n.runs, k) <= OutputOfKey(b.runs, k)
    {
      OutputUpdate(b.runs, run, r, k);
    }
  }

  lemma OpenedKeeps(b: Books, key: Key)
    requires BooksInv(b)
    ensures BooksInv(Next(b, Opened(key)))
  {
    var n := Next(b, Opened(key));
    var r := Run(key, 0.0, 0, 0, None);
    forall epoch
      ensures EstimatesOf(n.runs, epoch) == EstimatesOf(b.runs, epoch)
    {
      AppendRun(b.runs, r, epoch, key);
    }
    forall k
      ensures OutputOfKey(n.runs, k) == OutputOfKey(b.runs, k)
    {
      AppendRun(b.runs, r, 0, k);
    }
  }

  /** No event spends a Run's estimates twice, and none loses measured output. */
  lemma NextKeepsBooks(b: Books, e: Event)
    requires BooksInv(b) && Enabled(b, e)
    ensures BooksInv(Next(b, e))
  {
    match e
    case Opened(key) => OpenedKeeps(b, key);
    case Replaced(run) => ReplacedKeeps(b, run);
    case _ =>
      var key := b.runs[e.run].key;
      CurrentKeeps(b, key);
      if Counts(e) {
        PostIsPosted(b, e);
        BookedKeeps(Current(b, key), e);
      } else {
        IgnoredChangesNothing(b, e);
      }
  }

  lemma BookedKeeps(b: Books, e: Event)
    requires BooksInv(b) && Enabled(b, e) && Counts(e) && b.runs[e.run].key in b.ledger.entries
    ensures var key := b.runs[e.run].key;
            var (entry, r) := Booked(b.ledger.entries[key], b.runs[e.run], e);
            BooksInv(Posted(b, key, entry, e.run, r))
  {
    match e
    case TurnEnded(run, usd, raw) => MeasuredKeeps(b, run, usd.value, OutputTokens(raw));
    case StepEstimated(run, usd, raw) => EstimatedKeeps(b, run, Amount(usd), OutputTokens(raw));
    case TurnBilled(run, usd, raw) => BilledKeeps(b, run, Amount(usd), OutputTokens(raw));
  }

  predicate Counts(e: Event) {
    match e
    case TurnEnded(_, usd, _) => usd.Finite? && usd.value >= 0.0
    case StepEstimated(_, usd, raw) => Amount(usd) > 0.0 || OutputTokens(raw).output > 0
    case TurnBilled(_, usd, raw) => Amount(usd) > 0.0 || OutputTokens(raw).output > 0
    case _ => false
  }

  /** The entry and the Run after a booking. */
  function Booked(o: Entry, r: Run, e: Event): (Entry, Run)
    requires Counts(e)
  {
    match e
    case TurnEnded(_, usd, raw) => (Measured(o, usd.value, Some(r), OutputTokens(raw)), Settle(r))
    case StepEstimated(_, usd, raw) =>
      (Reported(o, Amount(usd), true, OutputTokens(raw)), Estimated(r, o.epoch, Amount(usd), OutputTokens(raw)))
    case TurnBilled(_, usd, raw) => (Reported(o, Amount(usd), false, OutputTokens(raw)), r)
  }

  lemma IgnoredChangesNothing(b: Books, e: Event)
    requires Enabled(b, e) && !e.Opened? && !e.Replaced? && !Counts(e)
    ensures Next(b, e) == b
  {
    match e
    case TurnEnded(run, usd, raw) => PostSame(b, run, Some(b.runs[run]));
    case StepEstimated(run, usd, raw) => PostSame(b, run, Some(b.runs[run]));
    case TurnBilled(run, usd, raw) => PostSame(b, run, None);
  }

  lemma PostSame(b: Books, run: nat, r: Option<Run>)
    requires run < |b.runs| && (r.Some? ==> r.value == b.runs[run])
    ensures Post(b, run, (b.ledger, r)) == b
  {
    assert b.runs[run := b.runs[run]] == b.runs;
    assert b.evicted + (b.ledger.entries.Keys - b.ledger.entries.Keys) == b.evicted;
  }

  lemma PostKnown(b: Books, run: nat, l: Ledger, key: Key, entry: Entry, r: Run)
    requires run < |b.runs| && key in l.entries
    ensures var evicted := b.evicted + (b.ledger.entries.Keys - l.entries.Keys);
            Post(b, run, (l.(entries := l.entries[key := entry]), Some(r))) == Posted(Books(l, b.runs, evicted), key, entry, run, r)
  {
    assert l.entries[key := entry].Keys == l.entries.Keys;
  }

  /** A booking that is not ignored touches the entry and then posts to it. */
  lemma PostIsPosted(b: Books, e: Event)
    requires Enabled(b, e) && !e.Opened? && !e.Replaced? && Counts(e)
    requires b.runs[e.run].key in Current(b, b.runs[e.run].key).ledger.entries
    ensures var key := b.runs[e.run].key;
            var c := Current(b, key);
            var (entry, r) := Booked(c.ledger.entries[key], b.runs[e.run], e);
            Next(b, e) == Posted(c, key, entry, e.run, r)
  {
    var key := b.runs[e.run].key;
    var c := Current(b, key);
    var (entry, r) := Booked(c.ledger.entries[key], b.runs[e.run], e);
    PostKnown(b, e.run, c.ledger, key, entry, r);
    if e.TurnBilled? {
      assert b.runs[e.run := b.runs[e.run]] == b.runs;
    }
  }

  // --------------------------------------------------------- consequences, runs

  /** The clamp of `recordReal` never bites: a Run's estimates are always held
      in full by the entry they were billed to. */
  lemma ClampNeverBites(b: Books, run: nat)
    requires BooksInv(b) && run < |b.runs|
    ensures forall k | k in b.ledger.entries && b.runs[run].epoch == Some(b.ledger.entries[k].epoch) ::
              b.ledger.entries[k].estimatedUsd >= b.runs[run].estimatedUsd
  {
    forall k | k in b.ledger.entries && b.runs[run].epoch == Some(b.ledger.entries[k].epoch)
      ensures b.ledger.entries[k].estimatedUsd >= b.runs[run].estimatedUsd
    {
      EstimatesCover(b.runs, run, b.ledger.entries[k].epoch);
    }
  }

  /** What one event changes in a session's outstanding cost. */
  function Change(b: Books, e: Event, key: Key): real
    requires Enabled(b, e)
  {
    if e.Opened? || e.Replaced? || b.runs[e.run].key != key then 0.0
    else if e.TurnEnded? then
      if e.usd.Finite? && e.usd.value >= 0.0 then
        e.usd.value - (if key in b.ledger.entries && b.runs[e.run].epoch == Some(b.ledger.entries[key].epoch)
                       then b.runs[e.run].estimatedUsd else 0.0)
      else 0.0
    else if e.TurnBilled? then -Amount(e.usd)
    else 0.0
  }

  /** Billing a Run's estimate leaves the outstanding cost as it is; a Run's
      `TurnEnded` changes it by its cost minus that Run's own estimates, and the
      turn's bill by the amount billed. Nothing else moves it, unless the entry
      is evicted. */
  lemma OutstandingChanges(b: Books, e: Event, key: Key)
    requires BooksInv(b) && Enabled(b, e) && key !in Next(b, e).evicted
    ensures Outstanding(Next(b, e).ledger, key) == Outstanding(b.ledger, key) + Change(b, e, key)
  {
    if !e.Opened? && !e.Replaced? {
      if Counts(e) {
        var own := b.runs[e.run].key;
        CurrentKeeps(b, own);
        PostIsPosted(b, e);
        CurrentKeepsOutstanding(b, own, key);
        PostedOutstanding(Current(b, own), e, key);
        CurrentKeepsEpoch(b, e.run, own);
      } else {
        IgnoredChangesNothing(b, e);
      }
    }
  }

  lemma CurrentKeepsOutstanding(b: Books, own: Key, key: Key)
    requires BooksInv(b) && key !in Current(b, own).evicted
    ensures Outstanding(Current(b, own).ledger, key) == Outstanding(b.ledger, key)
  {
    TouchKeeps(b.ledger, own);
  }

  /** No Run holds its estimates in an entry that was only just made. */
  lemma CurrentKeepsEpoch(b: Books, run: nat, own: Key)
    requires BooksInv(b) && run < |b.runs|
    ensures own in Current(b, own).ledger.entries
    ensures b.runs[run].epoch == Some(Current(b, own).ledger.entries[own].epoch)
            <==> own in b.ledger.entries && b.runs[run].epoch == Some(b.ledger.entries[own].epoch)
  {
    TouchKeeps(b.ledger, own);
  }

  lemma PostedOutstanding(b: Books, e: Event, key: Key)
    requires BooksInv(b) && Enabled(b, e) && Counts(e) && b.runs[e.run].key in b.ledger.entries
    ensures var own := b.runs[e.run].key;
            var (entry, r) := Booked(b.ledger.entries[own], b.runs[e.run], e);
            Outstanding(Posted(b, own, entry, e.run, r).ledger, key) == Outstanding(b.ledger, key) + Change(b, e, key)
  {
    var own := b.runs[e.run].key;
    var o, r := b.ledger.entries[own], b.runs[e.run];
    ClampNeverBites(b, e.run);
    EstimatesCover(b.runs, e.run, o.epoch);
    BookedChange(o, r, e);
  }

  lemma BookedChange(o: Entry, r: Run, e: Event)
    requires Counts(e) && (r.epoch == Some(o.epoch) ==> o.estimatedUsd >= r.estimatedUsd) && o.estimatedUsd >= 0.0
    ensures var n := Booked(o, r, e).0;
            n.realUsd + n.estimatedUsd - n.billedUsd == o.realUsd + o.estimatedUsd - o.billedUsd
              + match e
                case TurnEnded(_, usd, _) => usd.value - (if r.epoch == Some(o.epoch) then r.estimatedUsd else 0.0)
                case StepEstimated(_, _, _) => 0.0
                case TurnBilled(_, usd, _) => -Amount(usd)
  {}

  function Trace(b: Books, events: seq<Event>): Books
    requires Possible(b, events)
    decreases |events|
  {
    if events == [] then b else Trace(Next(b, events[0]), events[1..])
  }

  predicate Possible(b: Books, events: seq<Event>)
    decreases |events|
  {
    events != [] ==> Enabled(b, events[0]) && Possible(Next(b, events[0]), events[1..])
  }

  function TotalChange(b: Books, events: seq<Event>, key: Key): real
    requires Possible(b, events)
    decreases |events|
  {
    if events == [] then 0.0 else Change(b, events[0], key) + TotalChange(Next(b, events[0]), events[1..], key)
  }

  lemma {:induction false} TraceKeepsBooks(b: Books, events: seq<Event>)
    requires BooksInv(b) && Possible(b, events)
    ensures BooksInv(Trace(b, events)) && b.evicted <= Trace(b, events).evicted
    decreases |events|
  {
    if events != [] {
      NextKeepsBooks(b, events[0]);
      TraceKeepsBooks(Next(b, events[0]), events[1..]);
    }
  }

  /** Over any run of one session's books the outstanding cost is conserved: it
      is what it was, plus every measured cost less the estimates it replaced,
      less every turn's bill. */
  lemma {:induction false} OutstandingConserved(b: Books, events: seq<Event>, key: Key)
    requires BooksInv(b) && Possible(b, events) && key !in Trace(b, events).evicted
    ensures Outstanding(Trace(b, events).ledger, key) == Outstanding(b.ledger, key) + TotalChange(b, events, key)
    decreases |events|
  {
    if events != [] {
      NextKeepsBooks(b, events[0]);
      TraceKeepsBooks(Next(b, events[0]), events[1..]);
      OutstandingChanges(b, events[0], key);
      OutstandingConserved(Next(b, events[0]), events[1..], key);
    }
  }

  /** From empty books, over any run: all output Cursor measured in a session
      that was never evicted has been reported to the host or is pending for the
      next turn's end, on top of what live Runs estimated. */
  lemma MeasuredOutputIsNeverLost(events: seq<Event>, key: Key)
    requires Possible(Books(EMPTY, [], {}), events)
    ensures var b := Trace(Books(EMPTY, [], {}), events);
            && BooksInv(b)
            && (key in b.ledger.entries && key !in b.evicted ==>
                  b.ledger.entries[key].reported.output + OutstandingOutput(b.ledger, key).output
                  >= b.ledger.entries[key].realOutput.output + OutputOfKey(b.runs, key))
            && OutstandingOutput(b.ledger, key).reasoning <= OutstandingOutput(b.ledger, key).output
  {
    TraceKeepsBooks(Books(EMPTY, [], {}), events);
  }

  /** A Run that ends takes nothing from the output another Run left pending,
      whatever it estimated. */
  lemma EndingNeverConsumes(b: Books, e: Event, key: Key)
    requires BooksInv(b) && Enabled(b, e) && e.TurnEnded? && key !in Next(b, e).evicted
    ensures OutstandingOutput(Next(b, e).ledger, key).output >= OutstandingOutput(b.ledger, key).output
    ensures OutstandingOutput(Next(b, e).ledger, key).reasoning >= OutstandingOutput(b.ledger, key).reasoning
  {
    if Counts(e) {
      var own := b.runs[e.run].key;
      CurrentKeeps(b, own);
      TouchKeeps(b.ledger, own);
      PostIsPosted(b, e);
    } else {
      IgnoredChangesNothing(b, e);
    }
  }

  // ----------------------------------------------------------------- the class

  class RunEstimates {
    const key: Key
    var estimatedUsd: real
    var output: nat
    var reasoning: nat
    var epoch: Option<nat>

    function Model(): Run
      reads this
    {
      Run(key, estimatedUsd, output, reasoning, epoch)
    }

    constructor (key: Key)
      ensures Model() == Run(key, 0.0, 0, 0, None)
    {
      this.key, estimatedUsd, output, reasoning, epoch := key, 0.0, 0, 0, None;
    }

    /** A step was delivered: cost estimates held in another entry are given up. */
    method AddEstimate(entry: nat, billed: real, reported: Tokens)
      modifies this
      ensures Model() == Estimated(old(Model()), entry, billed, reported)
    {
      if epoch != Some(entry) {
        estimatedUsd := 0.0;
      }
      epoch := Some(entry);
      estimatedUsd, output, reasoning := estimatedUsd + billed, output + reported.output, reasoning + reported.reasoning;
    }

    /** The Run's own counters arrived. */
    method Confirm()
      modifies this
      ensures Model() == Settle(old(Model()))
    {
      estimatedUsd, output, reasoning := 0.0, 0, 0;
    }

    /** `replaceStream` on this Run's session. */
    method Replace()
      modifies this
      ensures Model() == Settle(old(Model())).(epoch := None)
    {
      estimatedUsd, output, reasoning, epoch := 0.0, 0, 0, None;
    }
  }

  class Billing {
    var entries: map<Key, Entry>
    var order: seq<Key>
    var nextEpoch: nat

    function Model(): Ledger
      reads this
    {
      Ledger(entries, order, nextEpoch)
    }

    constructor ()
      ensures Model() == EMPTY && LedgerInv(Model())
    {
      entries, order, nextEpoch := map[], [], 0;
    }

    method EntryOf(key: Key) returns (entry: Entry)
      requires LedgerInv(Model())
      modifies this
      ensures Model() == Touch(old(Model()), key) && LedgerInv(Model())
      ensures key in entries && entry == entries[key]
    {
      TouchKeeps(Model(), key);
      if key in entries {
        order := Without(order, key) + [key];
      } else {
        ghost var before := Model();
        while |order| >= MAX_LEDGERS
          invariant Evict(Model()) == Evict(before)
          decreases |order|
        {
          entries, order := entries - {order[0]}, order[1..];
        }
        entries := entries[key := NewEntry(nextEpoch)];
        order, nextEpoch := order + [key], nextEpoch + 1;
      }
      entry := entries[key];
    }

    method RecordRealCost(key: Key, usd: Num, run: RunEstimates?, raw: RawTokens)
      requires LedgerInv(Model())
      modifies this, run
      ensures var before := if run == null then None else Some(old(run.Model()));
              var (ledger, settled) := RecordReal(old(Model()), key, usd, before, raw);
              Model() == ledger && (run != null ==> settled == Some(run.Model()))
    {
      if usd.NonFinite? || usd.value < 0.0 { return; }
      ghost var before := if run == null then None else Some(run.Model());
      var entry := EntryOf(key);
      var measured := OutputTokens(raw);
      var own := if run != null && run.epoch == Some(entry.epoch) then run.estimatedUsd else 0.0;
      var remaining := Less(measured.output, if run == null then 0 else run.output);
      var thinking := Less(measured.reasoning, if run == null then 0 else run.reasoning);
      var next := entry.(
                   realUsd := entry.realUsd + usd.value,
                   realOutput := Plus(entry.realOutput, measured),
                   estimatedUsd := MaxReal(0.0, entry.estimatedUsd - own),
                   pending := Plus(entry.pending, Tokens(remaining, Least(remaining, thinking))));
      assert next == Measured(entry, usd.value, before, measured);
      entries := entries[key := next];
      if run != null {
        run.Confirm();
      }
    }

    method RecordBilledStep(key: Key, usd: Num, run: RunEstimates?, raw: RawTokens)
      requires LedgerInv(Model())
      modifies this, run
      ensures var before := if run == null then None else Some(old(run.Model()));
              var (ledger, estimated) := RecordBilled(old(Model()), key, usd, before, raw);
              Model() == ledger && (run != null ==> estimated == Some(run.Model()))
    {
      var billed := Amount(usd);
      var reported := OutputTokens(raw);
      if billed <= 0.0 && reported.output == 0 { return; }
      var entry := EntryOf(key);
      var next := entry.(billedUsd := entry.billedUsd + billed, reported := Plus(entry.reported, reported));
      if run != null {
        next := next.(estimatedUsd := entry.estimatedUsd + billed);
        run.AddEstimate(entry.epoch, billed, reported);
      } else {
        var left := Less(entry.pending.output, reported.output);
        next := next.(pending := Tokens(left, Least(left, Less(entry.pending.reasoning, reported.reasoning))));
      }
      assert next == Reported(entry, billed, run != null, reported);
      entries := entries[key := next];
    }
  }
}
