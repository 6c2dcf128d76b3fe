/** What each operation on early steers (src/host-steer.ts) does to a session's
    records, spelled out per record, what a checkpoint keeps alive, and when a
    host message carries a steer. */
module SteerEffects {

  import opened Steers

  predicate IsPromoted(r: Steer) {
    r.promoted.Some? && r.promoted.value
  }

  /** The events that go through a session's records one by one. */
  predicate Filters(e: Event) {
    e.Checkpointed? || e.TurnEnded? || e.HandedOver? || e.NeverAccepted? || e.Withdrawn? || e.Promotion? || e.NewTurn?
  }

  /** What is left of a record: a checkpoint holds what was delivered to its Run;
      `turn_ended` answers what its Run delivered, sends again what was promoted into
      it, leaves the rest to the host, and retires what other Runs answered; a
      hand-over takes along what the checkpoint holds or what was promoted, which is
      undelivered again unless checkpointed. */
  function Left(e: Event, r: Steer): Option<Steer>
    requires Filters(e)
  {
    match e
    case Checkpointed(_, run) => if r.run == run && r.delivered then Some(r.(checkpointed := true)) else Some(r)
    case TurnEnded(_, run) =>
      if r.run != run && r.answered then None
      else if r.run != run then Some(r)
      else if r.delivered then Some(r.(answered := true))
      else if IsPromoted(r) then Some(r.(delivered := true))
      else None
    case HandedOver(_, from, to) =>
      if r.run != from || r.answered then Some(r)
      else if to == None || to == Some("") then None
      else if r.checkpointed then Some(r.(run := to.value))
      else if IsPromoted(r) then Some(r.(run := to.value, delivered := false))
      else None
    case NeverAccepted(_, injection) => if r.injection != injection || r.delivered || IsPromoted(r) then Some(r) else None
    case Withdrawn(_, inbox) => if r.inbox != inbox then Some(r) else None
    case Promotion(_, injections, hostTurn) =>
      if r.injection in injections then Some(r.(promoted := Some(true), hostTurn := Some(hostTurn))) else Some(r)
    case NewTurn(_) => if r.answered then Some(r) else None
  }

  lemma LeftIs(e: Event, r: Steer)
    requires Filters(e) && Sound(r)
    ensures Becomes(FateOf(e), r) == Left(e, r)
  {}

  /** `after` is what is left of `before`, in the same order: `at` tells where each
      record comes from, and no record that is left is missing. */
  ghost predicate LeftInOrder(e: Event, before: seq<Steer>, after: seq<Steer>, at: seq<nat>)
    requires Filters(e)
  {
    && |at| == |after|
    && (forall k | 0 <= k < |at| :: at[k] < |before| && Left(e, before[at[k]]) == Some(after[k]))
    && (forall j, k | 0 <= j < k < |at| :: at[j] < at[k])
    && (forall i | 0 <= i < |before| && Left(e, before[i]).Some? :: i in at)
  }

  ghost predicate AllSound(records: seq<Steer>) {
    forall i | 0 <= i < |records| :: Sound(records[i])
  }

  lemma {:induction false} SurvivorsLeft(e: Event, records: seq<Steer>) returns (at: seq<nat>)
    requires Filters(e) && AllSound(records)
    ensures LeftInOrder(e, records, Survivors(records, FateOf(e)), at)
    decreases |records|
  {
    at := [];
    if records != [] {
      var n := |records| - 1;
      var rest := SurvivorsLeft(e, records[..n]);
      SurvivorsSnoc(records, FateOf(e), n);
      assert records[..n + 1] == records;
      LeftIs(e, records[n]);
      at := if Left(e, records[n]).Some? then rest + [n] else rest;
      LeftSnoc(e, records, Survivors(records[..n], FateOf(e)), rest);
    }
  }

  lemma LeftSnoc(e: Event, records: seq<Steer>, after: seq<Steer>, rest: seq<nat>)
    requires Filters(e) && records != [] && LeftInOrder(e, records[..|records| - 1], after, rest)
    ensures var last := Left(e, records[|records| - 1]);
            if last.Some? then LeftInOrder(e, records, after + [last.value], rest + [|records| - 1]) else LeftInOrder(e, records, after, rest)
  {
    var n := |records| - 1;
    forall i | 0 <= i < n && Left(e, records[i]).Some? ensures i in rest {
      assert records[..n][i] == records[i];
    }
    forall k | 0 <= k < |rest| ensures records[rest[k]] == records[..n][rest[k]] {}
  }

  /** Each of these events leaves every other session alone and this one with what
      is left of its records, in their order; without any the session has no entry. */
  lemma FilterEffect(t: Table, e: Event) returns (at: seq<nat>)
    requires TableInv(t) && Filters(e)
    ensures forall s | s != e.session :: (s in Next(t, e) <==> s in t) && (s in t ==> Next(t, e)[s] == t[s])
    ensures e.session !in t ==> e.session !in Next(t, e)
    ensures e.session in t ==> LeftInOrder(e, t[e.session], RecordsOf(Next(t, e), e.session), at)
    ensures e.session in Next(t, e) ==> Next(t, e)[e.session] != []
  {
    at := [];
    if e.session in t {
      at := SurvivorsLeft(e, t[e.session]);
    }
  }

  /** A new steer is kept at the end unless its session, or the table, is full. */
  lemma InjectionEffect(t: Table, r: Steer)
    ensures var (n, tracked) := Recorded(t, r);
            && (tracked <==> if r.session in t then |t[r.session]| < 32 else |t| < 256)
            && (!tracked ==> n == t)
            && (tracked ==> n == t[r.session := (if r.session in t then t[r.session] else []) + [r]])
  {}

  /** A delivery marks the first record of the injection and nothing else. */
  lemma DeliveryEffect(t: Table, s: Id, injection: Id)
    ensures var (n, found) := Delivered(t, s, injection);
            && (found <==> s in t && exists i :: 0 <= i < |t[s]| && t[s][i].injection == injection)
            && (!found ==> n == t)
            && (found ==>
                  && n.Keys == t.Keys && |n[s]| == |t[s]| && (forall x | x in t && x != s :: n[x] == t[x])
                  && forall i | 0 <= i < |t[s]| ::
                       n[s][i] == (if t[s][i].injection == injection && (forall j | 0 <= j < i :: t[s][j].injection != injection)
                                   then t[s][i].(delivered := true) else t[s][i]))
  {
    var records := RecordsOf(t, s);
    var first := FirstOf(records, injection);
    forall i | 0 <= i < |records| && records[i].injection == injection && (forall j | 0 <= j < i :: records[j].injection != injection)
      ensures i == first
    {}
  }

  // ------------------------------------------------------------ checkpointed steers

  /** What a checkpoint holds survives its Run: it is answered by that Run's
      `turn_ended`, or handed over delivered and checkpointed to the Run resumed from
      it, never sent again. */
  lemma CheckpointedSurvives(t: Table, s: Id, r: Steer, e: Event)
    requires TableInv(t) && Holds(t, s, r) && r.checkpointed && !r.answered && Filters(e) && e.session == s
    requires e.TurnEnded? || e.NeverAccepted? || e.Checkpointed? || e.Promotion? || (e.HandedOver? && e.to.Some? && e.to.value != "")
    ensures Left(e, r).Some? && Holds(Next(t, e), s, Left(e, r).value)
    ensures Left(e, r).value.checkpointed && Left(e, r).value.delivered && Left(e, r).value.injection == r.injection
    ensures e.TurnEnded? && e.run == r.run ==> Left(e, r).value == r.(answered := true)
    ensures e.HandedOver? && e.from == r.run ==> Left(e, r).value == r.(run := e.to.value)
  {
    var i :| 0 <= i < |t[s]| && t[s][i] == r;
    assert Sound(r);
    LeftIs(e, r);
    AppliedHolds(t, s, r, FateOf(e));
  }

  ghost predicate Held(t: Table, s: Id, injection: Id) {
    exists r :: Holds(t, s, r) && r.injection == injection && r.checkpointed && !r.answered
  }

  lemma KeepsHeld(t: Table, s: Id, r: Steer, e: Event)
    requires TableInv(t) && Holds(t, s, r) && r.checkpointed && !r.answered && !Ends(e, s, r)
    ensures Held(Next(t, e), s, r.injection) || Answered(Next(t, e), s, r.injection)
  {
    if e.Injected? {
      InjectedHolds(t, s, r, e.steer);
    } else if e.session != s {
      OtherSession(t, s, r, e);
    } else if e.WasDelivered? {
      var now := DeliveredHolds(t, s, r, e.injection);
    } else if e.Withdrawn? {
      AppliedHolds(t, s, r, FateOf(e));
    } else {
      CheckpointedOther(t, s, r, e);
    }
  }

  lemma OtherSession(t: Table, s: Id, r: Steer, e: Event)
    requires Holds(t, s, r) && !e.Injected? && e.session != s
    ensures Holds(Next(t, e), s, r)
  {}

  lemma CheckpointedOther(t: Table, s: Id, r: Steer, e: Event)
    requires TableInv(t) && Holds(t, s, r) && r.checkpointed && !r.answered && !Ends(e, s, r)
    requires e.Checkpointed? || e.TurnEnded? || e.HandedOver? || e.NeverAccepted? || e.Promotion?
    requires e.session == s
    ensures Held(Next(t, e), s, r.injection) || Answered(Next(t, e), s, r.injection)
  {
    var i :| 0 <= i < |t[s]| && t[s][i] == r;
    LeftIs(e, r);
    AppliedHolds(t, s, r, FateOf(e));
    var n := Left(e, r).value;
    assert n.injection == r.injection && n.checkpointed;
  }

  /** Over any run a checkpointed steer is kept until it is answered, unless the host
      withdraws it, starts a new turn or rebuilds from its history. */
  lemma {:induction false} CheckpointedWaitsForAnswer(t: Table, events: seq<Event>, s: Id, injection: Id)
    requires TableInv(t) && Possible(t, events) && Held(t, s, injection) && !EverEnds(t, events, s, injection)
    ensures Held(Run(t, events), s, injection) || EverAnswered(t, events, s, injection)
    decreases |events|
  {
    if events != [] {
      var r :| Holds(t, s, r) && r.injection == injection && r.checkpointed && !r.answered;
      NextKeepsInv(t, events[0]);
      KeepsHeld(t, s, r, events[0]);
      if Held(Next(t, events[0]), s, injection) {
        CheckpointedWaitsForAnswer(Next(t, events[0]), events[1..], s, injection);
      }
    }
  }

  // --------------------------------------------------------------- what is restored

  predicate GoodText(j: Json, name: Name) {
    j.Obj? && name in j.fields && j.fields[name].Str? && j.fields[name].s != ""
  }

  predicate GoodFlag(j: Json, name: Name) {
    j.Obj? && name in j.fields && j.fields[name].Bool?
  }

  predicate GoodTurn(s: string) {
    |s| == 64 && forall i | 0 <= i < 64 :: '0' <= s[i] <= '9' || 'a' <= s[i] <= 'f'
  }

  /** A saved record that may be read: of this session, all its texts present, its
      flags flags and consistent, and its optional parts absent or well formed. */
  predicate GoodRecord(s: Id, j: Json) {
    && j.Obj? && SessionID in j.fields && j.fields[SessionID] == Str(s)
    && GoodText(j, InboxID) && GoodText(j, InjectionId) && GoodText(j, RunID) && GoodText(j, TextOf)
    && GoodFlag(j, IsDelivered) && GoodFlag(j, IsCheckpointed) && GoodFlag(j, IsAnswered)
    && (j.fields[IsCheckpointed].b || j.fields[IsAnswered].b ==> j.fields[IsDelivered].b)
    && (Name.IsPromoted in j.fields ==> j.fields[Name.IsPromoted].Bool?)
    && (HostTurn in j.fields ==> j.fields[HostTurn].Str? && GoodTurn(j.fields[HostTurn].s))
  }

  lemma ReadRecordIff(s: Id, j: Json)
    ensures ReadRecord(s, j).Some? <==> GoodRecord(s, j)
    ensures GoodRecord(s, j) ==>
              var r := ReadRecord(s, j).value;
              && r.session == s && r.inbox == j.fields[InboxID].s && r.injection == j.fields[InjectionId].s
              && r.run == j.fields[RunID].s && r.text == j.fields[TextOf].s
              && r.delivered == j.fields[IsDelivered].b && r.checkpointed == j.fields[IsCheckpointed].b && r.answered == j.fields[IsAnswered].b
              && r.promoted == (if Name.IsPromoted in j.fields then Some(j.fields[Name.IsPromoted].b) else None)
              && r.hostTurn == (if HostTurn in j.fields then Some(j.fields[HostTurn].s) else None)
  {}

  lemma {:induction false} ReadAllIff(s: Id, items: seq<Json>)
    ensures ReadAll(s, items).Some? <==> forall i | 0 <= i < |items| :: GoodRecord(s, items[i])
    decreases |items|
  {
    if items != [] {
      ReadRecordIff(s, items[0]);
      ReadAllIff(s, items[1..]);
      assert items == [items[0]] + items[1..];
    }
  }

  /** A session is restored exactly when it has no records yet, there is room for it,
      and the saved text is a version 1 list of 1 to 32 good records. */
  lemma RestoreIff(t: Table, s: Id, saved: Json)
    ensures Restore(t, s, saved) != t <==>
              && s !in t && |t| < 256
              && saved.Obj? && Version in saved.fields && saved.fields[Version] == Number(1)
              && Records in saved.fields && saved.fields[Records].Arr? && 1 <= |saved.fields[Records].items| <= 32
              && forall i | 0 <= i < |saved.fields[Records].items| :: GoodRecord(s, saved.fields[Records].items[i])
    ensures Restore(t, s, saved) == t || Restore(t, s, saved) == t[s := RecordsOf(Restore(t, s, saved), s)]
  {
    if saved.Obj? && Records in saved.fields && saved.fields[Records].Arr? {
      var items := saved.fields[Records].items;
      ReadAllIff(s, items);
      if ReadAll(s, items).Some? {
        ReadAllSound(s, items);
      }
    }
  }

  // ------------------------------------------------------------------ host messages

  /** The tag's first character occurs in it only there, as that of both tags does. */
  predicate OpensOnce(tag: string) {
    tag != "" && forall i | 0 < i < |tag| :: tag[i] != tag[0]
  }

  predicate Without(s: string, tag: string) {
    forall i | 0 <= i <= |s| :: !StartsAt(s, i, tag)
  }

  lemma StartsChar(s: string, i: nat, tag: string, k: nat)
    requires StartsAt(s, i, tag) && k < |tag|
    ensures s[i + k] == tag[k]
  {
    assert s[i..i + |tag|][k] == s[i + k];
  }

  lemma NoEarlierTag(a: string, tag: string, rest: string, i: nat)
    requires OpensOnce(tag) && Without(a, tag) && i < |a|
    ensures !StartsAt(a + tag + rest, i, tag)
  {
    var s := a + tag + rest;
    assert s[|a|] == tag[0];
    if i + |tag| <= |a| {
      StartsInPrefix(a, tag + rest, i, tag);
      assert s == a + (tag + rest);
    } else if StartsAt(s, i, tag) {
      StartsChar(s, i, tag, |a| - i);
    }
  }

  lemma StartsInPrefix(a: string, b: string, i: nat, tag: string)
    requires i + |tag| <= |a|
    ensures StartsAt(a + b, i, tag) <==> StartsAt(a, i, tag)
  {
    assert (a + b)[i..i + |tag|] == a[i..i + |tag|];
  }

  lemma TagHere(a: string, tag: string, rest: string)
    ensures StartsAt(a + tag + rest, |a|, tag)
  {
    assert (a + tag + rest)[|a|..|a| + |tag|] == tag;
  }

  lemma {:induction false} FindIs(s: string, tag: string, from: nat, at: nat)
    requires from <= at <= |s| && (at < |s| ==> StartsAt(s, at, tag))
    requires forall i | from <= i < at :: !StartsAt(s, i, tag)
    ensures Find(s, tag, from) == at
    decreases at - from
  {
    if from < at {
      FindIs(s, tag, from + 1, at);
    }
  }

  lemma StartsInRest(s: string, j: nat, k: nat, tag: string)
    requires j <= |s|
    ensures StartsAt(s, j + k, tag) <==> StartsAt(s[j..], k, tag)
  {
    if j + k + |tag| <= |s| {
      assert s[j..][k..k + |tag|] == s[j + k..j + k + |tag|];
    }
  }

  /** What stands in `s` from `j` on. */
  ghost predicate Rest(s: string, j: nat, t: string) {
    j <= |s| && s[j..] == t
  }

  function Tagged(a: string, tag: string, rest: string): string {
    a + tag + rest
  }

  /** Where a tag is found from `j` on, when `a` without it comes before it there. */
  lemma FindTagged(s: string, j: nat, a: string, tag: string, rest: string)
    requires OpensOnce(tag) && Without(a, tag) && Rest(s, j, Tagged(a, tag, rest))
    ensures j + |a| + |tag| <= |s| && Find(s, tag, j) == j + |a|
    ensures s[j..j + |a|] == a && Rest(s, j + |a| + |tag|, rest)
  {
    assert s[j..j + |a|] == s[j..][..|a|];
    assert s[j + |a| + |tag|..] == s[j..][|a| + |tag|..];
    FindAfter(s, j, a, tag, rest);
  }

  lemma FindAfter(s: string, j: nat, a: string, tag: string, rest: string)
    requires OpensOnce(tag) && Without(a, tag) && j <= |s| && s[j..] == a + tag + rest
    ensures Find(s, tag, j) == j + |a|
  {
    TagHere(a, tag, rest);
    StartsInRest(s, j, |a|, tag);
    forall i | j <= i < j + |a| ensures !StartsAt(s, i, tag) {
      NoEarlierTag(a, tag, rest, i - j);
      StartsInRest(s, j, i - j, tag);
    }
    FindIs(s, tag, j, j + |a|);
  }

  lemma FindNone(s: string, j: nat, t: string, tag: string)
    requires Rest(s, j, t) && Without(t, tag)
    ensures Find(s, tag, j) == |s|
  {
    forall i | j <= i < |s| ensures !StartsAt(s, i, tag) {
      StartsInRest(s, j, i - j, tag);
    }
    FindIs(s, tag, j, |s|);
  }

  /** A part of the message as the user wrote it, and a reminder the host put behind it. */
  datatype Part = Part(text: string, reminder: string)

  function Composed(parts: seq<Part>, last: string, open: string, close: string): string {
    if parts == [] then last
    else Tagged(parts[0].text, open, Tagged(parts[0].reminder, close, Composed(parts[1..], last, open, close)))
  }

  function Written(parts: seq<Part>, last: string): string {
    if parts == [] then last else parts[0].text + Written(parts[1..], last)
  }

  ghost predicate Plain(parts: seq<Part>, last: string, open: string, close: string) {
    && Without(last, open)
    && forall i | 0 <= i < |parts| :: Without(parts[i].text, open) && Without(parts[i].reminder, close)
  }

  /** Where the next reminder stands in a composed message. */
  lemma NextReminder(s: string, j: nat, text: string, reminder: string, rest: string, open: string, close: string)
    requires OpensOnce(open) && OpensOnce(close)
    requires Rest(s, j, Tagged(text, open, Tagged(reminder, close, rest)))
    requires Without(text, open) && Without(reminder, close)
    ensures var next := j + |text| + |open| + |reminder| + |close|;
            && Rest(s, next, rest) && s[j..j + |text|] == text
            && NextSpan(s, j, open, close) == Some(Span(j + |text|, next))
  {
    FindTagged(s, j, text, open, Tagged(reminder, close, rest));
    FindTagged(s, j + |text| + |open|, reminder, close, rest);
  }

  lemma NoReminder(s: string, j: nat, last: string, open: string, close: string)
    requires OpensOnce(open) && OpensOnce(close) && Rest(s, j, last) && Without(last, open)
    ensures NextSpan(s, j, open, close) == None
  {
    FindNone(s, j, last, open);
  }

  lemma {:induction false} RemindersGo(s: string, j: nat, parts: seq<Part>, last: string, open: string, close: string)
    requires OpensOnce(open) && OpensOnce(close)
    requires Rest(s, j, Composed(parts, last, open, close)) && Plain(parts, last, open, close)
    ensures Stripped(s, j, open, close) == Written(parts, last)
    decreases |parts|
  {
    if parts == [] {
      NoReminder(s, j, last, open, close);
    } else {
      var p, rest := parts[0], Composed(parts[1..], last, open, close);
      NextReminder(s, j, p.text, p.reminder, rest, open, close);
      RemindersGo(s, j + |p.text| + |open| + |p.reminder| + |close|, parts[1..], last, open, close);
    }
  }

  lemma TagsOpenOnce()
    ensures OpensOnce(OPEN_TAG) && OpensOnce(CLOSE_TAG)
  {}

  /** A host message carries a steer exactly when what the user wrote, without the
      reminders the host put in, is the steer's text but for blanks around it. */
  lemma CarriesWhatWasWritten(parts: seq<Part>, last: string, text: string)
    requires Plain(parts, last, OPEN_TAG, CLOSE_TAG)
    ensures CarriesSteer(Composed(parts, last, OPEN_TAG, CLOSE_TAG), text) <==> Trim(Written(parts, last)) == Trim(text)
  {
    var s := Composed(parts, last, OPEN_TAG, CLOSE_TAG);
    assert s[0..] == s;
    TagsOpenOnce();
    RemindersGo(s, 0, parts, last, OPEN_TAG, CLOSE_TAG);
  }

  ghost predicate AllSpace(s: string) {
    forall i | 0 <= i < |s| :: IsSpace(s[i])
  }

  /** Trimming takes exactly the blanks at both ends. */
  lemma {:induction false} TrimIs(s: string) returns (before: string, after: string)
    ensures s == before + Trim(s) + after && AllSpace(before) && AllSpace(after)
    ensures Trim(s) != "" ==> !IsSpace(Trim(s)[0]) && !IsSpace(Trim(s)[|Trim(s)| - 1])
    decreases |s|
  {
    before, after := "", "";
    if s != "" && IsSpace(s[0]) {
      before, after := TrimIs(s[1..]);
      assert s == [s[0]] + s[1..];
      before := [s[0]] + before;
    } else if s != "" && IsSpace(s[|s| - 1]) {
      before, after := TrimIs(s[..|s| - 1]);
      assert s == s[..|s| - 1] + [s[|s| - 1]];
      after := after + [s[|s| - 1]];
    }
  }
}
