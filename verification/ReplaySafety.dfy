/** Replay safety (src/replay-safety.ts): evidence, kept over a whole Run, that
    host history represents everything the Run did, so that the Run may be
    rebuilt from that history. Frames arrive already decoded. */
module ReplaySafety {

  type Id = string

  datatype Option<T> = None | Some(value: T)

  datatype Reason =
    | VisibleText | VisibleReasoning | VisibleToolRow
    | DisplayToolLifecycle | NonControlExec | StatefulInteraction | UnknownOrMalformed

  /** Host output without execution authority. */
  predicate OutputOnly(r: Reason) {
    r.VisibleText? || r.VisibleReasoning? || r.VisibleToolRow?
  }

  datatype Exec = Exec(session: Id, id: int, call: Option<Id>)

  datatype Progress = Started | Completed

  datatype Kind = Steer | Note

  datatype Injection = Injection(kind: Kind, id: Id, message: Id, text: string, delivered: bool)

  datatype Echo = Echo(kind: Kind, id: Id)

  datatype Message = Message(id: Id, text: string)

  datatype Lifecycle = Lifecycle(progress: Progress, call: Id, catalog: bool)

  /** What the Run's attempts share. */
  datatype State = State(
    execs: seq<Exec>,
    announced: seq<Id>,
    catalog: map<Id, Progress>,
    rebaseUnsafe: bool,
    appended: seq<Echo>,
    statefulBarrier: Option<Reason>)

  /** One attempt's own view. */
  datatype Attempt = Attempt(session: Id, barrier: Option<Reason>, stateful: bool, otherBarrier: bool)

  const MAX_RUN_INJECTIONS: nat := 64
  const MAX_APPENDED_INJECTIONS: nat := 128
  const MAX_SAFE_INTEGER: int := 0x1f_ffff_ffff_ffff

  const EMPTY := State([], [], map[], false, [], None)

  predicate Claimed(s: State, call: Id) {
    exists i | 0 <= i < |s.execs| :: s.execs[i].call == Some(call)
  }

  /** Every display call is claimed by a host exec or is a completed catalog lookup. */
  predicate AnnouncedCallsClaimed(s: State) {
    forall i | 0 <= i < |s.announced| ::
      Claimed(s, s.announced[i]) || (s.announced[i] in s.catalog && s.catalog[s.announced[i]] == Completed)
  }

  // ------------------------------------------------------------- one attempt

  datatype Both = Both(state: State, attempt: Attempt)

  function Unsafe(b: Both): Both {
    b.(state := b.state.(rebaseUnsafe := true))
  }

  function Mark(b: Both, reason: Reason, representable: bool, echo: bool): Both {
    var a := b.attempt.(otherBarrier := b.attempt.otherBarrier || !echo,
                        stateful := b.attempt.stateful || !OutputOnly(reason),
                        barrier := if b.attempt.barrier.Some? then b.attempt.barrier else Some(reason));
    if OutputOnly(reason) then Both(b.state, a)
    else
      var s := b.state.(statefulBarrier := if b.state.statefulBarrier.Some? then b.state.statefulBarrier else Some(reason));
      Both(if representable then s else s.(rebaseUnsafe := true), a)
  }

  function MarkBarrier(b: Both, reason: Reason): Both {
    Mark(b, reason, reason == NonControlExec, false)
  }

  function RecordToolLifecycle(b: Both, lifecycle: Option<Lifecycle>): Both {
    if lifecycle.None? then Mark(b, DisplayToolLifecycle, false, false)
    else
      var l, s := lifecycle.value, b.state;
      if l.catalog && l.progress == Completed && l.call in s.catalog && s.catalog[l.call] == Started
      then b.(state := s.(catalog := s.catalog[l.call := Completed]))
      else if l.progress == Completed && Claimed(s, l.call) then b
      else if l.progress == Started && !Claimed(s, l.call) then
        if l.call in s.catalog then Mark(b, DisplayToolLifecycle, false, false)
        else
          var started := s.(catalog := if l.catalog then s.catalog[l.call := Started] else s.catalog,
                            announced := if l.call in s.announced then s.announced else s.announced + [l.call]);
          Mark(b.(state := started), DisplayToolLifecycle, true, false)
      else Mark(b, DisplayToolLifecycle, false, false)
  }

  predicate KnownExec(s: State, session: Id, id: int) {
    exists i | 0 <= i < |s.execs| :: s.execs[i].session == session && s.execs[i].id == id
  }

  /** An id that is not a safe integer is None; an absent or empty call id is "". */
  function RecordExec(b: Both, id: Option<int>, call: Id): Both {
    if id.None? || !(-MAX_SAFE_INTEGER <= id.value <= MAX_SAFE_INTEGER) || KnownExec(b.state, b.attempt.session, id.value)
    then Unsafe(b)
    else b.(state := b.state.(execs := b.state.execs + [Exec(b.attempt.session, id.value, if call == "" then None else Some(call))]))
  }

  function RecordAppendedMessage(b: Both, echo: Option<Echo>): Both {
    if echo.None? || |b.state.appended| >= MAX_APPENDED_INJECTIONS then Mark(b, StatefulInteraction, false, false)
    else Mark(b.(state := b.state.(appended := b.state.appended + [echo.value])), StatefulInteraction, true, true)
  }

  datatype Extent = OutputSoFar | StatefulSoFar

  /** What a failure says about replaying its request: safe, what stands in the
      way, and whether only echoes of the Run's own injections do. */
  datatype Failure = Failure(replaySafe: bool, barrier: Option<Extent>, echoesOnly: bool)

  function ApplyTo(a: Attempt, f: Failure): Failure {
    var g := f.(replaySafe := a.barrier.None? && !a.stateful && f.replaySafe);
    if a.barrier.None? then g
    else g.(barrier := Some(if a.stateful then StatefulSoFar else OutputSoFar), echoesOnly := f.echoesOnly || !a.otherBarrier)
  }

  // ------------------------------------------------------------- injections

  function Track(injections: seq<Injection>, injection: Injection): seq<Injection> {
    var all := injections + [injection];
    if |all| > MAX_RUN_INJECTIONS then all[|all| - MAX_RUN_INJECTIONS..] else all
  }

  function WithId(injections: seq<Injection>, id: Id): (i: nat)
    ensures i <= |injections| && (i < |injections| ==> injections[i].id == id)
    ensures forall j | 0 <= j < i :: injections[j].id != id
  {
    if injections == [] || injections[0].id == id then 0 else 1 + WithId(injections[1..], id)
  }

  function WithMessage(injections: seq<Injection>, message: Id): (i: nat)
    ensures i <= |injections| && (i < |injections| ==> injections[i].message == message)
    ensures forall j | 0 <= j < i :: injections[j].message != message
  {
    if injections == [] || injections[0].message == message then 0 else 1 + WithMessage(injections[1..], message)
  }

  function MarkDelivered(injections: seq<Injection>, id: Id): seq<Injection> {
    var i := WithId(injections, id);
    if id != "" && i < |injections| then injections[i := injections[i].(delivered := true)] else injections
  }

  /** The injection an appended message echoes is consumed. */
  function Take(injections: seq<Injection>, message: Option<Message>): (seq<Injection>, Option<Echo>) {
    if message.None? then (injections, None)
    else
      var i := WithMessage(injections, message.value.id);
      if i == |injections| || !injections[i].delivered || injections[i].text != message.value.text then (injections, None)
      else (injections[..i] + injections[i + 1..], Some(Echo(injections[i].kind, injections[i].id)))
  }

  // ------------------------------------------------------------- the whole Run

  /** The shared state, the current attempt and its injections, with a count of
      every lifecycle frame seen, the calls that were started as a catalog lookup
      although they were announced already, and every id tracked or delivered. */
  datatype World = World(
    both: Both,
    injections: seq<Injection>,
    plainStarts: multiset<Id>,
    catalogStarts: multiset<Id>,
    catalogEnds: multiset<Id>,
    restarted: set<Id>,
    tracked: set<Id>,
    delivered: set<Id>)

  datatype Event =
    | Resumed(session: Id)
    | SawBarrier(reason: Reason)
    | SawLifecycle(lifecycle: Option<Lifecycle>)
    | SawExec(id: Option<int>, call: Id)
    | Injected(injection: Injection)
    | WasDelivered(injectionId: Id)
    | Appended(message: Option<Message>)

  /** Injection ids are fresh; a tracked injection is not delivered yet. */
  predicate Enabled(w: World, e: Event) {
    e.Injected? ==> e.injection.id !in w.tracked && !e.injection.delivered
  }

  predicate IsRestart(s: State, l: Lifecycle) {
    l.progress == Started && l.catalog && l.call in s.announced && l.call !in s.catalog && !Claimed(s, l.call)
  }

  function Next(w: World, e: Event): World {
    match e
    case Resumed(session) =>
      w.(both := w.both.(attempt := Attempt(session, None, w.both.state.statefulBarrier.Some?, false)))
    case SawBarrier(reason) => w.(both := MarkBarrier(w.both, reason))
    case SawExec(id, call) => w.(both := RecordExec(w.both, id, call))
    case SawLifecycle(lifecycle) =>
      var next := w.(both := RecordToolLifecycle(w.both, lifecycle));
      if lifecycle.None? then next
      else
        var l := lifecycle.value;
        next.(plainStarts := if l.progress == Started && !l.catalog then w.plainStarts + multiset{l.call} else w.plainStarts,
              catalogStarts := if l.progress == Started && l.catalog then w.catalogStarts + multiset{l.call} else w.catalogStarts,
              catalogEnds := if l.progress == Completed && l.catalog then w.catalogEnds + multiset{l.call} else w.catalogEnds,
              restarted := if IsRestart(w.both.state, l) then w.restarted + {l.call} else w.restarted)
    case Injected(injection) => w.(injections := Track(w.injections, injection), tracked := w.tracked + {injection.id})
    case WasDelivered(id) => w.(injections := MarkDelivered(w.injections, id), delivered := w.delivered + {id})
    case Appended(message) =>
      var (left, echo) := Take(w.injections, message);
      w.(injections := left, both := RecordAppendedMessage(w.both, echo))
  }

  const START := World(Both(EMPTY, Attempt("", None, false, false)), [], multiset{}, multiset{}, multiset{}, {}, {}, {})

  ghost predicate ExecsDistinct(s: State) {
    forall i, j | 0 <= i < j < |s.execs| :: s.execs[i].session != s.execs[j].session || s.execs[i].id != s.execs[j].id
  }

  function Starts(w: World, call: Id): nat {
    w.plainStarts[call] + w.catalogStarts[call]
  }

  /** What the state says about a call no exec has claimed. */
  ghost predicate CallInv(w: World, call: Id) {
    var s := w.both.state;
    && (call in s.announced <==> Starts(w, call) > 0)
    && (call in w.restarted <==> call in s.catalog && w.plainStarts[call] > 0)
    && (call !in s.catalog ==> w.catalogStarts[call] == 0 && w.catalogEnds[call] == 0)
    && (call in s.catalog ==> w.catalogStarts[call] == 1 && w.catalogEnds[call] == if s.catalog[call] == Completed then 1 else 0)
  }

  /** A call started after an exec claimed it makes the rebase unsafe, so every
      started call was announced. */
  ghost predicate CallsInv(w: World) {
    !w.both.state.rebaseUnsafe ==>
      forall call: Id :: (Claimed(w.both.state, call) || CallInv(w, call)) && (Starts(w, call) > 0 ==> call in w.both.state.announced)
  }

  /** Tracked injections are known and distinct, and no echo of theirs was accepted. */
  ghost predicate ListInv(list: seq<Injection>, appended: seq<Echo>, tracked: set<Id>, delivered: set<Id>) {
    && (forall i | 0 <= i < |list| :: list[i].id in tracked && (list[i].delivered ==> list[i].id in delivered))
    && (forall i, j | 0 <= i < j < |list| :: list[i].id != list[j].id)
    && (forall i, j | 0 <= i < |appended| && 0 <= j < |list| :: appended[i].id != list[j].id)
  }

  ghost predicate AppendedInv(appended: seq<Echo>, tracked: set<Id>, delivered: set<Id>) {
    && |appended| <= MAX_APPENDED_INJECTIONS
    && (forall i | 0 <= i < |appended| :: appended[i].id in tracked && appended[i].id in delivered)
    && (forall i, j | 0 <= i < j < |appended| :: appended[i].id != appended[j].id)
  }

  ghost predicate EchoesInv(w: World) {
    && |w.injections| <= MAX_RUN_INJECTIONS
    && ListInv(w.injections, w.both.state.appended, w.tracked, w.delivered)
    && AppendedInv(w.both.state.appended, w.tracked, w.delivered)
  }

  ghost predicate Inv(w: World) {
    ExecsDistinct(w.both.state) && CallsInv(w) && EchoesInv(w)
  }

  lemma SameCalls(w: World, n: World)
    requires CallsInv(w)
    requires n.both.state.announced == w.both.state.announced && n.both.state.catalog == w.both.state.catalog
    requires w.both.state.rebaseUnsafe ==> n.both.state.rebaseUnsafe
    requires w.both.state.execs <= n.both.state.execs
    requires n.plainStarts == w.plainStarts && n.catalogStarts == w.catalogStarts && n.catalogEnds == w.catalogEnds && n.restarted == w.restarted
    ensures CallsInv(n)
  {
    if !n.both.state.rebaseUnsafe {
      forall call: Id
        ensures (Claimed(n.both.state, call) || CallInv(n, call)) && (Starts(n, call) > 0 ==> call in n.both.state.announced)
      {
        if Claimed(w.both.state, call) {
          ClaimsStay(w.both.state, n.both.state, call);
        }
      }
    }
  }

  lemma ClaimsStay(s: State, n: State, call: Id)
    requires s.execs <= n.execs && Claimed(s, call)
    ensures Claimed(n, call)
  {
    var i :| 0 <= i < |s.execs| && s.execs[i].call == Some(call);
    assert n.execs[i].call == Some(call);
  }

  ghost predicate SameFor(s: State, n: State, call: Id) {
    && (call in n.announced <==> call in s.announced)
    && (call in n.catalog <==> call in s.catalog) && (call in s.catalog ==> n.catalog[call] == s.catalog[call])
  }

  lemma OtherState(b: Both, l: Lifecycle, call: Id)
    requires call != l.call
    ensures SameFor(b.state, RecordToolLifecycle(b, Some(l)).state, call)
  {}

  lemma OtherCounts(w: World, l: Lifecycle, call: Id)
    requires call != l.call
    ensures var n := Next(w, SawLifecycle(Some(l)));
            && n.plainStarts[call] == w.plainStarts[call] && n.catalogStarts[call] == w.catalogStarts[call]
            && n.catalogEnds[call] == w.catalogEnds[call] && (call in n.restarted <==> call in w.restarted)
            && n.both == RecordToolLifecycle(w.both, Some(l))
  {}

  /** Another call's frame says nothing about this one. */
  lemma OtherCall(w: World, n: World, call: Id)
    requires SameFor(w.both.state, n.both.state, call)
    requires n.plainStarts[call] == w.plainStarts[call] && n.catalogStarts[call] == w.catalogStarts[call]
    requires n.catalogEnds[call] == w.catalogEnds[call] && (call in n.restarted <==> call in w.restarted)
    ensures CallInv(w, call) <==> CallInv(n, call)
    ensures Starts(n, call) == Starts(w, call)
  {}

  lemma OwnCall(w: World, l: Lifecycle)
    requires CallsInv(w) && !Next(w, SawLifecycle(Some(l))).both.state.rebaseUnsafe
    ensures var n := Next(w, SawLifecycle(Some(l)));
            && (Claimed(n.both.state, l.call) || CallInv(n, l.call))
            && (Starts(n, l.call) > 0 ==> l.call in n.both.state.announced)
  {
    var s := w.both.state;
    assert !s.rebaseUnsafe;
    assert Claimed(s, l.call) || CallInv(w, l.call);
    assert Starts(w, l.call) > 0 ==> l.call in s.announced;
    assert Next(w, SawLifecycle(Some(l))).both.state.execs == s.execs;
  }

  lemma LifecycleKeeps(w: World, l: Lifecycle)
    requires CallsInv(w)
    ensures CallsInv(Next(w, SawLifecycle(Some(l))))
  {
    var n := Next(w, SawLifecycle(Some(l)));
    if !n.both.state.rebaseUnsafe {
      assert !w.both.state.rebaseUnsafe && n.both.state.execs == w.both.state.execs;
      forall call: Id
        ensures (Claimed(n.both.state, call) || CallInv(n, call)) && (Starts(n, call) > 0 ==> call in n.both.state.announced)
      {
        if call == l.call {
          OwnCall(w, l);
        } else {
          OtherState(w.both, l, call);
          OtherCounts(w, l, call);
          OtherCall(w, n, call);
          assert Claimed(w.both.state, call) ==> Claimed(n.both.state, call) by {
            if Claimed(w.both.state, call) { ClaimsStay(w.both.state, n.both.state, call); }
          }
        }
      }
    }
  }

  lemma ListGrows(list: seq<Injection>, appended: seq<Echo>, tracked: set<Id>, delivered: set<Id>, injection: Injection)
    requires ListInv(list, appended, tracked, delivered) && AppendedInv(appended, tracked, delivered)
    requires injection.id !in tracked && !injection.delivered
    ensures ListInv(list + [injection], appended, tracked + {injection.id}, delivered)
    ensures AppendedInv(appended, tracked + {injection.id}, delivered)
  {}

  lemma SuffixKeeps(list: seq<Injection>, appended: seq<Echo>, tracked: set<Id>, delivered: set<Id>, cut: nat)
    requires ListInv(list, appended, tracked, delivered) && cut <= |list|
    ensures ListInv(list[cut..], appended, tracked, delivered)
  {}

  lemma TrackKeeps(w: World, injection: Injection)
    requires EchoesInv(w) && Enabled(w, Injected(injection))
    ensures EchoesInv(Next(w, Injected(injection)))
  {
    var all := w.injections + [injection];
    ListGrows(w.injections, w.both.state.appended, w.tracked, w.delivered, injection);
    if |all| > MAX_RUN_INJECTIONS {
      SuffixKeeps(all, w.both.state.appended, w.tracked + {injection.id}, w.delivered, |all| - MAX_RUN_INJECTIONS);
    }
  }

  /** Taking a delivered injection out of the list and accepting its echo. */
  lemma EchoMoves(list: seq<Injection>, appended: seq<Echo>, tracked: set<Id>, delivered: set<Id>, gone: nat)
    requires ListInv(list, appended, tracked, delivered) && gone < |list| && list[gone].delivered
    requires AppendedInv(appended, tracked, delivered)
    ensures var left, echo := list[..gone] + list[gone + 1..], Echo(list[gone].kind, list[gone].id);
            && ListInv(left, appended, tracked, delivered) && ListInv(left, appended + [echo], tracked, delivered)
            && (|appended| < MAX_APPENDED_INJECTIONS ==> AppendedInv(appended + [echo], tracked, delivered))
  {
    var left := list[..gone] + list[gone + 1..];
    forall i | 0 <= i < |left|
      ensures left[i] == list[if i < gone then i else i + 1]
    {}
  }

  lemma TakeKeeps(w: World, message: Option<Message>)
    requires EchoesInv(w)
    ensures EchoesInv(Next(w, Appended(message)))
  {
    var (left, echo) := Take(w.injections, message);
    if echo.Some? {
      EchoMoves(w.injections, w.both.state.appended, w.tracked, w.delivered, WithMessage(w.injections, message.value.id));
    }
    AppendedState(w.both, echo);
  }

  lemma AppendedState(b: Both, echo: Option<Echo>)
    ensures RecordAppendedMessage(b, echo).state.appended
            == if echo.Some? && |b.state.appended| < MAX_APPENDED_INJECTIONS then b.state.appended + [echo.value] else b.state.appended
  {}

  lemma EchoesStay(w: World, n: World)
    requires EchoesInv(w) && n.injections == w.injections && n.tracked == w.tracked && n.delivered == w.delivered
    requires n.both.state.appended == w.both.state.appended
    ensures EchoesInv(n)
  {}

  lemma DeliveredKeeps(w: World, id: Id)
    requires EchoesInv(w)
    ensures EchoesInv(Next(w, WasDelivered(id)))
  {}

  lemma ExecKeeps(w: World, id: Option<int>, call: Id)
    requires ExecsDistinct(w.both.state)
    ensures ExecsDistinct(Next(w, SawExec(id, call)).both.state)
    ensures w.both.state.execs <= Next(w, SawExec(id, call)).both.state.execs
  {}

  lemma QuietEvent(w: World, e: Event)
    requires Inv(w) && (e.Resumed? || e.SawBarrier?)
    ensures Inv(Next(w, e))
  {
    SameCalls(w, Next(w, e));
    EchoesStay(w, Next(w, e));
  }

  lemma ExecEvent(w: World, id: Option<int>, call: Id)
    requires Inv(w)
    ensures Inv(Next(w, SawExec(id, call)))
  {
    var n := Next(w, SawExec(id, call));
    ExecKeeps(w, id, call);
    SameCalls(w, n);
    EchoesStay(w, n);
  }

  lemma LifecycleEvent(w: World, lifecycle: Option<Lifecycle>)
    requires Inv(w)
    ensures Inv(Next(w, SawLifecycle(lifecycle)))
  {
    var n := Next(w, SawLifecycle(lifecycle));
    EchoesStay(w, n);
    if lifecycle.Some? {
      LifecycleKeeps(w, lifecycle.value);
    } else {
      SameCalls(w, n);
    }
  }

  lemma InjectionEvent(w: World, e: Event)
    requires Inv(w) && Enabled(w, e) && (e.Injected? || e.WasDelivered?)
    ensures Inv(Next(w, e))
  {
    SameCalls(w, Next(w, e));
    if e.Injected? {
      TrackKeeps(w, e.injection);
    } else {
      DeliveredKeeps(w, e.injectionId);
    }
  }

  lemma AppendedEvent(w: World, message: Option<Message>)
    requires Inv(w)
    ensures Inv(Next(w, Appended(message)))
  {
    SameCalls(w, Next(w, Appended(message)));
    TakeKeeps(w, message);
  }

  lemma NextKeepsInv(w: World, e: Event)
    requires Inv(w) && Enabled(w, e)
    ensures Inv(Next(w, e))
  {
    match e
    case Resumed(_) => QuietEvent(w, e);
    case SawBarrier(_) => QuietEvent(w, e);
    case SawExec(id, call) => ExecEvent(w, id, call);
    case SawLifecycle(lifecycle) => LifecycleEvent(w, lifecycle);
    case Injected(_) => InjectionEvent(w, e);
    case WasDelivered(_) => InjectionEvent(w, e);
    case Appended(message) => AppendedEvent(w, message);
  }

  function Run(w: World, events: seq<Event>): World
    decreases |events|
  {
    if events == [] then w else Run(Next(w, events[0]), events[1..])
  }

  predicate Possible(w: World, events: seq<Event>)
    decreases |events|
  {
    events != [] ==> Enabled(w, events[0]) && Possible(Next(w, events[0]), events[1..])
  }

  lemma {:induction false} RunKeepsInv(w: World, events: seq<Event>)
    requires Inv(w) && Possible(w, events)
    ensures Inv(Run(w, events))
    decreases |events|
  {
    if events != [] {
      NextKeepsInv(w, events[0]);
      RunKeepsInv(Next(w, events[0]), events[1..]);
    }
  }

  // ------------------------------------------------------------- main results

  /** The call is claimed by a host exec, or it is an inline catalog lookup that
      was started once and then completed once. */
  ghost predicate Represented(w: World, call: Id) {
    Claimed(w.both.state, call) || (w.plainStarts[call] == 0 && w.catalogStarts[call] == 1 && w.catalogEnds[call] == 1)
  }

  ghost predicate AllRepresented(w: World) {
    forall call: Id :: Starts(w, call) > 0 ==> Represented(w, call)
  }

  lemma FinishedCall(w: World, call: Id)
    requires Inv(w) && !w.both.state.rebaseUnsafe && AnnouncedCallsClaimed(w.both.state) && Starts(w, call) > 0
    ensures Represented(w, call) <==> call !in w.restarted || Claimed(w.both.state, call)
    ensures Claimed(w.both.state, call) || (w.catalogStarts[call] == 1 && w.catalogEnds[call] == 1)
  {
    assert call in w.both.state.announced;
    var i :| 0 <= i < |w.both.state.announced| && w.both.state.announced[i] == call;
    assert Claimed(w.both.state, call) || CallInv(w, call);
  }

  /** Over any frames: when nothing unsafe was seen and the announced calls are
      claimed, history represents every started call if and only if no call still
      unclaimed was started as a catalog lookup after it had been announced. */
  lemma RebaseCoversCalls(events: seq<Event>, w: World)
    requires Possible(START, events) && w == Run(START, events)
    requires !w.both.state.rebaseUnsafe && AnnouncedCallsClaimed(w.both.state)
    ensures AllRepresented(w) <==> forall call | call in w.restarted :: Claimed(w.both.state, call)
  {
    RunKeepsInv(START, events);
    forall call: Id | Starts(w, call) > 0
      ensures Represented(w, call) <==> call !in w.restarted || Claimed(w.both.state, call)
    {
      FinishedCall(w, call);
    }
    forall call | call in w.restarted && !Claimed(w.both.state, call)
      ensures Starts(w, call) > 0
    {
      assert CallInv(w, call);
    }
  }

  /** In any case each of them is claimed, or completed as a catalog lookup. */
  lemma EveryCallEnds(events: seq<Event>, w: World, call: Id)
    requires Possible(START, events) && w == Run(START, events)
    requires !w.both.state.rebaseUnsafe && AnnouncedCallsClaimed(w.both.state) && Starts(w, call) > 0
    ensures Claimed(w.both.state, call) || (w.catalogStarts[call] == 1 && w.catalogEnds[call] == 1)
  {
    RunKeepsInv(START, events);
    FinishedCall(w, call);
  }

  lemma {:induction false} Then(w: World, events: seq<Event>, e: Event) returns (longer: seq<Event>)
    requires Possible(w, events) && Enabled(Run(w, events), e)
    ensures longer == events + [e] && Possible(w, longer) && Run(w, longer) == Next(Run(w, events), e)
    decreases |events|
  {
    longer := events + [e];
    if events != [] {
      var rest := Then(Next(w, events[0]), events[1..], e);
      assert longer[1..] == rest;
    }
  }

  /** A call announced as an ordinary one and then started and completed as a
      catalog lookup passes for a catalog lookup, though no exec ever claimed it. */
  lemma OrdinaryCallPassesAsCatalog(call: Id) returns (events: seq<Event>, w: World)
    ensures Possible(START, events) && w == Run(START, events)
    ensures !w.both.state.rebaseUnsafe && AnnouncedCallsClaimed(w.both.state)
    ensures !Claimed(w.both.state, call) && w.plainStarts[call] == 1 && !AllRepresented(w)
  {
    events := Then(START, [], SawLifecycle(Some(Lifecycle(Started, call, false))));
    events := Then(START, events, SawLifecycle(Some(Lifecycle(Started, call, true))));
    events := Then(START, events, SawLifecycle(Some(Lifecycle(Completed, call, true))));
    w := Run(START, events);
    assert Starts(w, call) > 0 && !Represented(w, call);
  }

  /** Exec ids are never repeated within a session, also over resumed attempts,
      and every accepted echo consumed its own delivered injection. */
  lemma EvidenceIsDistinct(events: seq<Event>, w: World)
    requires Possible(START, events) && w == Run(START, events)
    ensures ExecsDistinct(w.both.state) && EchoesInv(w)
  {
    RunKeepsInv(START, events);
  }

  lemma BarrierStaysOnce(w: World, e: Event)
    ensures w.both.state.statefulBarrier.Some? ==> Next(w, e).both.state.statefulBarrier == w.both.state.statefulBarrier
    ensures w.both.state.rebaseUnsafe ==> Next(w, e).both.state.rebaseUnsafe
  {}

  /** The first stateful barrier and an unsafe history stay for the whole Run. */
  lemma {:induction false} BarrierStays(w: World, events: seq<Event>)
    ensures w.both.state.statefulBarrier.Some? ==> Run(w, events).both.state.statefulBarrier == w.both.state.statefulBarrier
    ensures w.both.state.rebaseUnsafe ==> Run(w, events).both.state.rebaseUnsafe
    decreases |events|
  {
    if events != [] {
      BarrierStaysOnce(w, events[0]);
      BarrierStays(Next(w, events[0]), events[1..]);
    }
  }

  // ----------------------------------------------------------------- the class

  class RunState {
    var execs: seq<Exec>
    var announced: seq<Id>
    var catalog: map<Id, Progress>
    var rebaseUnsafe: bool
    var appended: seq<Echo>
    var statefulBarrier: Option<Reason>

    function Model(): State
      reads this
    {
      State(execs, announced, catalog, rebaseUnsafe, appended, statefulBarrier)
    }

    constructor ()
      ensures Model() == EMPTY
    {
      execs, announced, catalog, rebaseUnsafe, appended, statefulBarrier := [], [], map[], false, [], None;
    }
  }

  class AttemptReplaySafety {
    const session: Id
    const state: RunState
    var barrier: Option<Reason>
    var stateful: bool
    var otherBarrier: bool

    function Model(): Both
      reads this, state
    {
      Both(state.Model(), Attempt(session, barrier, stateful, otherBarrier))
    }

    constructor (session: Id, state: RunState)
      ensures Model() == Both(state.Model(), Attempt(session, None, state.statefulBarrier.Some?, false))
      ensures this.state == state
    {
      this.session, this.state, barrier, stateful, otherBarrier := session, state, None, state.statefulBarrier.Some?, false;
    }

    method MarkFrame(reason: Reason, representable: bool, echo: bool)
      modifies this, state
      ensures Model() == Mark(old(Model()), reason, representable, echo)
    {
      if !echo { otherBarrier := true; }
      if !OutputOnly(reason) {
        stateful := true;
        if state.statefulBarrier.None? { state.statefulBarrier := Some(reason); }
        if !representable { state.rebaseUnsafe := true; }
      }
      if barrier.Some? { return; }
      barrier := Some(reason);
    }

    method Judge(failure: Failure) returns (judged: Failure)
      ensures judged == ApplyTo(Model().attempt, failure)
    {
      judged := failure.(replaySafe := barrier.None? && !stateful && failure.replaySafe);
      if barrier.Some? {
        judged := judged.(barrier := Some(if stateful then StatefulSoFar else OutputSoFar));
        if !otherBarrier { judged := judged.(echoesOnly := true); }
      }
    }

    method Claims(call: Id) returns (claimed: bool)
      ensures claimed == Claimed(state.Model(), call)
    {
      var i := 0;
      while i < |state.execs|
        invariant i <= |state.execs|
        invariant forall j | 0 <= j < i :: state.execs[j].call != Some(call)
      {
        if state.execs[i].call == Some(call) { return true; }
        i := i + 1;
      }
      claimed := false;
    }

    method RecordLifecycle(lifecycle: Option<Lifecycle>)
      modifies this, state
      ensures Model() == RecordToolLifecycle(old(Model()), lifecycle)
    {
      if lifecycle.None? {
        MarkFrame(DisplayToolLifecycle, false, false);
        return;
      }
      var l := lifecycle.value;
      if l.catalog && l.progress == Completed && l.call in state.catalog && state.catalog[l.call] == Started {
        state.catalog := state.catalog[l.call := Completed];
        return;
      }
      var claimed := Claims(l.call);
      if l.progress == Completed && claimed { return; }
      if l.progress == Started && !claimed {
        if l.call in state.catalog {
          MarkFrame(DisplayToolLifecycle, false, false);
          return;
        }
        if l.catalog { state.catalog := state.catalog[l.call := Started]; }
        if l.call !in state.announced { state.announced := state.announced + [l.call]; }
        MarkFrame(DisplayToolLifecycle, true, false);
        return;
      }
      MarkFrame(DisplayToolLifecycle, false, false);
    }

    method RecordHostExec(id: Option<int>, call: Id)
      modifies state
      ensures Model() == RecordExec(old(Model()), id, call)
    {
      if id.None? || id.value < -MAX_SAFE_INTEGER || id.value > MAX_SAFE_INTEGER {
        state.rebaseUnsafe := true;
        return;
      }
      var i := 0;
      while i < |state.execs|
        invariant i <= |state.execs| && state.Model() == old(state.Model())
        invariant forall j | 0 <= j < i :: state.execs[j].session != session || state.execs[j].id != id.value
      {
        if state.execs[i].session == session && state.execs[i].id == id.value {
          state.rebaseUnsafe := true;
          return;
        }
        i := i + 1;
      }
      state.execs := state.execs + [Exec(session, id.value, if call == "" then None else Some(call))];
    }

    method RecordAppended(echo: Option<Echo>)
      modifies this, state
      ensures Model() == RecordAppendedMessage(old(Model()), echo)
    {
      if echo.None? || |state.appended| >= MAX_APPENDED_INJECTIONS {
        MarkFrame(StatefulInteraction, false, false);
        return;
      }
      state.appended := state.appended + [echo.value];
      MarkFrame(StatefulInteraction, true, true);
    }
  }
}
