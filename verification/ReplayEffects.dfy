/** What each frame means for replay safety (src/replay-safety.ts), spelled out
    over the evidence, and exactly when a Run's history becomes unsafe. */
module ReplayEffects {

  import opened ReplaySafety

  // -------------------------------------------------------------- single frames

  predicate HasCall(s: State, call: Id) {
    exists i | 0 <= i < |s.execs| :: s.execs[i].call == Some(call)
  }

  predicate HasExec(s: State, session: Id, id: int) {
    exists i | 0 <= i < |s.execs| :: s.execs[i].session == session && s.execs[i].id == id
  }

  /** The first injection written under the message's id. */
  ghost predicate IsFirst(injections: seq<Injection>, message: Id, i: int) {
    0 <= i < |injections| && injections[i].message == message && forall j | 0 <= j < i :: injections[j].message != message
  }

  /** The message echoes an injection of this Run: the first under its id, already
      delivered, with the same text. */
  ghost predicate Echoes(injections: seq<Injection>, message: Option<Message>, i: int) {
    message.Some? && IsFirst(injections, message.value.id, i) && injections[i].delivered && injections[i].text == message.value.text
  }

  ghost predicate Matched(injections: seq<Injection>, message: Option<Message>) {
    exists i :: Echoes(injections, message, i)
  }

  /** The frame completes a catalog lookup that was started, or a call an exec has claimed. */
  predicate Completes(s: State, l: Lifecycle) {
    l.progress == Completed && ((l.catalog && l.call in s.catalog && s.catalog[l.call] == Started) || HasCall(s, l.call))
  }

  /** The frame starts a call nobody has claimed and that is no known catalog lookup. */
  predicate StartsCall(s: State, l: Lifecycle) {
    l.progress == Started && !HasCall(s, l.call) && l.call !in s.catalog
  }

  /** A frame that host history cannot represent: an opaque or unknown one, an exec
      without a fresh safe id, a display frame that neither starts nor completes a
      call, or a message that is no echo of this Run's own or one too many. */
  ghost predicate UnsafeFrame(w: World, e: Event) {
    var s := w.both.state;
    match e
    case SawBarrier(reason) => reason == StatefulInteraction || reason == UnknownOrMalformed || reason == DisplayToolLifecycle
    case SawExec(id, _) =>
      id.None? || id.value < -0x1f_ffff_ffff_ffff || id.value > 0x1f_ffff_ffff_ffff || HasExec(s, w.both.attempt.session, id.value)
    case SawLifecycle(l) => l.None? || !(Completes(s, l.value) || StartsCall(s, l.value))
    case Appended(message) => !Matched(w.injections, message) || |s.appended| >= 128
    case _ => false
  }

  lemma TakeEffect(injections: seq<Injection>, message: Option<Message>)
    ensures var (left, echo) := Take(injections, message);
            && (echo.Some? <==> Matched(injections, message))
            && (echo.None? ==> left == injections)
            && (forall i | Echoes(injections, message, i) ::
                  echo == Some(Echo(injections[i].kind, injections[i].id)) && left == injections[..i] + injections[i + 1..])
  {
    if message.Some? {
      var first := WithMessage(injections, message.value.id);
      forall i | IsFirst(injections, message.value.id, i) ensures i == first {}
      if first < |injections| && injections[first].delivered && injections[first].text == message.value.text {
        assert Echoes(injections, message, first);
      }
    }
  }

  lemma UnsafeStep(w: World, e: Event)
    ensures Next(w, e).both.state.rebaseUnsafe <==> w.both.state.rebaseUnsafe || UnsafeFrame(w, e)
  {
    if e.Appended? {
      TakeEffect(w.injections, e.message);
    }
  }

  ghost predicate MeetsUnsafe(w: World, events: seq<Event>)
    decreases |events|
  {
    events != [] && (UnsafeFrame(w, events[0]) || MeetsUnsafe(Next(w, events[0]), events[1..]))
  }

  /** Over any run a history is unsafe exactly when it was before or an unsafe frame
      came: none goes unnoticed and nothing else costs the rebuild. */
  lemma {:induction false} UnsafeIff(w: World, events: seq<Event>)
    ensures Run(w, events).both.state.rebaseUnsafe <==> w.both.state.rebaseUnsafe || MeetsUnsafe(w, events)
    decreases |events|
  {
    if events != [] {
      UnsafeStep(w, events[0]);
      UnsafeIff(Next(w, events[0]), events[1..]);
    }
  }

  // ------------------------------------------------------------------- barriers

  /** The barrier a frame is, if it is one. */
  ghost function BarrierOf(w: World, e: Event): Option<Reason> {
    match e
    case SawBarrier(reason) => Some(reason)
    case SawLifecycle(l) => if l.Some? && Completes(w.both.state, l.value) then None else Some(DisplayToolLifecycle)
    case Appended(_) => Some(StatefulInteraction)
    case _ => None
  }

  predicate Stateful(reason: Reason) {
    reason != VisibleText && reason != VisibleReasoning && reason != VisibleToolRow
  }

  /** An echo of the Run's own injection is a barrier, but not another one. */
  ghost predicate OwnEcho(w: World, e: Event) {
    e.Appended? && Matched(w.injections, e.message) && |w.both.state.appended| < 128
  }

  /** An attempt remembers its first barrier, whether any was stateful, and whether
      any was more than an echo; the Run remembers its first stateful one. */
  ghost predicate Noted(b: Both, n: Both, barrier: Option<Reason>, ownEcho: bool) {
    && n.attempt.session == b.attempt.session
    && n.attempt.barrier == (if b.attempt.barrier.Some? then b.attempt.barrier else barrier)
    && (n.attempt.stateful <==> b.attempt.stateful || (barrier.Some? && Stateful(barrier.value)))
    && (n.attempt.otherBarrier <==> b.attempt.otherBarrier || (barrier.Some? && !ownEcho))
    && n.state.statefulBarrier ==
       (if b.state.statefulBarrier.Some? then b.state.statefulBarrier
        else if barrier.Some? && Stateful(barrier.value) then barrier else None)
  }

  lemma BarrierEffect(w: World, e: Event)
    requires !e.Resumed?
    ensures Noted(w.both, Next(w, e).both, BarrierOf(w, e), OwnEcho(w, e))
  {
    match e
    case SawLifecycle(l) => LifecycleBarrier(w.both, l);
    case Appended(message) =>
      TakeEffect(w.injections, message);
      AppendedBarrier(w.both, Take(w.injections, message).1);
    case _ =>
  }

  lemma LifecycleBarrier(b: Both, l: Option<Lifecycle>)
    ensures Noted(b, RecordToolLifecycle(b, l), if l.Some? && Completes(b.state, l.value) then None else Some(DisplayToolLifecycle), false)
  {}

  lemma AppendedBarrier(b: Both, echo: Option<Echo>)
    ensures Noted(b, RecordAppendedMessage(b, echo), Some(StatefulInteraction), echo.Some? && |b.state.appended| < 128)
  {}

  /** A resumed attempt starts without a barrier of its own, stateful if the Run was. */
  lemma ResumeEffect(w: World, session: Id)
    ensures Next(w, Resumed(session)).both
         == Both(w.both.state, Attempt(session, None, w.both.state.statefulBarrier.Some?, false))
  {}

  ghost predicate MeetsBarrier(w: World, events: seq<Event>)
    decreases |events|
  {
    events != [] && (BarrierOf(w, events[0]).Some? || MeetsBarrier(Next(w, events[0]), events[1..]))
  }

  ghost predicate MeetsOther(w: World, events: seq<Event>)
    decreases |events|
  {
    events != [] && ((BarrierOf(w, events[0]).Some? && !OwnEcho(w, events[0])) || MeetsOther(Next(w, events[0]), events[1..]))
  }

  lemma {:induction false} BarriersMet(w: World, events: seq<Event>)
    requires forall e | e in events :: !e.Resumed?
    ensures var a, n := w.both.attempt, Run(w, events).both.attempt;
            && (n.barrier.Some? <==> a.barrier.Some? || MeetsBarrier(w, events))
            && (n.otherBarrier <==> a.otherBarrier || MeetsOther(w, events))
            && (n.stateful ==> a.stateful || n.barrier.Some?)
            && (a.stateful ==> n.stateful)
    decreases |events|
  {
    if events != [] {
      assert events[0] in events;
      BarrierEffect(w, events[0]);
      BarriersMet(Next(w, events[0]), events[1..]);
    }
  }

  /** A failure of an attempt stays replayable exactly when the Run was never
      stateful before it and no barrier frame came since; and it is put down to
      echoes alone exactly when barriers came and all of them were. */
  lemma ReplaySafeIff(w: World, session: Id, events: seq<Event>, failure: Failure)
    requires forall e | e in events :: !e.Resumed?
    ensures var w0 := Next(w, Resumed(session));
            var judged := ApplyTo(Run(w0, events).both.attempt, failure);
            && (judged.replaySafe <==> failure.replaySafe && w.both.state.statefulBarrier.None? && !MeetsBarrier(w0, events))
            && (!failure.echoesOnly ==> (judged.echoesOnly <==> MeetsBarrier(w0, events) && !MeetsOther(w0, events)))
            && (MeetsBarrier(w0, events) ==> judged.barrier == Some(if Run(w0, events).both.attempt.stateful then StatefulSoFar else OutputSoFar))
  {
    BarriersMet(Next(w, Resumed(session)), events);
  }

  // ------------------------------------------------------------------- evidence

  /** An exec with a fresh safe id is kept with the call it claims, if it names one;
      any other leaves the execs alone. */
  lemma ExecEffect(w: World, id: Option<int>, call: Id)
    ensures var s, n := w.both.state, Next(w, SawExec(id, call)).both.state;
            && n.execs == (if UnsafeFrame(w, SawExec(id, call)) then s.execs
                           else s.execs + [Exec(w.both.attempt.session, id.value, if call == "" then None else Some(call))])
            && n.announced == s.announced && n.catalog == s.catalog && n.appended == s.appended
  {}

  /** A start is announced once, and remembered as a lookup if it is one; the end of
      a lookup that was started completes it; nothing else changes the calls. */
  lemma LifecycleEffect(w: World, l: Lifecycle)
    ensures var s, n := w.both.state, Next(w, SawLifecycle(Some(l))).both.state;
            && n.execs == s.execs && n.appended == s.appended
            && n.announced == (if StartsCall(s, l) && l.call !in s.announced then s.announced + [l.call] else s.announced)
            && n.catalog == (if StartsCall(s, l) && l.catalog then s.catalog[l.call := Started]
                             else if l.progress == Completed && l.catalog && l.call in s.catalog && s.catalog[l.call] == Started
                             then s.catalog[l.call := Completed] else s.catalog)
  {}

  /** An echo is consumed once and accepted within the cap. */
  lemma AppendedEffect(w: World, message: Option<Message>)
    ensures var s, n := w.both.state, Next(w, Appended(message));
            && n.both.state.execs == s.execs && n.both.state.announced == s.announced && n.both.state.catalog == s.catalog
            && (!Matched(w.injections, message) ==> n.injections == w.injections && n.both.state.appended == s.appended)
            && (forall i | Echoes(w.injections, message, i) ::
                  && n.injections == w.injections[..i] + w.injections[i + 1..]
                  && n.both.state.appended == (if |s.appended| < 128 then s.appended + [Echo(w.injections[i].kind, w.injections[i].id)] else s.appended))
  {
    TakeEffect(w.injections, message);
  }

  /** An injection is remembered, the oldest of more than 64 forgotten. */
  lemma InjectedEffect(w: World, injection: Injection)
    ensures var all := w.injections + [injection];
            Next(w, Injected(injection)).injections == (if |all| > 64 then all[|all| - 64..] else all)
    ensures Next(w, Injected(injection)).both == w.both
  {}

  /** The first injection with that id is delivered, if the id is one. */
  lemma DeliveredEffect(w: World, id: Id)
    ensures var n := Next(w, WasDelivered(id));
            && n.both == w.both && |n.injections| == |w.injections|
            && forall i | 0 <= i < |w.injections| ::
                 n.injections[i] == (if id != "" && w.injections[i].id == id && (forall j | 0 <= j < i :: w.injections[j].id != id)
                                     then w.injections[i].(delivered := true) else w.injections[i])
  {}
}
