/** Publishing an approved review (scripts/review-publish.py): one identity's
    post runs under an exclusive lock, with a durable checkpoint file, crashes
    between any two steps, and replies that are lost or unreadable.

    Whatever is read from GitHub is arbitrary. The one assumption about it is
    that a proven rejection created nothing. */
module Publication {

  type Thread = string

  datatype Option<T> = None | Some(value: T)

  /** The `state` a checkpoint names; `Other` is any value the program never writes. */
  datatype State = Posting | Posted | Rejected | Other

  datatype Mark = Sending | Resolved | Refused

  datatype File = Missing | Unreadable | Record(state: State, resolutions: map<Thread, Mark>)

  const POSTING := Record(Posting, map[])

  /** An unreadable file or an unknown state counts as an unsettled delivery. */
  function CheckpointState(file: File): Option<State> {
    match file
    case Missing => None
    case Unreadable => Some(Posting)
    case Record(state, _) => Some(if state == Other then Posting else state)
  }

  function ResolutionsOf(file: File): map<Thread, Mark> {
    if file.Record? then file.resolutions else map[]
  }

  function ReviewRecorded(file: File): File {
    Record(Posted, ResolutionsOf(file))
  }

  function Marked(file: File, t: Thread, mark: Mark): File {
    Record(Posted, ResolutionsOf(file)[t := mark])
  }

  /** What came back for a request: a usable receipt, an unusable one, a failure
      that proves nothing, or a proven rejection. */
  datatype Reply = Receipt | Garbled | Failed | Denied

  /** Where a post run stands; `next` counts the threads already dealt with. */
  datatype Phase =
    | Idle
    | Preparing
    | WritingCheckpoint
    | Checking
    | SendingReview
    | Answered(reply: Reply)
    | Recording
    | Resolving(next: nat)
    | Asking(next: nat)
    | Heard(next: nat, reply: Reply)
    | Confirming(next: nat)

  /** The checkpoint, the current run and its threads to resolve, and what
      GitHub has seen: review requests sent, refused and carried out, and thread
      resolutions asked for and refused. */
  datatype World = World(
    file: File,
    phase: Phase,
    actions: seq<Thread>,
    sent: nat,
    refused: nat,
    created: nat,
    asked: multiset<Thread>,
    denied: multiset<Thread>)

  const START := World(Missing, Idle, [], 0, 0, 0, multiset{}, multiset{})

  datatype Event =
    | Stopped                    // an exit or a crash: whatever was written stays
    | Began(actions: seq<Thread>)
    | LookedUp(existing: bool, priorVisible: bool)
    | WroteCheckpoint
    | Checked
    | Dropped                    // stopped before sending: the checkpoint is removed
    | Sent(reply: Reply)
    | Landed                     // GitHub carries out a request it did not refuse, at any time
    | Settled(recovered: bool)
    | RecordedReview
    | LookedAtThread(isResolved: bool)
    | Asked(reply: Reply)
    | HandledReply
    | LookedAgain(isResolved: bool)
    | Finished
    | FileDamaged                // between runs, by something else

  predicate Enabled(w: World, e: Event) {
    match e
    case Stopped => true
    case Began(_) => w.phase == Idle
    case LookedUp(_, _) => w.phase == Preparing
    case WroteCheckpoint => w.phase == WritingCheckpoint
    case Checked => w.phase == Checking
    case Dropped => w.phase == Checking
    case Sent(_) => w.phase == SendingReview
    case Landed => w.created + w.refused < w.sent
    case Settled(_) => w.phase.Answered?
    case RecordedReview => w.phase == Recording
    case LookedAtThread(_) => w.phase.Resolving? && w.phase.next < |w.actions|
    case Asked(_) => w.phase.Asking? && w.phase.next < |w.actions|
    case HandledReply => w.phase.Heard? && w.phase.next < |w.actions|
    case LookedAgain(_) => w.phase.Confirming? && w.phase.next < |w.actions|
    case Finished => w.phase.Resolving? && w.phase.next == |w.actions|
    case FileDamaged => w.phase == Idle
  }

  /** `post_locked` up to the decision to send. */
  function AfterLookup(file: File, existing: bool, priorVisible: bool): Phase {
    if existing then Recording
    else if file.Record? && file.state == Posted then if priorVisible then Recording else Idle
    else if CheckpointState(file) == Some(Posting) then Idle
    else WritingCheckpoint
  }

  function AfterThread(w: World, isResolved: bool): World
    requires w.phase.Resolving? && w.phase.next < |w.actions|
  {
    var t := w.actions[w.phase.next];
    if !(w.file.Record? && w.file.state == Posted) then w.(phase := Idle)
    else if isResolved then w.(phase := Confirming(w.phase.next))
    else if t in w.file.resolutions && w.file.resolutions[t] != Refused then w.(phase := Idle)
    else w.(file := Marked(w.file, t, Sending), phase := Asking(w.phase.next))
  }

  function Next(w: World, e: Event): World
    requires Enabled(w, e)
  {
    match e
    case Stopped => w.(phase := Idle)
    case Began(actions) => w.(phase := Preparing, actions := actions)
    case LookedUp(existing, priorVisible) => w.(phase := AfterLookup(w.file, existing, priorVisible))
    case WroteCheckpoint => w.(file := POSTING, phase := Checking)
    case Checked => w.(phase := SendingReview)
    case Dropped => w.(file := Missing, phase := Idle)
    case Sent(reply) => w.(phase := Answered(reply), sent := w.sent + 1, refused := w.refused + if reply == Denied then 1 else 0)
    case Landed => w.(created := w.created + 1)
    case Settled(recovered) =>
      if w.phase.reply == Receipt || (w.phase.reply != Garbled && recovered) then w.(phase := Recording)
      else if w.phase.reply == Denied then w.(file := Record(Rejected, map[]), phase := Idle)
      else w.(phase := Idle)
    case RecordedReview => w.(file := ReviewRecorded(w.file), phase := Resolving(0))
    case LookedAtThread(isResolved) => AfterThread(w, isResolved)
    case Asked(reply) =>
      var t := w.actions[w.phase.next];
      w.(phase := Heard(w.phase.next, reply), asked := w.asked + multiset{t},
         denied := if reply == Denied then w.denied + multiset{t} else w.denied)
    case HandledReply =>
      var t := w.actions[w.phase.next];
      if w.phase.reply == Receipt then w.(phase := Confirming(w.phase.next))
      else if w.phase.reply == Denied then w.(file := Marked(w.file, t, Refused), phase := Idle)
      else w.(phase := Idle)
    case LookedAgain(isResolved) =>
      if isResolved then w.(file := Marked(w.file, w.actions[w.phase.next], Resolved), phase := Resolving(w.phase.next + 1))
      else w.(phase := Idle)
    case Finished => w.(phase := Idle)
    case FileDamaged => w.(file := Unreadable)
  }

  // ----------------------------------------------------------------- invariant

  /** Review requests GitHub may have carried out or may yet carry out. */
  function Open(w: World): int {
    w.sent - w.refused
  }

  predicate MayPost(file: File) {
    CheckpointState(file) == None || CheckpointState(file) == Some(Rejected)
  }

  ghost predicate ReviewInv(w: World) {
    && w.created <= Open(w) <= 1
    && (MayPost(w.file) ==> Open(w) == 0)
    && (w.phase == WritingCheckpoint ==> MayPost(w.file))
    && (w.phase == Checking || w.phase == SendingReview ==> w.file == POSTING && Open(w) == 0)
    && (w.phase.Answered? ==> w.file == POSTING && Open(w) == if w.phase.reply == Denied then 0 else 1)
    && (InThread(w) ==> w.phase.next < |w.actions| && w.file.Record? && w.file.state == Posted)
    && (!(w.file.Record? && w.file.state == Posted) ==> ResolutionsOf(w.file) == map[])
  }

  predicate InThread(w: World) {
    w.phase.Asking? || w.phase.Heard? || w.phase.Confirming?
  }

  /** A thread's resolution requests GitHub may have carried out. */
  function OpenFor(w: World, t: Thread): int {
    w.asked[t] as int - w.denied[t] as int
  }

  predicate MayAsk(file: File, t: Thread) {
    t !in ResolutionsOf(file) || ResolutionsOf(file)[t] == Refused
  }

  /** The run is at work on this thread. */
  predicate At(w: World, t: Thread) {
    InThread(w) && w.phase.next < |w.actions| && w.actions[w.phase.next] == t
  }

  /** One thread's requests: at most one is open, none where the checkpoint lets a
      run ask, and none is open when a run is about to ask. */
  ghost predicate ThreadInv(w: World, t: Thread) {
    && 0 <= OpenFor(w, t) <= 1
    && (MayAsk(w.file, t) ==> OpenFor(w, t) == 0)
    && (At(w, t) && w.phase.Asking? ==> OpenFor(w, t) == 0 && !MayAsk(w.file, t))
    && (At(w, t) && w.phase.Heard? && w.phase.reply == Denied ==> OpenFor(w, t) == 0)
  }

  lemma ReviewInvKept(w: World, e: Event)
    requires ReviewInv(w) && Enabled(w, e)
    ensures ReviewInv(Next(w, e))
  {}

  /** The checkpoint is lost while a request for this thread is open. */
  predicate Exposes(w: World, e: Event, t: Thread) {
    e.FileDamaged? && OpenFor(w, t) == 1
  }

  lemma AskCounts(w: World, reply: Reply, t: Thread)
    requires w.phase.Asking? && w.phase.next < |w.actions|
    ensures OpenFor(Next(w, Asked(reply)), t) == OpenFor(w, t) + if At(w, t) && reply != Denied then 1 else 0
  {}

  lemma ThreadInvKept(w: World, e: Event, t: Thread)
    requires ThreadInv(w, t) && ReviewInv(w) && Enabled(w, e) && !Exposes(w, e, t)
    ensures ThreadInv(Next(w, e), t)
  {
    if e.Asked? {
      AskCounts(w, e.reply, t);
    }
  }

  function Run(w: World, events: seq<Event>): World
    requires Possible(w, events)
    decreases |events|
  {
    if events == [] then w else Run(Next(w, events[0]), events[1..])
  }

  predicate Possible(w: World, events: seq<Event>)
    decreases |events|
  {
    events != [] ==> Enabled(w, events[0]) && Possible(Next(w, events[0]), events[1..])
  }

  lemma {:induction false} RunKeepsReview(w: World, events: seq<Event>)
    requires ReviewInv(w) && Possible(w, events)
    ensures ReviewInv(Run(w, events))
    decreases |events|
  {
    if events != [] {
      ReviewInvKept(w, events[0]);
      RunKeepsReview(Next(w, events[0]), events[1..]);
    }
  }

  /** The checkpoint is never lost while a request for this thread is open. */
  predicate Spared(w: World, events: seq<Event>, t: Thread)
    requires Possible(w, events)
    decreases |events|
  {
    events != [] ==> !Exposes(w, events[0], t) && Spared(Next(w, events[0]), events[1..], t)
  }

  lemma {:induction false} RunKeepsThread(w: World, events: seq<Event>, t: Thread)
    requires ReviewInv(w) && ThreadInv(w, t) && Possible(w, events) && Spared(w, events, t)
    ensures ThreadInv(Run(w, events), t)
    decreases |events|
  {
    if events != [] {
      ReviewInvKept(w, events[0]);
      ThreadInvKept(w, events[0], t);
      RunKeepsThread(Next(w, events[0]), events[1..], t);
    }
  }

  lemma NothingSent(w: World, t: Thread)
    requires w.file == Missing && w.phase == Idle && w.sent == w.refused == w.created == 0
    requires w.asked == multiset{} && w.denied == multiset{}
    ensures ReviewInv(w) && ThreadInv(w, t)
  {}

  lemma FromNothing(start: World, events: seq<Event>, w: World)
    requires start.file == Missing && start.phase == Idle && start.sent == start.refused == start.created == 0
    requires start.asked == multiset{} && start.denied == multiset{}
    requires Possible(start, events) && w == Run(start, events)
    ensures ReviewInv(w) && forall t: Thread :: Spared(start, events, t) ==> ThreadInv(w, t)
  {
    NothingSent(start, "");
    RunKeepsReview(start, events);
    forall t: Thread | Spared(start, events, t)
      ensures ThreadInv(w, t)
    {
      NothingSent(start, t);
      RunKeepsThread(start, events, t);
    }
  }

  // -------------------------------------------------------------- main results

  /** Over any sequence of post runs, crashes and lost replies for one identity,
      at most one review is ever created, however late GitHub carries a request
      out, and even if the checkpoint becomes unreadable between runs. */
  lemma AtMostOneReview(events: seq<Event>, w: World)
    requires Possible(START, events) && w == Run(START, events)
    ensures w.created <= Open(w) <= 1
  {
    FromNothing(START, events, w);
  }

  /** "posting" is durable before each send, and a send starts only where no
      earlier request can have created a review. */
  lemma SendsFromDurablePosting(events: seq<Event>, w: World, e: Event)
    requires Possible(START, events) && w == Run(START, events) && Enabled(w, e)
    ensures e.Sent? ==> w.file == POSTING && Open(w) == 0
    ensures e.WroteCheckpoint? ==> MayPost(w.file) && Open(w) == 0
  {
    FromNothing(START, events, w);
  }

  /** Only a stop before sending or a proven rejection leaves "posting" without a
      receipt; a posted checkpoint stays posted. */
  lemma LeavingPosting(w: World, e: Event)
    requires ReviewInv(w) && Enabled(w, e)
    ensures CheckpointState(w.file) == Some(Posting) && CheckpointState(Next(w, e).file) != Some(Posting) ==>
              || (e.Dropped? && Open(w) == 0)
              || (e.Settled? && w.phase == Answered(Denied) && Open(w) == 0)
              || (e.RecordedReview? && CheckpointState(Next(w, e).file) == Some(Posted))
    ensures CheckpointState(w.file) == Some(Posted) && !e.FileDamaged? ==> CheckpointState(Next(w, e).file) == Some(Posted)
  {}

  /** In every run that does not lose the checkpoint while a request for this
      thread is open, the thread is not asked to resolve again after a request
      that was not proven rejected. */
  lemma AskedOnce(events: seq<Event>, w: World, t: Thread)
    requires Possible(START, events) && Spared(START, events, t) && w == Run(START, events)
    ensures 0 <= OpenFor(w, t) <= 1
  {
    FromNothing(START, events, w);
  }

  /** Recording a review that is already visible keeps the threads' states. */
  lemma RecordingKeepsResolutions(w: World)
    requires w.phase == Recording && w.file.Record?
    ensures Next(w, RecordedReview).file.resolutions == w.file.resolutions
  {}

  lemma {:induction false} Then(w: World, events: seq<Event>, e: Event) returns (longer: seq<Event>)
    requires Possible(w, events) && Enabled(Run(w, events), e)
    ensures longer == events + [e] && Possible(w, longer) && Run(w, longer) == Next(Run(w, events), e)
    decreases |events|
  {
    longer := events + [e];
    if events != [] {
      var rest := Then(Next(w, events[0]), events[1..], e);
      assert longer[1..] == rest;
    }
  }

  lemma SparedStep(w: World, events: seq<Event>, e: Event, t: Thread)
    requires Possible(w, events) && Enabled(Run(w, events), e) && Spared(w, events, t) && !e.FileDamaged?
    requires Possible(w, events + [e])
    ensures Spared(w, events + [e], t)
    decreases |events|
  {
    if events != [] {
      assert (events + [e])[1..] == events[1..] + [e];
      SparedStep(Next(w, events[0]), events[1..], e, t);
    }
  }

  /** One more event that leaves the checkpoint alone. */
  lemma ThenSpared(w: World, events: seq<Event>, e: Event, t: Thread) returns (longer: seq<Event>)
    requires Possible(w, events) && Enabled(Run(w, events), e) && Spared(w, events, t) && !e.FileDamaged?
    ensures longer == events + [e] && Possible(w, longer) && Run(w, longer) == Next(Run(w, events), e) && Spared(w, longer, t)
  {
    longer := Then(w, events, e);
    SparedStep(w, events, e, t);
  }

  /** A run that finds the review already visible and asks for one thread,
      hearing nothing back. */
  lemma OneUnansweredRun(w: World, t: Thread) returns (events: seq<Event>)
    requires w.phase == Idle && MayAsk(ReviewRecorded(w.file), t)
    ensures Possible(w, events) && Spared(w, events, t)
    ensures Run(w, events).asked == w.asked + multiset{t} && Run(w, events).denied == w.denied
  {
    events := ThenSpared(w, [], Began([t]), t);
    events := ThenSpared(w, events, LookedUp(true, false), t);
    events := ThenSpared(w, events, RecordedReview, t);
    events := ThenSpared(w, events, LookedAtThread(false), t);
    events := ThenSpared(w, events, Asked(Failed), t);
  }

  /** Some run that loses no checkpoint again while a request for the thread is
      open leaves two of its requests open. */
  ghost predicate AskedTwice(w: World, t: Thread) {
    exists events: seq<Event> :: Possible(w, events) && Spared(w, events, t) && OpenFor(Run(w, events), t) == 2
  }

  /** Losing the checkpoint between runs takes the thread states with it. The
      review is then found again and recorded without them, so a thread can be
      asked a second time if and only if a request for it was open. */
  lemma DamageForgetsThreads(events: seq<Event>, w: World, t: Thread)
    requires Possible(START, events) && Spared(START, events, t) && w == Run(START, events) && w.phase == Idle
    ensures AskedTwice(Next(w, FileDamaged), t) <==> OpenFor(w, t) == 1
  {
    FromNothing(START, events, w);
    DamageMatters(w, t);
  }

  lemma DamageMatters(w: World, t: Thread)
    requires ReviewInv(w) && ThreadInv(w, t) && w.phase == Idle
    ensures AskedTwice(Next(w, FileDamaged), t) <==> OpenFor(w, t) == 1
  {
    var n := Next(w, FileDamaged);
    if OpenFor(w, t) == 1 {
      var more := OneUnansweredRun(n, t);
      OneMoreAsked(n, Run(n, more), t);
    } else {
      ReviewInvKept(w, FileDamaged);
      ThreadInvKept(w, FileDamaged, t);
      forall more: seq<Event> | Possible(n, more) && Spared(n, more, t)
        ensures OpenFor(Run(n, more), t) <= 1
      {
        RunKeepsThread(n, more, t);
      }
    }
  }

  lemma OneMoreAsked(w: World, n: World, t: Thread)
    requires n.asked == w.asked + multiset{t} && n.denied == w.denied
    ensures OpenFor(n, t) == OpenFor(w, t) + 1
  {}

  /** A request stays open in a run that asks for the thread and hears nothing. */
  lemma RequestCanStayOpen(t: Thread) returns (events: seq<Event>)
    ensures Possible(START, events) && Spared(START, events, t)
    ensures Run(START, events).phase == Idle && OpenFor(Run(START, events), t) == 1
  {
    events := OneUnansweredRun(START, t);
    OneMoreAsked(START, Run(START, events), t);
    events := ThenSpared(START, events, Stopped, t);
  }

  // ------------------------------------------------- the code, step after step

  /** Everything one `post_locked` call reads or hears. */
  datatype Answers = Answers(existing: bool, priorVisible: bool, mayStillSend: bool, reply: Reply, recovered: bool, recordable: bool)

  datatype Outcome = Published | Exit

  /** The file, the requests sent and refused, and how the call ended. */
  datatype Post = Post(file: File, sent: nat, refused: nat, outcome: Outcome)

  function RecordIf(file: File, recordable: bool, sent: nat, refused: nat): Post {
    if recordable then Post(ReviewRecorded(file), sent, refused, Published) else Post(file, sent, refused, Exit)
  }

  function PostLocked(file: File, a: Answers): Post {
    match AfterLookup(file, a.existing, a.priorVisible)
    case Recording => RecordIf(file, a.recordable, 0, 0)
    case WritingCheckpoint => Attempt(a)
    case _ => Post(file, 0, 0, Exit)
  }

  /** From the durable "posting" on. */
  function Attempt(a: Answers): Post {
    if a.mayStillSend then AfterReply(a) else Post(Missing, 0, 0, Exit)
  }

  function AfterReply(a: Answers): Post {
    var refused := if a.reply == Denied then 1 else 0;
    if a.reply == Receipt || (a.reply != Garbled && a.recovered) then RecordIf(POSTING, a.recordable, 1, refused)
    else Post(if a.reply == Denied then Record(Rejected, map[]) else POSTING, 1, refused, Exit)
  }

  lemma Recorded(w: World, events: seq<Event>, recordable: bool) returns (longer: seq<Event>)
    requires Possible(w, events) && Run(w, events).phase == Recording
    ensures Possible(w, longer)
    ensures var r, n := Run(w, events), Run(w, longer);
            && n == r.(file := RecordIf(r.file, recordable, 0, 0).file, phase := n.phase)
            && n.phase == if recordable then Resolving(0) else Idle
  {
    longer := Then(w, events, if recordable then RecordedReview else Stopped);
  }

  lemma AnsweredIsRun(w: World, events: seq<Event>, a: Answers) returns (longer: seq<Event>)
    requires Possible(w, events) && Run(w, events).phase == Answered(a.reply) && Run(w, events).file == POSTING
    ensures Possible(w, longer)
    ensures var r, n := Run(w, events), Run(w, longer);
            var p := AfterReply(a);
            && n == r.(file := p.file, phase := n.phase)
            && n.phase == if p.outcome == Published then Resolving(0) else Idle
  {
    longer := Then(w, events, Settled(a.recovered));
    if a.reply == Receipt || (a.reply != Garbled && a.recovered) {
      longer := Recorded(w, longer, a.recordable);
    }
  }

  lemma SendIsRun(w: World, events: seq<Event>, a: Answers) returns (longer: seq<Event>)
    requires Possible(w, events) && Run(w, events).phase == WritingCheckpoint
    ensures Possible(w, longer)
    ensures var r, n := Run(w, events), Run(w, longer);
            var p := Attempt(a);
            && n == r.(file := p.file, sent := r.sent + p.sent, refused := r.refused + p.refused, phase := n.phase)
            && n.phase == if p.outcome == Published then Resolving(0) else Idle
  {
    longer := Then(w, events, WroteCheckpoint);
    if !a.mayStillSend {
      longer := Then(w, longer, Dropped);
    } else {
      longer := Then(w, longer, Checked);
      longer := Then(w, longer, Sent(a.reply));
      longer := AnsweredIsRun(w, longer, a);
    }
  }

  /** Each call of the straight-line code is a run of the step machine. */
  lemma PostLockedIsRun(w: World, a: Answers) returns (events: seq<Event>)
    requires w.phase == Preparing
    ensures Possible(w, events)
    ensures var p, n := PostLocked(w.file, a), Run(w, events);
            && n == w.(file := p.file, sent := w.sent + p.sent, refused := w.refused + p.refused, phase := n.phase)
            && n.phase == if p.outcome == Published then Resolving(0) else Idle
  {
    events := Then(w, [], LookedUp(a.existing, a.priorVisible));
    if AfterLookup(w.file, a.existing, a.priorVisible) == Recording {
      events := Recorded(w, events, a.recordable);
    } else if AfterLookup(w.file, a.existing, a.priorVisible) == WritingCheckpoint {
      events := SendIsRun(w, events, a);
    }
  }

  /** What one thread's turn reads and hears. */
  datatype ThreadAnswers = ThreadAnswers(isResolved: bool, mayStillAsk: bool, reply: Reply, confirmable: bool, resolvedNow: bool)

  datatype Threads = Threads(file: File, asked: multiset<Thread>, denied: multiset<Thread>, outcome: Outcome)

  function Confirm(file: File, t: Thread, a: ThreadAnswers, asked: multiset<Thread>): Threads {
    if a.confirmable && a.resolvedNow then Threads(Marked(file, t, Resolved), asked, multiset{}, Published)
    else Threads(file, asked, multiset{}, Exit)
  }

  function ResolveOne(file: File, t: Thread, a: ThreadAnswers): Threads {
    if !(file.Record? && file.state == Posted) then Threads(file, multiset{}, multiset{}, Exit)
    else if a.isResolved then Confirm(file, t, a, multiset{})
    else if !MayAsk(file, t) then Threads(file, multiset{}, multiset{}, Exit)
    else Ask(Marked(file, t, Sending), t, a)
  }

  /** From the durable "sending" on. */
  function Ask(sending: File, t: Thread, a: ThreadAnswers): Threads {
    if !a.mayStillAsk then Threads(sending, multiset{}, multiset{}, Exit)
    else if a.reply == Receipt then Confirm(sending, t, a, multiset{t})
    else if a.reply == Denied then Threads(Marked(sending, t, Refused), multiset{t}, multiset{t}, Exit)
    else Threads(sending, multiset{t}, multiset{}, Exit)
  }

  function ResolveAll(file: File, actions: seq<Thread>, answers: seq<ThreadAnswers>): Threads
    requires |answers| == |actions|
    decreases |actions|
  {
    if actions == [] then Threads(file, multiset{}, multiset{}, Published)
    else
      var one := ResolveOne(file, actions[0], answers[0]);
      if one.outcome == Exit then one
      else
        var rest := ResolveAll(one.file, actions[1..], answers[1..]);
        Threads(rest.file, one.asked + rest.asked, one.denied + rest.denied, rest.outcome)
  }

  lemma ConfirmedIsRun(w: World, events: seq<Event>, a: ThreadAnswers) returns (longer: seq<Event>)
    requires Possible(w, events) && Run(w, events).phase.Confirming? && Run(w, events).phase.next < |Run(w, events).actions|
    ensures Possible(w, longer)
    ensures var r, n := Run(w, events), Run(w, longer);
            var c := Confirm(r.file, r.actions[r.phase.next], a, multiset{});
            && n == r.(file := c.file, phase := n.phase)
            && n.phase == if c.outcome == Published then Resolving(r.phase.next + 1) else Idle
  {
    longer := Then(w, events, if a.confirmable then LookedAgain(a.resolvedNow) else Stopped);
  }

  lemma ResolveOneIsRun(w: World, a: ThreadAnswers) returns (events: seq<Event>)
    requires w.phase.Resolving? && w.phase.next < |w.actions|
    ensures Possible(w, events)
    ensures var r, n := ResolveOne(w.file, w.actions[w.phase.next], a), Run(w, events);
            && n == w.(file := r.file, asked := w.asked + r.asked, denied := w.denied + r.denied, phase := n.phase)
            && n.phase == if r.outcome == Published then Resolving(w.phase.next + 1) else Idle
  {
    events := Then(w, [], LookedAtThread(a.isResolved));
    if Run(w, events).phase.Confirming? {
      events := ConfirmedIsRun(w, events, a);
    } else if Run(w, events).phase.Asking? {
      events := AskIsRun(w, events, a);
    }
  }

  lemma AskIsRun(w: World, events: seq<Event>, a: ThreadAnswers) returns (longer: seq<Event>)
    requires Possible(w, events) && Run(w, events).phase.Asking? && Run(w, events).phase.next < |Run(w, events).actions|
    ensures Possible(w, longer)
    ensures var r, n := Run(w, events), Run(w, longer);
            var q := Ask(r.file, r.actions[r.phase.next], a);
            && n == r.(file := q.file, asked := r.asked + q.asked, denied := r.denied + q.denied, phase := n.phase)
            && n.phase == if q.outcome == Published then Resolving(r.phase.next + 1) else Idle
  {
    if !a.mayStillAsk {
      longer := Then(w, events, Stopped);
    } else {
      longer := Then(w, events, Asked(a.reply));
      longer := Then(w, longer, HandledReply);
      if a.reply == Receipt {
        longer := ConfirmedIsRun(w, longer, a);
      }
    }
  }

  class Checkpoint {
    var file: File

    constructor ()
      ensures file == Missing
    {
      file := Missing;
    }

    method RecordVisibleReview(recordable: bool) returns (outcome: Outcome)
      modifies this
      ensures file == RecordIf(old(file), recordable, 0, 0).file && outcome == RecordIf(old(file), recordable, 0, 0).outcome
    {
      if !recordable { return Exit; }
      file := Record(Posted, ResolutionsOf(file));
      outcome := Published;
    }

    /** `post_locked`, whose requests and reads are answered by `a`. */
    method PostReview(a: Answers) returns (outcome: Outcome, ghost sent: nat, ghost refused: nat)
      modifies this
      ensures Post(file, sent, refused, outcome) == PostLocked(old(file), a)
    {
      sent, refused := 0, 0;
      if a.existing {
        outcome := RecordVisibleReview(a.recordable);
        return;
      }
      if file.Record? && file.state == Posted {
        if a.priorVisible {
          outcome := RecordVisibleReview(a.recordable);
          return;
        }
        return Exit, sent, refused;
      }
      if CheckpointState(file) == Some(Posting) { return Exit, sent, refused; }
      file := Record(Posting, map[]);
      if !a.mayStillSend {
        file := Missing;
        return Exit, sent, refused;
      }
      sent, refused := 1, if a.reply == Denied then 1 else 0;
      if a.reply == Failed || a.reply == Denied {
        if a.recovered {
          outcome := RecordVisibleReview(a.recordable);
          return;
        }
        if a.reply == Denied {
          file := Record(Rejected, map[]);
        }
        return Exit, sent, refused;
      }
      if a.reply == Garbled { return Exit, sent, refused; }
      outcome := RecordVisibleReview(a.recordable);
    }

    method ResolveThread(t: Thread, a: ThreadAnswers) returns (outcome: Outcome, ghost asked: multiset<Thread>, ghost denied: multiset<Thread>)
      modifies this
      ensures Threads(file, asked, denied, outcome) == ResolveOne(old(file), t, a)
    {
      asked, denied := multiset{}, multiset{};
      if !file.Record? || file.state != Posted { return Exit, asked, denied; }
      if !a.isResolved {
        if t in file.resolutions && file.resolutions[t] != Refused { return Exit, asked, denied; }
        file := file.(resolutions := file.resolutions[t := Sending]);
        if !a.mayStillAsk { return Exit, asked, denied; }
        asked := multiset{t};
        if a.reply != Receipt {
          if a.reply == Denied {
            denied := multiset{t};
            file := file.(resolutions := file.resolutions[t := Refused]);
          }
          return Exit, asked, denied;
        }
      }
      if !a.confirmable || !a.resolvedNow { return Exit, asked, denied; }
      file := file.(resolutions := file.resolutions[t := Resolved]);
      outcome := Published;
    }

    method ResolveThreads(actions: seq<Thread>, answers: seq<ThreadAnswers>)
      returns (outcome: Outcome, ghost asked: multiset<Thread>, ghost denied: multiset<Thread>)
      requires |answers| == |actions|
      modifies this
      ensures Threads(file, asked, denied, outcome) == ResolveAll(old(file), actions, answers)
    {
      asked, denied := multiset{}, multiset{};
      var i := 0;
      while i < |actions|
        invariant 0 <= i <= |actions|
        invariant var rest := ResolveAll(file, actions[i..], answers[i..]);
                  ResolveAll(old(file), actions, answers) == rest.(asked := asked + rest.asked, denied := denied + rest.denied)
      {
        assert actions[i..][1..] == actions[i + 1..] && answers[i..][1..] == answers[i + 1..];
        ghost var more, refusals;
        outcome, more, refusals := ResolveThread(actions[i], answers[i]);
        asked, denied := asked + more, denied + refusals;
        if outcome == Exit { return; }
        i := i + 1;
      }
      outcome := Published;
    }
  }

  // ------------------------------------------------------------- the approval

  /** What an approval record pins: the payload's target and digest, or a denial. */
  datatype Decision = Approve(identity: string, digest: string, target: string) | Deny

  /** A `generation` field holds a count, another value, or nothing usable. */
  datatype ApprovalFile = NoApproval | Unparsed | Approval(decision: Decision, generation: int)

  function Generation(file: ApprovalFile): nat {
    if file.Approval? && file.generation >= 0 then file.generation else 0
  }

  /** `write_record`: every replacement counts on from the record it replaces. */
  function WriteRecord(file: ApprovalFile, decision: Decision): ApprovalFile {
    Approval(decision, Generation(file) + 1)
  }

  /** `operation_key` of an approval: what a run pins before it works. */
  function OperationKey(file: ApprovalFile): Option<(Decision, int)> {
    if file.Approval? && file.decision.Approve? then Some((file.decision, file.generation)) else None
  }

  function WriteAll(file: ApprovalFile, decisions: seq<Decision>): ApprovalFile
    decreases |decisions|
  {
    if decisions == [] then file else WriteAll(WriteRecord(file, decisions[0]), decisions[1..])
  }

  lemma {:induction false} GenerationsGrow(file: ApprovalFile, decisions: seq<Decision>)
    ensures var r := WriteAll(file, decisions);
            Generation(r) == Generation(file) + |decisions| && (decisions != [] ==> r.Approval? && r.generation == Generation(r))
    decreases |decisions|
  {
    if decisions != [] {
      GenerationsGrow(WriteRecord(file, decisions[0]), decisions[1..]);
    }
  }

  /** A run notices every replacement of the approval it pinned, also by records
      that read the same: while the file stays readable, no later record has the
      pinned operation key. */
  lemma ReplacementIsNoticed(file: ApprovalFile, decisions: seq<Decision>)
    requires OperationKey(file).Some? && decisions != []
    ensures OperationKey(WriteAll(file, decisions)) != OperationKey(file)
  {
    GenerationsGrow(file, decisions);
  }

  /** If the file is lost or becomes unreadable in between, counting starts again:
      the same approval written `n` times afterwards passes for the pinned one if
      and only if the pinned record was itself the `n`-th since its file began. */
  lemma {:induction false} LostApprovalRepeats(pinned: ApprovalFile, lost: ApprovalFile, decisions: seq<Decision>)
    requires OperationKey(pinned).Some? && !lost.Approval? && decisions != []
    ensures OperationKey(WriteAll(lost, decisions)) == OperationKey(pinned)
            <==> decisions[|decisions| - 1] == pinned.decision && pinned.generation == |decisions|
  {
    GenerationsGrow(lost, decisions);
    LastDecision(lost, decisions);
  }

  lemma {:induction false} LastDecision(file: ApprovalFile, decisions: seq<Decision>)
    requires decisions != []
    ensures WriteAll(file, decisions).Approval? && WriteAll(file, decisions).decision == decisions[|decisions| - 1]
    decreases |decisions|
  {
    if |decisions| > 1 {
      LastDecision(WriteRecord(file, decisions[0]), decisions[1..]);
    }
  }
}
