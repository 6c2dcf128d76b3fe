/** What one post run and one thread's turn (scripts/review-publish.py) send,
    leave in the checkpoint and report, in terms of the file they find and the
    answers they hear alone. */
module PublicationEffects {

  import opened Publication

  // ----------------------------------------------------------------- the review

  /** Nothing says that a review may be on its way: no checkpoint, or a proven rejection. */
  predicate NothingUnderWay(file: File) {
    file == Missing || (file.Record? && file.state == Rejected)
  }

  /** A request goes out: no review with the marker is visible, none may be on its
      way, and nothing stops the run before sending. */
  predicate Sends(file: File, a: Answers) {
    !a.existing && NothingUnderWay(file) && a.mayStillSend
  }

  /** The run ends up with a review: one that matches was visible before, or the
      recorded one is, or the request brought a usable receipt, or the review of a
      failed request is found afterwards. */
  predicate HasReview(file: File, a: Answers) {
    || a.existing
    || (file.Record? && file.state == Posted && a.priorVisible)
    || (Sends(file, a) && (a.reply == Receipt || ((a.reply == Failed || a.reply == Denied) && a.recovered)))
  }

  /** One post run, whatever it finds and hears: one request at most, sent exactly
      when `Sends` says; published exactly when it has a review and that can be
      recorded. */
  lemma PostEffect(file: File, a: Answers)
    ensures var p := PostLocked(file, a);
            && p.sent == (if Sends(file, a) then 1 else 0)
            && p.refused == (if Sends(file, a) && a.reply == Denied then 1 else 0)
            && (p.outcome == Published <==> HasReview(file, a) && a.recordable)
  {}

  /** The checkpoint it leaves: the review's receipt, with the threads' marks if no
      request was sent; after a request without one, "rejected" for a proven
      rejection whose review was not found and "posting" otherwise; none when it
      was stopped before sending; and what it was when it decided to do nothing. */
  lemma PostLeaves(file: File, a: Answers)
    ensures PostLocked(file, a).file ==
            if HasReview(file, a) && a.recordable
            then Record(Posted, if file.Record? && !Sends(file, a) then file.resolutions else map[])
            else if Sends(file, a)
            then Record(if a.reply == Denied && !a.recovered then Rejected else Posting, map[])
            else if !a.existing && NothingUnderWay(file) then Missing
            else file
  {}

  // ---------------------------------------------------------------- the threads

  predicate ReceiptKept(file: File) {
    file.Record? && file.state == Posted
  }

  /** No request for the thread may be open: it was never asked for, or refused. */
  predicate NeverAsked(file: File, t: Thread) {
    file.Record? && (t in file.resolutions ==> file.resolutions[t] == Refused)
  }

  predicate Marks(file: File, t: Thread, a: ThreadAnswers) {
    ReceiptKept(file) && !a.isResolved && NeverAsked(file, t)
  }

  predicate Asks(file: File, t: Thread, a: ThreadAnswers) {
    Marks(file, t, a) && a.mayStillAsk
  }

  predicate Resolves(file: File, t: Thread, a: ThreadAnswers) {
    && ReceiptKept(file) && (a.isResolved || (Asks(file, t, a) && a.reply == Receipt))
    && a.confirmable && a.resolvedNow
  }

  /** One thread's turn: it is asked for exactly when the receipt is kept, the
      thread is open, no earlier request for it may be, and nothing stops the run;
      the turn succeeds exactly when it was resolved, before or by that request,
      and is seen to be. Its mark says how far it got; no other mark changes. */
  lemma ThreadEffect(file: File, t: Thread, a: ThreadAnswers)
    ensures var r := ResolveOne(file, t, a);
            && r.asked == (if Asks(file, t, a) then multiset{t} else multiset{})
            && r.denied == (if Asks(file, t, a) && a.reply == Denied then multiset{t} else multiset{})
            && (r.outcome == Published <==> Resolves(file, t, a))
            && r.file == (if Resolves(file, t, a) then Record(Posted, file.resolutions[t := Resolved])
                          else if Asks(file, t, a) && a.reply == Denied then Record(Posted, file.resolutions[t := Refused])
                          else if Marks(file, t, a) then Record(Posted, file.resolutions[t := Sending])
                          else file)
  {
    if file.Record? {
      assert file.resolutions[t := Sending][t := Resolved] == file.resolutions[t := Resolved];
      assert file.resolutions[t := Sending][t := Refused] == file.resolutions[t := Refused];
    }
  }

  ghost predicate MarkedResolved(file: File, t: Thread) {
    file.Record? && t in file.resolutions && file.resolutions[t] == Resolved
  }

  /** The thread's mark, or that it has none, is the same. */
  ghost predicate SameMark(before: File, after: File, t: Thread) {
    && (t in ResolutionsOf(before) <==> t in ResolutionsOf(after))
    && (t in ResolutionsOf(before) ==> ResolutionsOf(before)[t] == ResolutionsOf(after)[t])
  }

  /** A resolved thread is never asked for again and keeps its mark. */
  lemma {:induction false} ResolvedStays(file: File, actions: seq<Thread>, answers: seq<ThreadAnswers>, t: Thread)
    requires |answers| == |actions| && MarkedResolved(file, t)
    ensures MarkedResolved(ResolveAll(file, actions, answers).file, t)
    ensures ResolveAll(file, actions, answers).asked[t] == 0
    decreases |actions|
  {
    if actions != [] {
      ThreadEffect(file, actions[0], answers[0]);
      var one := ResolveOne(file, actions[0], answers[0]);
      if one.outcome == Published {
        ResolvedStays(one.file, actions[1..], answers[1..], t);
      }
    }
  }

  /** Other threads are neither asked for nor marked. */
  lemma {:induction false} OthersUntouched(file: File, actions: seq<Thread>, answers: seq<ThreadAnswers>, t: Thread)
    requires |answers| == |actions| && t !in actions
    ensures var r := ResolveAll(file, actions, answers); SameMark(file, r.file, t) && r.asked[t] == 0
    decreases |actions|
  {
    if actions != [] {
      ThreadEffect(file, actions[0], answers[0]);
      var one := ResolveOne(file, actions[0], answers[0]);
      if one.outcome == Published {
        OthersUntouched(one.file, actions[1..], answers[1..], t);
      }
    }
  }

  ghost predicate FirstResolved(file: File, actions: seq<Thread>, n: nat)
    requires n <= |actions|
  {
    forall i | 0 <= i < n :: MarkedResolved(file, actions[i])
  }

  lemma FirstResolvedToo(file: File, actions: seq<Thread>, n: nat)
    requires n < |actions| && MarkedResolved(file, actions[0]) && FirstResolved(file, actions[1..], n)
    ensures FirstResolved(file, actions, n + 1)
  {
    forall i | 0 < i < n + 1 ensures MarkedResolved(file, actions[i]) {
      assert actions[1..][i - 1] == actions[i];
    }
  }

  lemma TailsAgree(actions: seq<Thread>, answers: seq<ThreadAnswers>, n: nat)
    requires n + 1 < |actions| == |answers|
    ensures actions[..n + 2][1..] == actions[1..][..n + 1] && answers[..n + 2][1..] == answers[1..][..n + 1]
  {}

  /** The threads are dealt with in order: the run succeeds exactly when every
      turn does, and then every thread is marked as resolved; it ends with the
      first turn that fails, as if no thread came after it. */
  lemma {:induction false} ThreadsEffect(file: File, actions: seq<Thread>, answers: seq<ThreadAnswers>) returns (done: nat)
    requires |answers| == |actions|
    ensures done <= |actions|
    ensures var r := ResolveAll(file, actions, answers);
            && (r.outcome == Published <==> done == |actions|)
            && FirstResolved(r.file, actions, done)
            && (done < |actions| ==> r == ResolveAll(file, actions[..done + 1], answers[..done + 1]))
    decreases |actions|
  {
    done := 0;
    if actions != [] {
      ThreadEffect(file, actions[0], answers[0]);
      var one := ResolveOne(file, actions[0], answers[0]);
      if one.outcome == Published {
        var rest := ThreadsEffect(one.file, actions[1..], answers[1..]);
        ResolvedStays(one.file, actions[1..], answers[1..], actions[0]);
        done := rest + 1;
        FirstResolvedToo(ResolveAll(file, actions, answers).file, actions, rest);
        if done < |actions| {
          TailsAgree(actions, answers, rest);
        }
      } else {
        assert actions[..1][0] == actions[0] && answers[..1][0] == answers[0];
      }
    }
  }
}
