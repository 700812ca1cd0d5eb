/** Waiting for a CloudFormation stack: polling its events until the operation has completed. */
module StackWait {
  import opened Wrappers
  import opened StackEvents
  import opened StackFailures

  // ---------- the loop ----------

  /** The polls up to and including the first one woken by completion. */
  function UntilCompleted(polls: seq<Poll>): seq<Poll> {
    if polls == [] then [] else if polls[0].completed then [polls[0]] else [polls[0]] + UntilCompleted(polls[1..])
  }

  lemma {:induction false} UntilCompletedIs(polls: seq<Poll>, n: nat)
    requires n < |polls| && polls[n].completed && forall i :: 0 <= i < n ==> !polls[i].completed
    ensures UntilCompleted(polls) == polls[..n + 1]
  {
    if n > 0 {
      UntilCompletedIs(polls[1..], n - 1);
      assert polls[..n + 1] == [polls[0]] + polls[1..][..n];
    }
  }

  method ShowEvents(events: seq<Event>, w: Watch) returns (w': Watch)
    ensures w' == OnEvents(w, events)
  {
    var knownEvents, operation, stackErr, written := w.known, w.operation, w.failure, w.written;
    for i := 0 to |events|
      invariant Watch(knownEvents, operation, stackErr, written, w.deletions) == OnEvents(w, events[..i])
    {
      assert events[..i + 1][..i] == events[..i];
      var event := events[i];
      if event.id !in knownEvents {
        knownEvents := knownEvents + {event.id};
        var progressStatus := Working;
        if event.status == "CREATE_COMPLETE" {
          if operation == StackCreate {
            progressStatus := Done;
          }
        } else if event.status == "UPDATE_COMPLETE" {
          if operation == StackUpdate {
            progressStatus := Done;
          }
        } else if event.status == "DELETE_COMPLETE" {
          if operation == StackDelete {
            progressStatus := Done;
          }
        } else if Failed(event.status) {
          progressStatus := Error;
          if stackErr == None {
            operation := StackDelete;
            stackErr := Some(Shown(event, Error));
          }
        }
        written := written + [Shown(event, progressStatus)];
      }
    }
    assert events[..|events|] == events;
    w' := Watch(knownEvents, operation, stackErr, written, w.deletions);
  }

  /** The loop's body after it has been woken. */
  method HandlePoll(poll: Poll, w: Watch) returns (s: Status)
    ensures s == OnPoll(w, poll)
  {
    if poll.events == None {
      return Left(w, DescribeFailed);
    }
    var seen := ShowEvents(poll.events.value, w);
    if seen.operation != StackCreate || seen.failure != None {
      return Going(seen);
    }
    if poll.check != None {
      seen := seen.(deletions := seen.deletions + 1);
      if !poll.deletable {
        return Left(seen, DeleteFailed);
      }
      var entry := CheckFailed(poll.check.value);
      seen := seen.(failure := Some(entry), operation := StackDelete, written := seen.written + [entry]);
    }
    s := Going(seen);
  }

  /**
   * `WaitStackCompletion`. Completion comes at last; the polls up to that one are handled, itself included,
   * unless one breaks the loop: `n` of them. What is returned is the first event with an unknown id whose status
   * ends in "_FAILED", or the error of the check if that came before, and nothing if neither occurred.
   */
  method WaitStackCompletion(operation: Operation, ignored: seq<string>, stackFound: bool, polls: seq<Poll>)
    returns (r: Outcome, final: Watch, ghost n: nat)
    requires exists i :: 0 <= i < |polls| && polls[i].completed
    ensures !stackFound ==> r == NoSuchStack && final == Start(operation, ignored)
    ensures stackFound ==> final == OnPolls(Start(operation, ignored), UntilCompleted(polls)).watch
    ensures stackFound ==> r == match OnPolls(Start(operation, ignored), UntilCompleted(polls))
                                case Going(w) => Completed(FirstFailure(w.written))
                                case Left(_, why) => Broken(why)
    ensures stackFound ==> 0 < n <= |polls| && forall k :: 0 <= k < n - 1 ==> !polls[k].completed
    ensures r.Completed? ==> polls[n - 1].completed && forall k :: 0 <= k < n ==> polls[k].events.Some?
    ensures r.Completed? ==> FailureOf(polls[..n], ignored, operation, r.failure)
    ensures r.Completed? ==> forall q :: 0 <= q < |final.written| ==> ShownRight(final.written, q, operation)
    ensures r == Broken(DescribeFailed) ==> polls[n - 1].events == None
    ensures r == Broken(DeleteFailed) ==> CheckFailsFirst(polls[..n], ignored, operation, n - 1) && !polls[n - 1].deletable
  {
    hide FailureOf;
    hide CheckFailsFirst;
    hide ShownRight;
    final, n := Start(operation, ignored), 0;
    if !stackFound {
      return NoSuchStack, final, n;
    }
    var completed, i := false, 0;
    while !completed
      invariant i <= |polls| && OnPolls(Start(operation, ignored), polls[..i]) == Going(final)
      invariant if completed then i > 0 && polls[i - 1].completed && (forall k :: 0 <= k < i - 1 ==> !polls[k].completed)
                else forall k :: 0 <= k < i ==> !polls[k].completed
      decreases |polls| - i, !completed
    {
      completed := polls[i].completed;
      var s := HandlePoll(polls[i], final);
      assert polls[..i + 1][..i] == polls[..i];
      i := i + 1;
      if s.Left? {
        LeftEarly(Start(operation, ignored), polls, i);
        assert polls[..i][..|polls[..i]| - 1] == polls[..i - 1];
        LeftBecause(polls[..i], ignored, operation);
        return Broken(s.why), s.watch, i;
      }
      final := s.watch;
    }
    UntilCompletedIs(polls, i - 1);
    DeletedAtMostOnce(operation, ignored, polls[..i]);
    FailureIsFirst(polls[..i], ignored, operation);
    EventsAreShownRight(polls[..i], ignored, operation);
    AllRead(polls[..i], Start(operation, ignored));
    r, n := Completed(final.failure), i;
  }

  lemma {:induction false} StaysLeft(w: Watch, polls: seq<Poll>, n: nat)
    requires n <= |polls| && OnPolls(w, polls[..n]).Left?
    ensures OnPolls(w, polls) == OnPolls(w, polls[..n])
  {
    if n < |polls| {
      var last := |polls| - 1;
      assert polls[..last][..n] == polls[..n];
      StaysLeft(w, polls[..last], n);
    } else {
      assert polls[..n] == polls;
    }
  }

  lemma LeftEarly(w: Watch, polls: seq<Poll>, i: nat)
    requires 0 < i <= |polls| && OnPolls(w, polls[..i]).Left?
    requires (forall k :: 0 <= k < i - 1 ==> !polls[k].completed) && exists k :: 0 <= k < |polls| && polls[k].completed
    ensures OnPolls(w, UntilCompleted(polls)) == OnPolls(w, polls[..i])
  {
    var n := FirstCompleted(polls, 0);
    UntilCompletedIs(polls, n);
    assert polls[..n + 1][..i] == polls[..i];
    StaysLeft(w, polls[..n + 1], i);
  }

  lemma {:induction false} FirstCompleted(polls: seq<Poll>, from: nat) returns (n: nat)
    requires from <= |polls| && (forall k :: 0 <= k < from ==> !polls[k].completed)
    requires exists k :: from <= k < |polls| && polls[k].completed
    ensures n < |polls| && polls[n].completed && forall k :: 0 <= k < n ==> !polls[k].completed
    decreases |polls| - from
  {
    if polls[from].completed {
      n := from;
    } else {
      n := FirstCompleted(polls, from + 1);
    }
  }
}
