/** What waiting for a stack reports, in terms of the events that were delivered and their statuses alone. */
module StackFailures {
  import opened Wrappers
  import opened StackEvents

  predicate EndsInFailed(status: string) {
    "_FAILED" == if |status| < 7 then "" else status[|status| - 7..]
  }

  // ---------- the failure that is returned ----------

  /** Event `k` of poll `n`. */
  predicate At(polls: seq<Poll>, n: nat, k: nat) {
    n < |polls| && polls[n].events.Some? && k < |polls[n].events.value|
  }

  function EventAt(polls: seq<Poll>, n: nat, k: nat): Event
    requires At(polls, n, k)
  {
    polls[n].events.value[k]
  }

  predicate Earlier(a: nat, b: nat, n: nat, k: nat) {
    a < n || (a == n && b < k)
  }

  /** Its id is not to be ignored, and no event delivered earlier has it. */
  ghost predicate NewAt(polls: seq<Poll>, ignored: seq<string>, n: nat, k: nat) {
    && At(polls, n, k) && EventAt(polls, n, k).id !in ignored
    && forall a: nat, b: nat :: At(polls, a, b) && Earlier(a, b, n, k) ==> EventAt(polls, a, b).id != EventAt(polls, n, k).id
  }

  ghost predicate FailsAt(polls: seq<Poll>, ignored: seq<string>, n: nat, k: nat) {
    NewAt(polls, ignored, n, k) && EndsInFailed(EventAt(polls, n, k).status)
  }

  /** At the end of poll `n` the stack that is created is found to be wrong. */
  predicate ChecksAt(polls: seq<Poll>, start: Operation, n: nat) {
    n < |polls| && start == StackCreate && polls[n].check.Some?
  }

  /** It is the first failure of all. */
  ghost predicate EventFailsFirst(polls: seq<Poll>, ignored: seq<string>, start: Operation, n: nat, k: nat) {
    && FailsAt(polls, ignored, n, k)
    && (forall a: nat, b: nat :: FailsAt(polls, ignored, a, b) ==> !Earlier(a, b, n, k))
    && forall a: nat :: ChecksAt(polls, start, a) ==> a >= n
  }

  ghost predicate CheckFailsFirst(polls: seq<Poll>, ignored: seq<string>, start: Operation, n: nat) {
    && ChecksAt(polls, start, n)
    && (forall a: nat, b: nat :: FailsAt(polls, ignored, a, b) ==> a > n)
    && forall a: nat :: ChecksAt(polls, start, a) ==> a >= n
  }

  /** What has failed first before event `k` of poll `n`, if anything. */
  ghost predicate FailureBefore(polls: seq<Poll>, ignored: seq<string>, start: Operation, n: nat, k: nat, failure: Option<Entry>) {
    match failure
    case None =>
      && (forall a: nat, b: nat :: FailsAt(polls, ignored, a, b) ==> !Earlier(a, b, n, k))
      && forall a: nat :: ChecksAt(polls, start, a) ==> a >= n
    case Some(Shown(e, p)) =>
      p == Error && exists a: nat, b: nat :: EventFailsFirst(polls, ignored, start, a, b) && Earlier(a, b, n, k) && EventAt(polls, a, b) == e
    case Some(CheckFailed(text)) =>
      exists a: nat :: CheckFailsFirst(polls, ignored, start, a) && a < n && polls[a].check == Some(text)
  }

  /** The failure these polls report, if any: of the first failed event, or of the check if that came before. */
  ghost predicate FailureOf(polls: seq<Poll>, ignored: seq<string>, start: Operation, failure: Option<Entry>) {
    FailureBefore(polls, ignored, start, |polls|, 0, failure)
  }

  ghost predicate KnownBefore(polls: seq<Poll>, ignored: seq<string>, n: nat, k: nat, known: set<string>) {
    forall id :: id in known <==> id in ignored || exists a: nat, b: nat :: At(polls, a, b) && Earlier(a, b, n, k) && EventAt(polls, a, b).id == id
  }

  /** The variables of the loop before event `k` of poll `n`. */
  ghost predicate Tracks(polls: seq<Poll>, ignored: seq<string>, start: Operation, n: nat, k: nat, w: Watch) {
    && KnownBefore(polls, ignored, n, k, w.known)
    && FailureBefore(polls, ignored, start, n, k, w.failure)
    && w.operation == if w.failure.Some? then StackDelete else start
  }

  lemma NewIffUnknown(polls: seq<Poll>, ignored: seq<string>, n: nat, k: nat, known: set<string>)
    requires At(polls, n, k) && KnownBefore(polls, ignored, n, k, known)
    ensures EventAt(polls, n, k).id !in known <==> NewAt(polls, ignored, n, k)
  {
  }

  lemma NextKnown(polls: seq<Poll>, ignored: seq<string>, n: nat, k: nat, known: set<string>)
    requires At(polls, n, k) && KnownBefore(polls, ignored, n, k, known)
    ensures KnownBefore(polls, ignored, n, k + 1, known + {EventAt(polls, n, k).id})
  {
    forall id
      ensures id in known + {EventAt(polls, n, k).id} <==>
                id in ignored || exists a: nat, b: nat :: At(polls, a, b) && Earlier(a, b, n, k + 1) && EventAt(polls, a, b).id == id
    {
      if id in known && id !in ignored {
        var a: nat, b: nat :| At(polls, a, b) && Earlier(a, b, n, k) && EventAt(polls, a, b).id == id;
        assert Earlier(a, b, n, k + 1);
      }
      if id == EventAt(polls, n, k).id {
        assert Earlier(n, k, n, k + 1);
      }
      if a: nat, b: nat :| At(polls, a, b) && Earlier(a, b, n, k + 1) && EventAt(polls, a, b).id == id {
        assert Earlier(a, b, n, k) || (a == n && b == k);
      }
    }
  }

  /** After an event that does not fail, or after an earlier failure, nothing is different. */
  lemma SameFailure(polls: seq<Poll>, ignored: seq<string>, start: Operation, n: nat, k: nat, failure: Option<Entry>)
    requires At(polls, n, k) && FailureBefore(polls, ignored, start, n, k, failure)
    requires failure.Some? || !FailsAt(polls, ignored, n, k)
    ensures FailureBefore(polls, ignored, start, n, k + 1, failure)
  {
    match failure
    case None =>
      forall a: nat, b: nat | FailsAt(polls, ignored, a, b)
        ensures !Earlier(a, b, n, k + 1)
      {
        assert !Earlier(a, b, n, k) && !(a == n && b == k);
      }
    case Some(Shown(e, p)) =>
      var a: nat, b: nat :| EventFailsFirst(polls, ignored, start, a, b) && Earlier(a, b, n, k) && EventAt(polls, a, b) == e;
      assert Earlier(a, b, n, k + 1);
    case Some(CheckFailed(text)) =>
  }

  lemma FirstToFail(polls: seq<Poll>, ignored: seq<string>, start: Operation, n: nat, k: nat)
    requires FailureBefore(polls, ignored, start, n, k, None) && FailsAt(polls, ignored, n, k)
    ensures FailureBefore(polls, ignored, start, n, k + 1, Some(Shown(EventAt(polls, n, k), Error)))
  {
    assert EventFailsFirst(polls, ignored, start, n, k) && Earlier(n, k, n, k + 1);
  }

  lemma EventTracked(polls: seq<Poll>, ignored: seq<string>, start: Operation, n: nat, k: nat, w: Watch)
    requires At(polls, n, k) && Tracks(polls, ignored, start, n, k, w)
    ensures Tracks(polls, ignored, start, n, k + 1, OnEvent(w, EventAt(polls, n, k)))
  {
    var e := EventAt(polls, n, k);
    hide KnownBefore;
    hide FailureBefore;
    NewIffUnknown(polls, ignored, n, k, w.known);
    NextKnown(polls, ignored, n, k, w.known);
    assert ProgressOf(w.operation, e.status) == Error <==> EndsInFailed(e.status);
    if e.id in w.known {
      assert w.known + {e.id} == w.known;
    }
    if e.id !in w.known && EndsInFailed(e.status) && w.failure == None {
      FirstToFail(polls, ignored, start, n, k);
    } else {
      SameFailure(polls, ignored, start, n, k, w.failure);
    }
  }

  lemma {:induction false} EventsTracked(polls: seq<Poll>, ignored: seq<string>, start: Operation, n: nat, k: nat, w: Watch)
    requires n < |polls| && polls[n].events.Some? && k <= |polls[n].events.value| && Tracks(polls, ignored, start, n, 0, w)
    ensures Tracks(polls, ignored, start, n, k, OnEvents(w, polls[n].events.value[..k]))
    decreases k
  {
    hide Tracks;
    var events := polls[n].events.value;
    if k > 0 {
      EventsTracked(polls, ignored, start, n, k - 1, w);
      EventTracked(polls, ignored, start, n, k - 1, OnEvents(w, events[..k - 1]));
      assert events[..k][..k - 1] == events[..k - 1];
    }
  }

  /** From the last event of a poll to the first one of the next. */
  lemma NextPoll(polls: seq<Poll>, ignored: seq<string>, n: nat, known: set<string>)
    requires n < |polls| && polls[n].events.Some? && KnownBefore(polls, ignored, n, |polls[n].events.value|, known)
    ensures KnownBefore(polls, ignored, n + 1, 0, known)
  {
    forall a: nat, b: nat | At(polls, a, b)
      ensures Earlier(a, b, n, |polls[n].events.value|) <==> Earlier(a, b, n + 1, 0)
    {
    }
  }

  lemma FailureNextPoll(polls: seq<Poll>, ignored: seq<string>, start: Operation, n: nat, failure: Option<Entry>)
    requires n < |polls| && polls[n].events.Some? && FailureBefore(polls, ignored, start, n, |polls[n].events.value|, failure)
    ensures failure.Some? || !ChecksAt(polls, start, n) ==> FailureBefore(polls, ignored, start, n + 1, 0, failure)
    ensures failure.None? && ChecksAt(polls, start, n) ==>
              FailureBefore(polls, ignored, start, n + 1, 0, Some(CheckFailed(polls[n].check.value)))
  {
    forall a: nat, b: nat | At(polls, a, b)
      ensures Earlier(a, b, n, |polls[n].events.value|) <==> Earlier(a, b, n + 1, 0)
    {
    }
    match failure
    case None =>
      if ChecksAt(polls, start, n) {
        assert CheckFailsFirst(polls, ignored, start, n);
      }
    case Some(Shown(e, p)) =>
      var a: nat, b: nat :| EventFailsFirst(polls, ignored, start, a, b) && Earlier(a, b, n, |polls[n].events.value|) && EventAt(polls, a, b) == e;
      assert Earlier(a, b, n + 1, 0);
    case Some(CheckFailed(text)) =>
  }

  lemma {:induction false} PollsTracked(polls: seq<Poll>, ignored: seq<string>, start: Operation, n: nat)
    requires n <= |polls| && OnPolls(Start(start, ignored), polls[..n]).Going?
    ensures Tracks(polls, ignored, start, n, 0, OnPolls(Start(start, ignored), polls[..n]).watch)
    decreases n
  {
    if n > 0 {
      assert polls[..n][..n - 1] == polls[..n - 1];
      PollsTracked(polls, ignored, start, n - 1);
      PollTracked(polls, ignored, start, n - 1, OnPolls(Start(start, ignored), polls[..n - 1]).watch);
    }
  }

  lemma PollTracked(polls: seq<Poll>, ignored: seq<string>, start: Operation, n: nat, w: Watch)
    requires n < |polls| && Tracks(polls, ignored, start, n, 0, w) && OnPoll(w, polls[n]).Going?
    ensures polls[n].events.Some? && Tracks(polls, ignored, start, n + 1, 0, OnPoll(w, polls[n]).watch)
  {
    hide KnownBefore;
    hide FailureBefore;
    var events := polls[n].events.value;
    EventsTracked(polls, ignored, start, n, |events|, w);
    assert events[..|events|] == events;
    var seen := OnEvents(w, events);
    NextPoll(polls, ignored, n, seen.known);
    FailureNextPoll(polls, ignored, start, n, seen.failure);
  }

  /**
   * The failure kept after these polls is the first event with an unknown id whose status ends in "_FAILED", or
   * the error of the check if that came before; there is none iff neither occurred.
   */
  lemma FailureIsFirst(polls: seq<Poll>, ignored: seq<string>, start: Operation)
    requires OnPolls(Start(start, ignored), polls).Going?
    ensures FailureOf(polls, ignored, start, OnPolls(Start(start, ignored), polls).watch.failure)
  {
    assert polls[..|polls|] == polls;
    PollsTracked(polls, ignored, start, |polls|);
  }

  // ---------- how events are shown ----------

  function Completion(operation: Operation): string {
    match operation
    case StackCreate => "CREATE_COMPLETE"
    case StackUpdate => "UPDATE_COMPLETE"
    case StackDelete => "DELETE_COMPLETE"
  }

  predicate ShowsFailure(e: Entry) {
    e.CheckFailed? || EndsInFailed(e.event.status)
  }

  /** The operation while what comes after these entries is shown. */
  function OperationAfter(written: seq<Entry>, start: Operation): Operation {
    if exists q :: 0 <= q < |written| && ShowsFailure(written[q]) then StackDelete else start
  }

  /** An event is shown as done iff its status completes the operation at that time, and as an error iff it failed. */
  predicate ShownRight(written: seq<Entry>, q: nat, start: Operation)
    requires q < |written|
  {
    written[q].Shown? ==>
      var status, progress := written[q].event.status, written[q].progress;
      && (progress == Done <==> status == Completion(OperationAfter(written[..q], start)))
      && (progress == Error <==> EndsInFailed(status))
  }

  ghost predicate AllShownRight(w: Watch, start: Operation) {
    && (forall q :: 0 <= q < |w.written| ==> ShownRight(w.written, q, start))
    && w.operation == OperationAfter(w.written, start)
    && (w.failure.Some? <==> exists q :: 0 <= q < |w.written| && ShowsFailure(w.written[q]))
  }

  lemma OneMoreShown(w: Watch, start: Operation, entry: Entry, w': Watch)
    requires AllShownRight(w, start) && w'.written == w.written + [entry]
    requires entry.Shown? ==> entry.progress == ProgressOf(w.operation, entry.event.status)
    requires w'.operation == (if ShowsFailure(entry) && w.failure == None then StackDelete else w.operation)
    requires w'.failure.Some? <==> w.failure.Some? || ShowsFailure(entry)
    ensures AllShownRight(w', start)
  {
    forall q | 0 <= q < |w'.written|
      ensures ShownRight(w'.written, q, start)
    {
      if q < |w.written| {
        assert ShownRight(w.written, q, start) && w'.written[..q] == w.written[..q];
      } else {
        assert w'.written[..q] == w.written;
      }
    }
    if q :| 0 <= q < |w.written| && ShowsFailure(w.written[q]) {
      assert ShowsFailure(w'.written[q]);
    }
    if ShowsFailure(entry) {
      assert ShowsFailure(w'.written[|w.written|]);
    }
    if q :| 0 <= q < |w'.written| && ShowsFailure(w'.written[q]) {
      assert q < |w.written| ==> ShowsFailure(w.written[q]);
    }
  }

  lemma {:induction false} EventsShownRight(w: Watch, events: seq<Event>, start: Operation)
    requires AllShownRight(w, start)
    ensures AllShownRight(OnEvents(w, events), start)
  {
    hide AllShownRight;
    if events != [] {
      var n := |events| - 1;
      EventsShownRight(w, events[..n], start);
      var before, e := OnEvents(w, events[..n]), events[n];
      if e.id !in before.known {
        OneMoreShown(before, start, Shown(e, ProgressOf(before.operation, e.status)), OnEvent(before, e));
      }
    }
  }

  /** Over any sequence of polls. */
  lemma {:induction false} EventsAreShownRight(polls: seq<Poll>, ignored: seq<string>, start: Operation)
    requires OnPolls(Start(start, ignored), polls).Going?
    ensures AllShownRight(OnPolls(Start(start, ignored), polls).watch, start)
  {
    hide AllShownRight;
    if polls == [] {
      NothingShown(ignored, start);
    } else {
      var n := |polls| - 1;
      EventsAreShownRight(polls[..n], ignored, start);
      var w := OnPolls(Start(start, ignored), polls[..n]).watch;
      EventsShownRight(w, polls[n].events.value, start);
      var seen := OnEvents(w, polls[n].events.value);
      if OnPoll(w, polls[n]).watch != seen {
        OneMoreShown(seen, start, CheckFailed(polls[n].check.value), OnPoll(w, polls[n]).watch);
      }
    }
  }

  lemma NothingShown(ignored: seq<string>, start: Operation)
    ensures AllShownRight(Start(start, ignored), start)
  {
  }

  /** Why the loop is left early: the events could not be read, or the stack could not be deleted after its check failed first. */
  lemma LeftBecause(polls: seq<Poll>, ignored: seq<string>, start: Operation)
    requires polls != [] && OnPolls(Start(start, ignored), polls[..|polls| - 1]).Going? && OnPolls(Start(start, ignored), polls).Left?
    ensures var n := |polls| - 1;
      match OnPolls(Start(start, ignored), polls).why
      case DescribeFailed => polls[n].events == None
      case DeleteFailed => polls[n].events.Some? && CheckFailsFirst(polls, ignored, start, n) && !polls[n].deletable
  {
    var n := |polls| - 1;
    var w := OnPolls(Start(start, ignored), polls[..n]).watch;
    PollsTracked(polls, ignored, start, n);
    if polls[n].events.Some? {
      var events := polls[n].events.value;
      EventsTracked(polls, ignored, start, n, |events|, w);
      assert events[..|events|] == events;
      LastCheckFirst(polls, ignored, start);
    }
  }

  lemma LastCheckFirst(polls: seq<Poll>, ignored: seq<string>, start: Operation)
    requires polls != [] && polls[|polls| - 1].events.Some? && ChecksAt(polls, start, |polls| - 1)
    ensures FailureBefore(polls, ignored, start, |polls| - 1, |polls[|polls| - 1].events.value|, None) ==>
              CheckFailsFirst(polls, ignored, start, |polls| - 1)
  {
    var n := |polls| - 1;
    forall a: nat, b: nat | At(polls, a, b)
      ensures Earlier(a, b, n, |polls[n].events.value|)
    {
    }
  }

  /** As long as the loop goes on, the events of every poll could be read. */
  lemma {:induction false} AllRead(polls: seq<Poll>, w: Watch)
    requires OnPolls(w, polls).Going?
    ensures forall k :: 0 <= k < |polls| ==> polls[k].events.Some?
  {
    if polls != [] {
      AllRead(polls[..|polls| - 1], w);
      assert forall k :: 0 <= k < |polls| - 1 ==> polls[k] == polls[..|polls| - 1][k];
    }
  }
}
