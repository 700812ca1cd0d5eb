/** The events of a CloudFormation stack, as they are met poll by poll while an operation on it goes on. */
module StackEvents {
  import opened Wrappers

  datatype Operation = StackCreate | StackUpdate | StackDelete

  datatype Event = Event(id: string, resource: string, status: string, reason: string)

  datatype Progress = Working | Done | Error

  /** What is written to the progress display: an event, or the error found when checking the stack itself. */
  datatype Entry = Shown(event: Event, progress: Progress) | CheckFailed(message: string)

  /**
   * What one turn of the loop meets: whether it was woken by completion, the events (in order of their
   * timestamps) or an error instead, what checking the stack says, and whether deleting it is possible.
   */
  datatype Poll = Poll(completed: bool, events: Option<seq<Event>>, check: Option<string>, deletable: bool)

  /** The variables of the loop, what has been written and how often the stack was deleted. */
  datatype Watch = Watch(known: set<string>, operation: Operation, failure: Option<Entry>, written: seq<Entry>, deletions: nat)

  datatype Stop = DescribeFailed | DeleteFailed

  /** The loop after some polls: going on, or left early. */
  datatype Status = Going(watch: Watch) | Left(watch: Watch, why: Stop)

  datatype Outcome = NoSuchStack | Completed(failure: Option<Entry>) | Broken(why: Stop)

  predicate Failed(status: string) {
    |status| >= 7 && status[|status| - 7..] == "_FAILED"
  }

  function ProgressOf(operation: Operation, status: string): Progress {
    match status
    case "CREATE_COMPLETE" => if operation == StackCreate then Done else Working
    case "UPDATE_COMPLETE" => if operation == StackUpdate then Done else Working
    case "DELETE_COMPLETE" => if operation == StackDelete then Done else Working
    case _ => if Failed(status) then Error else Working
  }

  function OnEvent(w: Watch, e: Event): Watch {
    if e.id in w.known then w
    else
      var entry := Shown(e, ProgressOf(w.operation, e.status));
      var fails := entry.progress == Error && w.failure == None;
      Watch(w.known + {e.id},
            if fails then StackDelete else w.operation,
            if fails then Some(entry) else w.failure,
            w.written + [entry],
            w.deletions)
  }

  function OnEvents(w: Watch, events: seq<Event>): Watch {
    if events == [] then w else OnEvent(OnEvents(w, events[..|events| - 1]), events[|events| - 1])
  }

  /** After its events, a poll of a creation without failure checks the stack, and deletes it if that fails. */
  function OnPoll(w: Watch, poll: Poll): Status {
    if poll.events.None? then Left(w, DescribeFailed)
    else
      var seen := OnEvents(w, poll.events.value);
      if seen.operation != StackCreate || seen.failure.Some? || poll.check.None? then Going(seen)
      else
        var deleted := seen.(deletions := seen.deletions + 1);
        if !poll.deletable then Left(deleted, DeleteFailed)
        else
          var entry := CheckFailed(poll.check.value);
          Going(deleted.(failure := Some(entry), operation := StackDelete, written := deleted.written + [entry]))
  }

  function OnPolls(w: Watch, polls: seq<Poll>): Status {
    if polls == [] then Going(w)
    else
      match OnPolls(w, polls[..|polls| - 1])
      case Going(before) => OnPoll(before, polls[|polls| - 1])
      case Left(before, why) => Left(before, why)
  }

  function Start(operation: Operation, ignored: seq<string>): Watch {
    Watch((set id | id in ignored), operation, None, [], 0)
  }

  // ---------- every event once ----------

  /** How often an event id has been written. */
  function Times(written: seq<Entry>, id: string): nat {
    if written == [] then 0
    else
      var last := written[|written| - 1];
      Times(written[..|written| - 1], id) + if last.Shown? && last.event.id == id then 1 else 0
  }

  predicate Delivered(polls: seq<Poll>, id: string) {
    exists i, k :: 0 <= i < |polls| && polls[i].events.Some? && 0 <= k < |polls[i].events.value| && polls[i].events.value[k].id == id
  }

  lemma TimesSnoc(written: seq<Entry>, e: Entry, id: string)
    ensures Times(written + [e], id) == Times(written, id) + if e.Shown? && e.event.id == id then 1 else 0
  {
    assert (written + [e])[..|written|] == written;
  }

  /** What is known has been ignored or written, once. */
  ghost predicate OnceEach(w: Watch, ignored: seq<string>) {
    forall id ::
      && (id in ignored ==> id in w.known && Times(w.written, id) == 0)
      && (id !in ignored ==> Times(w.written, id) == if id in w.known then 1 else 0)
  }

  lemma {:induction false} EventsOnceEach(w: Watch, events: seq<Event>, ignored: seq<string>)
    requires OnceEach(w, ignored)
    ensures OnceEach(OnEvents(w, events), ignored)
    ensures forall id :: id in OnEvents(w, events).known <==> id in w.known || exists k :: 0 <= k < |events| && events[k].id == id
  {
    if events != [] {
      var n := |events| - 1;
      EventsOnceEach(w, events[..n], ignored);
      var before, e := OnEvents(w, events[..n]), events[n];
      if e.id !in before.known {
        forall id
          ensures Times(OnEvent(before, e).written, id) == Times(before.written, id) + if e.id == id then 1 else 0
        {
          TimesSnoc(before.written, Shown(e, ProgressOf(before.operation, e.status)), id);
        }
      }
    }
  }

  lemma PollOnceEach(w: Watch, poll: Poll, ignored: seq<string>)
    requires OnceEach(w, ignored)
    ensures OnceEach(OnPoll(w, poll).watch, ignored)
    ensures forall id :: id in OnPoll(w, poll).watch.known <==> id in w.known || Delivered([poll], id)
  {
    assert [poll][0] == poll;
    if poll.events.Some? {
      EventsOnceEach(w, poll.events.value, ignored);
      var seen := OnEvents(w, poll.events.value);
      if poll.check.Some? {
        forall id
          ensures Times(seen.written + [CheckFailed(poll.check.value)], id) == Times(seen.written, id)
        {
          TimesSnoc(seen.written, CheckFailed(poll.check.value), id);
        }
      }
    }
  }

  lemma {:induction false} PollsOnceEach(operation: Operation, ignored: seq<string>, polls: seq<Poll>)
    ensures OnceEach(OnPolls(Start(operation, ignored), polls).watch, ignored)
    ensures OnPolls(Start(operation, ignored), polls).Going? ==>
              forall id :: id in OnPolls(Start(operation, ignored), polls).watch.known <==> id in ignored || Delivered(polls, id)
  {
    if polls != [] {
      var n := |polls| - 1;
      PollsOnceEach(operation, ignored, polls[..n]);
      var before := OnPolls(Start(operation, ignored), polls[..n]);
      if before.Going? {
        PollOnceEach(before.watch, polls[n], ignored);
        forall id
          ensures Delivered(polls, id) <==> Delivered(polls[..n], id) || Delivered([polls[n]], id)
        {
          DeliveredSnoc(polls, id);
        }
      }
    }
  }

  lemma DeliveredSnoc(polls: seq<Poll>, id: string)
    requires polls != []
    ensures Delivered(polls, id) <==> Delivered(polls[..|polls| - 1], id) || Delivered([polls[|polls| - 1]], id)
  {
    var n := |polls| - 1;
    if Delivered(polls, id) {
      var i, k :| 0 <= i < |polls| && polls[i].events.Some? && 0 <= k < |polls[i].events.value| && polls[i].events.value[k].id == id;
      if i < n {
        assert polls[..n][i] == polls[i];
      } else {
        assert [polls[n]][0].events.value[k].id == id;
      }
    }
    if Delivered([polls[n]], id) {
      var i, k :| 0 <= i < 1 && [polls[n]][i].events.Some? && 0 <= k < |[polls[n]][i].events.value| && [polls[n]][i].events.value[k].id == id;
      assert polls[n].events.value[k].id == id;
    }
    if Delivered(polls[..n], id) {
      var i, k :| 0 <= i < n && polls[..n][i].events.Some? && 0 <= k < |polls[..n][i].events.value| && polls[..n][i].events.value[k].id == id;
      assert polls[i].events.value[k].id == id;
    }
  }

  /**
   * However the polls deliver events, repeatedly or not: every event id delivered so far has been written
   * exactly once unless it was to be ignored, and ignored ones never.
   */
  lemma EveryEventOnce(operation: Operation, ignored: seq<string>, polls: seq<Poll>, id: string)
    requires OnPolls(Start(operation, ignored), polls).Going?
    ensures Times(OnPolls(Start(operation, ignored), polls).watch.written, id)
            == if id !in ignored && Delivered(polls, id) then 1 else 0
  {
    PollsOnceEach(operation, ignored, polls);
  }

  // ---------- the first failure ----------

  predicate IsFailure(e: Entry) {
    e.CheckFailed? || e.progress == Error
  }

  /** The first failure among what has been written. */
  function FirstFailure(written: seq<Entry>): Option<Entry> {
    if written == [] then None
    else
      var before := FirstFailure(written[..|written| - 1]);
      if before.Some? then before
      else if IsFailure(written[|written| - 1]) then Some(written[|written| - 1])
      else None
  }

  lemma FirstFailureSnoc(written: seq<Entry>, e: Entry)
    ensures FirstFailure(written + [e])
            == if FirstFailure(written).Some? then FirstFailure(written) else if IsFailure(e) then Some(e) else None
  {
    assert (written + [e])[..|written|] == written;
  }

  /** How often the check of the stack has failed so far. */
  function Checks(written: seq<Entry>): nat {
    if written == [] then 0 else Checks(written[..|written| - 1]) + if written[|written| - 1].CheckFailed? then 1 else 0
  }

  lemma ChecksSnoc(written: seq<Entry>, e: Entry)
    ensures Checks(written + [e]) == Checks(written) + if e.CheckFailed? then 1 else 0
  {
    assert (written + [e])[..|written|] == written;
  }

  /**
   * The failure kept is the first one written, the operation is deletion from then on, and the stack has been
   * deleted once if that failure came from checking it and not at all otherwise.
   */
  ghost predicate Consistent(w: Watch, start: Operation) {
    && w.failure == FirstFailure(w.written)
    && w.operation == (if w.failure.Some? then StackDelete else start)
    && w.deletions == Checks(w.written) == (if w.failure.Some? && w.failure.value.CheckFailed? then 1 else 0)
    && (w.deletions > 0 ==> start == StackCreate)
  }

  lemma {:induction false} EventsConsistent(w: Watch, events: seq<Event>, start: Operation)
    requires Consistent(w, start)
    ensures Consistent(OnEvents(w, events), start)
    ensures OnEvents(w, events).deletions == w.deletions
  {
    if events != [] {
      var n := |events| - 1;
      EventsConsistent(w, events[..n], start);
      var before, e := OnEvents(w, events[..n]), events[n];
      if e.id !in before.known {
        var entry := Shown(e, ProgressOf(before.operation, e.status));
        FirstFailureSnoc(before.written, entry);
        ChecksSnoc(before.written, entry);
      }
    }
  }

  /** At most one deletion: of a creation without failure until then; a refused one is the last thing that happens. */
  ghost predicate DeletedRightly(s: Status, start: Operation) {
    && s.watch.deletions <= 1
    && (s.watch.deletions == 1 ==> start == StackCreate)
    && (s.Going? || s.why == DescribeFailed ==> Consistent(s.watch, start))
    && (s.Left? && s.why == DeleteFailed ==> s.watch.deletions == 1 && FirstFailure(s.watch.written) == None)
  }

  lemma GoingOn(w: Watch, start: Operation)
    requires Consistent(w, start)
    ensures DeletedRightly(Going(w), start) && DeletedRightly(Left(w, DescribeFailed), start)
  {
  }

  /** The check of a creation without failure fails: the stack is deleted, or cannot be. */
  lemma CheckConsistent(seen: Watch, text: string, start: Operation)
    requires Consistent(seen, start) && seen.operation == StackCreate && seen.failure == None
    ensures var deleted := seen.(deletions := seen.deletions + 1);
      && DeletedRightly(Left(deleted, DeleteFailed), start)
      && Consistent(deleted.(failure := Some(CheckFailed(text)), operation := StackDelete,
                             written := deleted.written + [CheckFailed(text)]), start)
  {
    FirstFailureSnoc(seen.written, CheckFailed(text));
    ChecksSnoc(seen.written, CheckFailed(text));
  }

  lemma PollConsistent(w: Watch, poll: Poll, start: Operation)
    requires Consistent(w, start)
    ensures DeletedRightly(OnPoll(w, poll), start)
  {
    hide Consistent;
    hide DeletedRightly;
    GoingOn(w, start);
    if poll.events.Some? {
      EventsConsistent(w, poll.events.value, start);
      var seen := OnEvents(w, poll.events.value);
      GoingOn(seen, start);
      if seen.operation == StackCreate && seen.failure == None && poll.check.Some? {
        CheckConsistent(seen, poll.check.value, start);
        if poll.deletable {
          GoingOn(OnPoll(w, poll).watch, start);
        }
      }
    }
  }

  /** Over any sequence of polls. */
  lemma {:induction false} DeletedAtMostOnce(operation: Operation, ignored: seq<string>, polls: seq<Poll>)
    ensures DeletedRightly(OnPolls(Start(operation, ignored), polls), operation)
  {
    if polls != [] {
      var n := |polls| - 1;
      DeletedAtMostOnce(operation, ignored, polls[..n]);
      var before := OnPolls(Start(operation, ignored), polls[..n]);
      if before.Going? {
        PollConsistent(before.watch, polls[n], operation);
      }
    }
  }

  lemma {:induction false} EventsKeepFailure(w: Watch, events: seq<Event>)
    ensures w.failure.Some? ==> OnEvents(w, events).failure == w.failure
    ensures w.operation == StackDelete ==> OnEvents(w, events).operation == StackDelete
  {
    if events != [] {
      EventsKeepFailure(w, events[..|events| - 1]);
    }
  }

  /** Once a failure is recorded no later poll changes it, and an operation that is deletion stays so. */
  lemma {:induction false} FailuresAreKept(w: Watch, polls: seq<Poll>)
    ensures w.failure.Some? ==> OnPolls(w, polls).watch.failure == w.failure
    ensures w.operation == StackDelete ==> OnPolls(w, polls).watch.operation == StackDelete
  {
    if polls != [] {
      var n := |polls| - 1;
      FailuresAreKept(w, polls[..n]);
      var before := OnPolls(w, polls[..n]);
      if before.Going? && polls[n].events.Some? {
        EventsKeepFailure(before.watch, polls[n].events.value);
      }
    }
  }
}
