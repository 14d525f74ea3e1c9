/** The task event log: one append per event, numbered per task, idempotent per key. */
module EventLog {
  import opened Prelude
  import opened Text

  /** A `task_events` row; the row at index `i` has event id `i + 1`. */
  datatype Event = Event(task: string, sequence: nat, key: Option<string>, kind: string, actor: string, payload: string)

  /** What a caller asks to append. */
  datatype Request = Request(task: string, key: Option<string>, kind: string, actor: string, payload: string)

  /** A blank key is no key; other keys are trimmed. */
  function NormalKey(key: Option<string>): Option<string> {
    if key.Some? && !Blank(key.value) then Some(Strip(key.value)) else None
  }

  function FindEvent(events: seq<Event>, task: string, key: string): (r: Option<Event>)
    ensures r.Some? ==> r.value in events && r.value.task == task && r.value.key == Some(key)
    ensures r.None? ==> forall i :: 0 <= i < |events| ==> events[i].task != task || events[i].key != Some(key)
  {
    if events == [] then None
    else
      var last := events[|events| - 1];
      if last.task == task && last.key == Some(key) then Some(last)
      else FindEvent(events[..|events| - 1], task, key)
  }

  /** COALESCE(MAX(sequence), 0) over the task's rows. */
  function MaxSequence(events: seq<Event>, task: string): nat {
    if events == [] then 0
    else
      var last, before := events[|events| - 1], MaxSequence(events[..|events| - 1], task);
      if last.task == task && last.sequence > before then last.sequence else before
  }

  predicate IsKeyed(e: Event, task: string, key: string) {
    e.task == task && e.key == Some(key)
  }

  predicate Acceptable(r: Request) {
    !Blank(r.kind) && !Blank(r.actor)
  }

  function NewEvent(events: seq<Event>, r: Request): Event {
    Event(r.task, MaxSequence(events, r.task) + 1, NormalKey(r.key), Strip(r.kind), Strip(r.actor), r.payload)
  }

  /** The stored event that already holds the request's key. */
  function Existing(events: seq<Event>, r: Request): Option<Event> {
    var key := NormalKey(r.key);
    if key.Some? then FindEvent(events, r.task, key.value) else None
  }

  function Append(events: seq<Event>, r: Request): seq<Event> {
    if !Acceptable(r) || Existing(events, r).Some? then events else events + [NewEvent(events, r)]
  }

  class Log {
    var events: seq<Event>

    constructor ()
      ensures events == []
    {
      events := [];
    }

    /** `append_task_event`: a blank type or actor is refused; a used key gives back its event. */
    method AppendTaskEvent(r: Request) returns (stored: Option<Event>)
      modifies this
      ensures events == Append(old(events), r)
      ensures stored.None? <==> !Acceptable(r)
      ensures Acceptable(r) && Existing(old(events), r).Some? ==>
        stored == Existing(old(events), r) && events == old(events)
      ensures Acceptable(r) && Existing(old(events), r).None? ==>
        events == old(events) + [stored.value] && stored.value == NewEvent(old(events), r)
      ensures stored.None? <==> Blank(r.kind) || Blank(r.actor)
      ensures stored.Some? && events != old(events) ==>
        var e := stored.value;
        && e.task == r.task && e.kind == Strip(r.kind) && e.actor == Strip(r.actor) && e.payload == r.payload
        && e.key == (if r.key.None? || Blank(r.key.value) then None else Some(Strip(r.key.value)))
        && forall i :: 0 <= i < |old(events)| && old(events)[i].task == r.task ==> old(events)[i].sequence < e.sequence
      ensures stored.Some? && r.key.Some? && !Blank(r.key.value) ==>
        (events == old(events) <==>
           exists i :: 0 <= i < |old(events)| && IsKeyed(old(events)[i], r.task, Strip(r.key.value)))
      ensures stored.Some? && (r.key.None? || Blank(r.key.value)) ==> events == old(events) + [stored.value]
    {
      MaxIsHighest(events, r.task);
      if Blank(r.kind) || Blank(r.actor) { return None; }
      var key := NormalKey(r.key);
      if key.Some? {
        var existing := FindEvent(events, r.task, key.value);
        if existing.Some? { return existing; }
      }
      var highest := 0;
      for i := 0 to |events|
        invariant highest == MaxSequence(events[..i], r.task)
        invariant events == old(events)
      {
        assert events[..i + 1][..i] == events[..i];
        if events[i].task == r.task && events[i].sequence > highest {
          highest := events[i].sequence;
        }
      }
      assert events[..|events|] == events;
      var event := Event(r.task, highest + 1, key, Strip(r.kind), Strip(r.actor), r.payload);
      events := events + [event];
      return Some(event);
    }

    /** The task's events in insertion order. */
    method ListTaskEvents(task: string) returns (mine: seq<Event>)
      ensures mine == TaskLog(events, task)
    {
      mine := [];
      for i := 0 to |events|
        invariant mine == TaskLog(events[..i], task)
      {
        assert events[..i + 1][..i] == events[..i];
        if events[i].task == task {
          mine := mine + [events[i]];
        }
      }
      assert events[..|events|] == events;
    }
  }

  lemma {:induction false} MaxIsHighest(events: seq<Event>, task: string)
    ensures forall i :: 0 <= i < |events| && events[i].task == task ==> events[i].sequence <= MaxSequence(events, task)
  {
    if events != [] {
      MaxIsHighest(events[..|events| - 1], task);
    }
  }

  function TaskLog(events: seq<Event>, task: string): seq<Event> {
    if events == [] then []
    else
      var last := events[|events| - 1];
      TaskLog(events[..|events| - 1], task) + if last.task == task then [last] else []
  }

  /** Gap-free in insertion order, and no key twice. */
  ghost predicate WholeLog(log: seq<Event>) {
    && (forall i :: 0 <= i < |log| ==> log[i].sequence == i + 1)
    && (forall i, j :: 0 <= i < j < |log| && log[i].key.Some? ==> log[i].key != log[j].key)
  }

  lemma {:induction false} TaskLogMembers(events: seq<Event>, task: string)
    ensures forall e :: e in TaskLog(events, task) <==> e in events && e.task == task
  {
    if events != [] {
      TaskLogMembers(events[..|events| - 1], task);
      assert events == events[..|events| - 1] + [events[|events| - 1]];
    }
  }

  /** The highest sequence of a gap-free log is its length. */
  lemma {:induction false} MaxIsLength(events: seq<Event>, task: string)
    requires WholeLog(TaskLog(events, task))
    ensures MaxSequence(events, task) == |TaskLog(events, task)|
  {
    if events != [] {
      var before, last := events[..|events| - 1], events[|events| - 1];
      var log := TaskLog(events, task);
      assert forall i :: 0 <= i < |TaskLog(before, task)| ==> log[i] == TaskLog(before, task)[i];
      MaxIsLength(before, task);
      if last.task == task {
        assert log[|log| - 1] == last;
      }
    }
  }

  /** One append: the task's log stays whole, and other tasks' logs stay the same. */
  lemma AppendKeepsLogs(events: seq<Event>, r: Request, task: string)
    requires WholeLog(TaskLog(events, task)) && WholeLog(TaskLog(events, r.task))
    ensures WholeLog(TaskLog(Append(events, r), task))
    ensures task != r.task ==> TaskLog(Append(events, r), task) == TaskLog(events, task)
  {
    hide WholeLog;
    var after := Append(events, r);
    if after != events {
      assert after[..|after| - 1] == events;
      assert NewEvent(events, r).task == r.task;
      if task == r.task {
        assert TaskLog(after, task) == TaskLog(events, task) + [NewEvent(events, r)];
        NextStaysWhole(events, r);
      } else {
        assert TaskLog(after, task) == TaskLog(events, task);
      }
    }
  }

  /** A new event continues its task's log. */
  lemma NextStaysWhole(events: seq<Event>, r: Request)
    requires WholeLog(TaskLog(events, r.task)) && Existing(events, r).None?
    ensures WholeLog(TaskLog(events, r.task) + [NewEvent(events, r)])
  {
    MaxIsLength(events, r.task);
    TaskLogMembers(events, r.task);
    KeysStayDistinct(events, r);
    hide TaskLog, MaxSequence, Existing, NormalKey;
  }

  lemma KeysStayDistinct(events: seq<Event>, r: Request)
    requires Existing(events, r).None?
    ensures NormalKey(r.key).Some? ==> forall i :: 0 <= i < |TaskLog(events, r.task)| ==>
      TaskLog(events, r.task)[i].key != NormalKey(r.key)
  {
    TaskLogMembers(events, r.task);
    var log := TaskLog(events, r.task);
    forall i | 0 <= i < |log| && NormalKey(r.key).Some? ensures log[i].key != NormalKey(r.key) {
      assert log[i] in log;
      var k :| 0 <= k < |events| && events[k] == log[i];
    }
  }

  function AppendAll(requests: seq<Request>): seq<Event> {
    if requests == [] then []
    else Append(AppendAll(requests[..|requests| - 1]), requests[|requests| - 1])
  }

  /** After any appends every task's events are numbered 1 to n in insertion order and repeat no key. */
  lemma {:induction false} LogsStayWhole(requests: seq<Request>, task: string)
    ensures WholeLog(TaskLog(AppendAll(requests), task))
  {
    if requests != [] {
      var before, r := AppendAll(requests[..|requests| - 1]), requests[|requests| - 1];
      LogsStayWhole(requests[..|requests| - 1], task);
      LogsStayWhole(requests[..|requests| - 1], r.task);
      AppendKeepsLogs(before, r, task);
    }
  }

  /** Stored events never change or move. */
  lemma {:induction false} EventsStay(requests: seq<Request>, more: seq<Request>)
    ensures AppendAll(requests) <= AppendAll(requests + more)
  {
    if more == [] {
      assert requests + more == requests;
    } else {
      EventsStay(requests, more[..|more| - 1]);
      assert (requests + more)[..|requests + more| - 1] == requests + more[..|more| - 1];
    }
  }

  /** Once an event with a key is stored, every later request with that key and task finds that event. */
  lemma RepeatedKeyFindsFirst(requests: seq<Request>, more: seq<Request>, e: Event, again: Request)
    requires e in AppendAll(requests) && e.key.Some?
    requires again.task == e.task && NormalKey(again.key) == e.key
    ensures Existing(AppendAll(requests + more), again) == Some(e)
    ensures Append(AppendAll(requests + more), again) == AppendAll(requests + more)
  {
    var events := AppendAll(requests + more);
    EventsStay(requests, more);
    assert e in events by {
      var k :| 0 <= k < |AppendAll(requests)| && AppendAll(requests)[k] == e;
      assert events[k] == e;
    }
    LogsStayWhole(requests + more, e.task);
    TaskLogMembers(events, e.task);
    var found := FindEvent(events, e.task, e.key.value);
    assert found.Some?;
    var log := TaskLog(events, e.task);
    var i :| 0 <= i < |log| && log[i] == e;
    var j :| 0 <= j < |log| && log[j] == found.value;
    assert i == j;
  }
}
