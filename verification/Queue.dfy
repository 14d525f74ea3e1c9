/** The autopilot queue: loading a plan or backlog file, syncing it, and refreshing shifted references. */
module Queue {
  import opened Prelude
  import opened Text

  datatype ItemStatus = Created | InProgress | Done | Blocked | Skipped

  /** A `plan_items` row; the row at index `i` has plan item id `i + 1`. */
  datatype Item = Item(
    path: string, line: nat, section: string, text: string, status: ItemStatus, taskId: Option<string>)

  datatype PlanTask = PlanTask(line: nat, text: string, section: string)

  /** What the line tests say of one line of the file; the patterns themselves are not modelled. */
  datatype Line = Line(
    header: Option<string>, checkbox: Option<string>, numbered: Option<string>,
    bullet: Option<string>, continuation: Option<string>)

  const TRACK := "Immediate Implementation Track"

  // -------------------------------------------------------------------- loading

  /** The plan tasks from line index `i` on, below `section`. */
  function PlanTasks(lines: seq<Line>, i: nat, section: string, normalize: string -> string): (r: seq<PlanTask>)
    requires i <= |lines|
    ensures forall k :: 0 <= k < |r| ==> i < r[k].line <= |lines|
    ensures forall j, k :: 0 <= j < k < |r| ==> r[j].line < r[k].line
    decreases |lines| - i
  {
    if i == |lines| then []
    else
      var l := lines[i];
      if l.header.Some? then PlanTasks(lines, i + 1, l.header.value, normalize)
      else if l.checkbox.Some? then
        [PlanTask(i + 1, normalize(l.checkbox.value), section)] + PlanTasks(lines, i + 1, section, normalize)
      else if section == TRACK && l.numbered.Some? then
        [PlanTask(i + 1, normalize(l.numbered.value), section)] + PlanTasks(lines, i + 1, section, normalize)
      else PlanTasks(lines, i + 1, section, normalize)
  }

  /** `load_plan_tasks`. */
  method LoadPlanTasks(lines: seq<Line>, normalize: string -> string) returns (tasks: seq<PlanTask>)
    ensures tasks == PlanTasks(lines, 0, "", normalize)
  {
    tasks := [];
    var section, inTrack := "", false;
    for i := 0 to |lines|
      invariant inTrack == (section == TRACK)
      invariant tasks + PlanTasks(lines, i, section, normalize) == PlanTasks(lines, 0, "", normalize)
    {
      var l := lines[i];
      if l.header.Some? {
        section := l.header.value;
        inTrack := section == TRACK;
        continue;
      }
      if l.checkbox.Some? {
        tasks := tasks + [PlanTask(i + 1, normalize(l.checkbox.value), section)];
        continue;
      }
      if inTrack {
        if l.numbered.Some? {
          tasks := tasks + [PlanTask(i + 1, normalize(l.numbered.value), section)];
        }
      }
    }
  }

  /** The header last seen before line index `i`. */
  function SectionAt(lines: seq<Line>, i: nat): string
    requires i <= |lines|
  {
    if i == 0 then ""
    else if lines[i - 1].header.Some? then lines[i - 1].header.value
    else SectionAt(lines, i - 1)
  }

  /** The text a line offers as a plan task: a checkbox's anywhere, a numbered line's in the implementation track. */
  function Offered(lines: seq<Line>, i: nat): Option<string>
    requires i < |lines|
  {
    if lines[i].header.Some? then None
    else if lines[i].checkbox.Some? then lines[i].checkbox
    else if SectionAt(lines, i) == "Immediate Implementation Track" then lines[i].numbered
    else None
  }

  /** The plan's tasks are exactly the offered lines, each below the header last seen. */
  lemma {:induction false} PlanTasksAre(lines: seq<Line>, i: nat, normalize: string -> string)
    requires i <= |lines|
    ensures var r := PlanTasks(lines, i, SectionAt(lines, i), normalize);
      forall t :: t in r <==>
        i < t.line <= |lines| && Offered(lines, t.line - 1).Some? &&
        t == PlanTask(t.line, normalize(Offered(lines, t.line - 1).value), SectionAt(lines, t.line - 1))
    decreases |lines| - i
  {
    if i < |lines| {
      PlanTasksAre(lines, i + 1, normalize);
      PlanStep(lines, i, normalize);
      hide PlanTasks, Offered, SectionAt;
    }
  }

  /** What line index `i` adds to the tasks. */
  lemma PlanStep(lines: seq<Line>, i: nat, normalize: string -> string)
    requires i < |lines|
    ensures PlanTasks(lines, i, SectionAt(lines, i), normalize) ==
      (if Offered(lines, i).None? then []
       else [PlanTask(i + 1, normalize(Offered(lines, i).value), SectionAt(lines, i))]) +
      PlanTasks(lines, i + 1, SectionAt(lines, i + 1), normalize)
  {
  }

  function JoinBlank(parts: seq<string>): string {
    if parts == [] then "" else if |parts| == 1 then parts[0] else parts[0] + " " + JoinBlank(parts[1..])
  }

  /** The continuation lines folded into an item that is open at line index `i`. */
  function Folded(lines: seq<Line>, i: nat): seq<string>
    requires i <= |lines|
    decreases |lines| - i
  {
    if i == |lines| || lines[i].header.Some? || lines[i].bullet.Some? then []
    else
      (if lines[i].continuation.Some? then [lines[i].continuation.value] else []) + Folded(lines, i + 1)
  }

  /** The task of an item, unless its text is empty or says that nothing is open. */
  function Emit(line: nat, parts: seq<string>, section: string, normalize: string -> string): seq<PlanTask> {
    var text := normalize(JoinBlank(parts));
    if text != "" && !StartsWith(Lower(text), "no open ") then [PlanTask(line, text, section)] else []
  }

  function BacklogTasks(
    lines: seq<Line>, i: nat, section: string, priorities: set<string>, normalize: string -> string):
    (r: seq<PlanTask>)
    requires i <= |lines|
    ensures forall k :: 0 <= k < |r| ==> i < r[k].line <= |lines| && r[k].section in priorities
    ensures forall j, k :: 0 <= j < k < |r| ==> r[j].line < r[k].line
    decreases |lines| - i
  {
    if i == |lines| then []
    else
      var l := lines[i];
      if l.header.Some? then BacklogTasks(lines, i + 1, l.header.value, priorities, normalize)
      else if l.bullet.Some? && section in priorities then
        Emit(i + 1, [l.bullet.value] + Folded(lines, i + 1), section, normalize) +
        BacklogTasks(lines, i + 1, section, priorities, normalize)
      else BacklogTasks(lines, i + 1, section, priorities, normalize)
  }

  /** What a backlog item says: its bullet and the continuation lines up to the next bullet or header. */
  function ItemText(lines: seq<Line>, i: nat, normalize: string -> string): string
    requires i < |lines| && lines[i].bullet.Some?
  {
    normalize(JoinBlank([lines[i].bullet.value] + Folded(lines, i + 1)))
  }

  /** The backlog's tasks are exactly the bullets of the wanted sections that say something is open. */
  lemma {:induction false} BacklogTasksAre(
    lines: seq<Line>, i: nat, priorities: set<string>, normalize: string -> string)
    requires i <= |lines|
    ensures forall t :: t in BacklogTasks(lines, i, SectionAt(lines, i), priorities, normalize) <==>
      i < t.line <= |lines| && IsBacklogTask(lines, t, priorities, normalize)
    decreases |lines| - i
  {
    if i < |lines| {
      BacklogTasksAre(lines, i + 1, priorities, normalize);
      BacklogStep(lines, i, priorities, normalize);
      hide BacklogTasks, IsBacklogTask, SectionAt;
    }
  }

  /** A bullet of a wanted section that says something is open. */
  predicate IsBacklogTask(lines: seq<Line>, t: PlanTask, priorities: set<string>, normalize: string -> string)
    requires 1 <= t.line <= |lines|
  {
    var l, section := lines[t.line - 1], SectionAt(lines, t.line - 1);
    && l.header.None? && l.bullet.Some? && section in priorities
    && t == PlanTask(t.line, ItemText(lines, t.line - 1, normalize), section)
    && t.text != "" && !("no open " <= Lower(t.text))
  }

  lemma BacklogStep(lines: seq<Line>, i: nat, priorities: set<string>, normalize: string -> string)
    requires i < |lines|
    ensures forall t :: t in BacklogTasks(lines, i, SectionAt(lines, i), priorities, normalize) <==>
      || (t.line == i + 1 && IsBacklogTask(lines, t, priorities, normalize))
      || t in BacklogTasks(lines, i + 1, SectionAt(lines, i + 1), priorities, normalize)
  {
    hide Folded, JoinBlank, Lower;
  }

  /** Parts are joined by single blanks. */
  lemma {:induction false} JoinedByBlanks(parts: seq<string>, last: string)
    requires parts != []
    ensures JoinBlank(parts + [last]) == JoinBlank(parts) + " " + last
  {
    if |parts| > 1 {
      JoinedByBlanks(parts[1..], last);
      assert (parts + [last])[1..] == parts[1..] + [last];
    }
  }

  /** The folded lines are the continuations between `i` and the next bullet or header at `end`. */
  lemma {:induction false} FoldedUpTo(lines: seq<Line>, i: nat, end: nat)
    requires i <= end <= |lines| && forall k :: i <= k < end ==> lines[k].header.None? && lines[k].bullet.None?
    requires end == |lines| || lines[end].header.Some? || lines[end].bullet.Some?
    ensures Folded(lines, i) == Continuations(lines, i, end)
    decreases end - i
  {
    if i < end {
      FoldedUpTo(lines, i + 1, end);
      ContinuationsFirst(lines, i, end);
    }
  }

  function Continuations(lines: seq<Line>, i: nat, end: nat): seq<string>
    requires i <= end <= |lines|
  {
    if i == end then []
    else Continuations(lines, i, end - 1) +
         if lines[end - 1].continuation.Some? then [lines[end - 1].continuation.value] else []
  }

  lemma {:induction false} ContinuationsFirst(lines: seq<Line>, i: nat, end: nat)
    requires i < end <= |lines|
    ensures Continuations(lines, i, end) ==
      (if lines[i].continuation.Some? then [lines[i].continuation.value] else []) + Continuations(lines, i + 1, end)
  {
    if i < end - 1 {
      ContinuationsFirst(lines, i, end - 1);
    }
  }

  /** The open item of the backlog loader: its line and the parts of its text so far. */
  datatype Open = NoItem | OpenItem(line: nat, parts: seq<string>)

  /** What the loader still owes: the open item, completed from the lines ahead, and the rest. */
  function Owed(
    open: Open, lines: seq<Line>, i: nat, section: string, priorities: set<string>, normalize: string -> string):
    seq<PlanTask>
    requires i <= |lines|
  {
    (if open.NoItem? then [] else Emit(open.line, open.parts + Folded(lines, i), section, normalize)) +
    BacklogTasks(lines, i, section, priorities, normalize)
  }

  /** `load_backlog_tasks`: wrapped bullets are folded and flushed at the next bullet, header, or the end. */
  method LoadBacklogTasks(lines: seq<Line>, priorities: set<string>, normalize: string -> string)
    returns (tasks: seq<PlanTask>)
    ensures tasks == BacklogTasks(lines, 0, "", priorities, normalize)
  {
    tasks := [];
    var section, open := "", NoItem;
    OwedEnds(lines, priorities, normalize);
    hide Emit, BacklogTasks, Owed, Folded, Flush;
    for i := 0 to |lines|
      invariant tasks + Owed(open, lines, i, section, priorities, normalize) ==
                BacklogTasks(lines, 0, "", priorities, normalize)
    {
      var l := lines[i];
      OwedStep(open, lines, i, section, priorities, normalize);
      if l.header.Some? {
        tasks := tasks + Flush(open, section, normalize);
        open, section := NoItem, l.header.value;
        continue;
      }
      if l.bullet.Some? {
        tasks := tasks + Flush(open, section, normalize);
        open := if section in priorities then OpenItem(i + 1, [l.bullet.value]) else NoItem;
        continue;
      }
      if open.OpenItem? && l.continuation.Some? {
        open := open.(parts := open.parts + [l.continuation.value]);
      }
    }
    OwedAtEnd(open, lines, section, priorities, normalize);
    tasks := tasks + Flush(open, section, normalize);
  }

  lemma OwedEnds(lines: seq<Line>, priorities: set<string>, normalize: string -> string)
    ensures Owed(NoItem, lines, 0, "", priorities, normalize) == BacklogTasks(lines, 0, "", priorities, normalize)
  {
    hide BacklogTasks;
  }

  lemma OwedAtEnd(open: Open, lines: seq<Line>, section: string, priorities: set<string>, normalize: string -> string)
    ensures Owed(open, lines, |lines|, section, priorities, normalize) == Flush(open, section, normalize)
  {
    assert open.OpenItem? ==> open.parts + Folded(lines, |lines|) == open.parts;
  }

  function Flush(open: Open, section: string, normalize: string -> string): seq<PlanTask> {
    if open.NoItem? then [] else Emit(open.line, open.parts, section, normalize)
  }

  lemma OwedStep(
    open: Open, lines: seq<Line>, i: nat, section: string, priorities: set<string>, normalize: string -> string)
    requires i < |lines|
    ensures var l, owed := lines[i], Owed(open, lines, i, section, priorities, normalize);
      if l.header.Some? then
        owed == Flush(open, section, normalize) + Owed(NoItem, lines, i + 1, l.header.value, priorities, normalize)
      else if l.bullet.Some? then
        owed == Flush(open, section, normalize) +
                Owed(if section in priorities then OpenItem(i + 1, [l.bullet.value]) else NoItem,
                     lines, i + 1, section, priorities, normalize)
      else
        var next := if open.OpenItem? && l.continuation.Some?
                    then open.(parts := open.parts + [l.continuation.value]) else open;
        owed == Owed(next, lines, i + 1, section, priorities, normalize)
  {
    hide Emit;
    var l := lines[i];
    if l.header.None? && l.bullet.None? && open.OpenItem? {
      if l.continuation.Some? {
        assert open.parts + Folded(lines, i) == open.parts + [l.continuation.value] + Folded(lines, i + 1);
      } else {
        assert Folded(lines, i) == Folded(lines, i + 1);
      }
    } else if open.OpenItem? {
      assert open.parts + Folded(lines, i) == open.parts;
    }
  }

  // -------------------------------------------------------------------- syncing

  predicate At(item: Item, path: string, line: nat) {
    item.path == path && item.line == line
  }

  /** The item recorded last for a line of the file. */
  function Latest(items: seq<Item>, path: string, line: nat): (r: Option<Item>)
    ensures r.Some? ==> r.value in items && At(r.value, path, line)
  {
    if items == [] then None
    else if At(items[|items| - 1], path, line) then Some(items[|items| - 1])
    else Latest(items[..|items| - 1], path, line)
  }

  predicate SameTask(item: Item, task: PlanTask) {
    item.section == task.section && item.text == task.text
  }

  predicate Known(items: seq<Item>, path: string, task: PlanTask) {
    var latest := Latest(items, path, task.line);
    latest.Some? && SameTask(latest.value, task)
  }

  function NewItem(path: string, task: PlanTask): Item {
    Item(path, task.line, task.section, task.text, Created, None)
  }

  /** The items recorded for the first `k` tasks. */
  function SyncNew(items: seq<Item>, path: string, tasks: seq<PlanTask>, k: nat): seq<Item>
    requires k <= |tasks|
  {
    if k == 0 then []
    else
      SyncNew(items, path, tasks, k - 1) +
      if Known(items, path, tasks[k - 1]) then [] else [NewItem(path, tasks[k - 1])]
  }

  function Sync(items: seq<Item>, path: string, tasks: seq<PlanTask>): seq<Item> {
    items + SyncNew(items, path, tasks, |tasks|)
  }

  ghost predicate OneTaskPerLine(tasks: seq<PlanTask>) {
    forall j, k :: 0 <= j < k < |tasks| ==> tasks[j].line != tasks[k].line
  }

  lemma {:induction false} LatestAppend(items: seq<Item>, more: seq<Item>, path: string, line: nat)
    ensures Latest(items + more, path, line) ==
            if Latest(more, path, line).Some? then Latest(more, path, line) else Latest(items, path, line)
  {
    if more == [] {
      assert items + more == items;
    } else {
      assert (items + more)[..|items + more| - 1] == items + more[..|more| - 1];
      LatestAppend(items, more[..|more| - 1], path, line);
    }
  }

  /** Among the new items only task `t`'s own can sit on its line. */
  lemma {:induction false} LatestNew(items: seq<Item>, path: string, tasks: seq<PlanTask>, k: nat, t: nat)
    requires OneTaskPerLine(tasks) && k <= |tasks| && t < |tasks|
    ensures Latest(SyncNew(items, path, tasks, k), path, tasks[t].line) ==
            if t < k && !Known(items, path, tasks[t]) then Some(NewItem(path, tasks[t])) else None
  {
    hide Known;
    if k > 0 {
      LatestNew(items, path, tasks, k - 1, t);
      var before, new' := SyncNew(items, path, tasks, k - 1), SyncNew(items, path, tasks, k);
      if !Known(items, path, tasks[k - 1]) {
        assert new'[..|new'| - 1] == before;
      } else {
        assert new' == before;
      }
    }
  }

  lemma {:induction false} AllKnownSyncsNothing(items: seq<Item>, path: string, tasks: seq<PlanTask>, k: nat)
    requires k <= |tasks| && forall t :: 0 <= t < k ==> Known(items, path, tasks[t])
    ensures SyncNew(items, path, tasks, k) == []
  {
    if k > 0 {
      AllKnownSyncsNothing(items, path, tasks, k - 1);
    }
  }

  /** Whatever is in the queue, a sync leaves every task of the file recorded, and a second one records nothing. */
  lemma SyncTwice(items: seq<Item>, path: string, tasks: seq<PlanTask>)
    requires OneTaskPerLine(tasks)
    ensures items <= Sync(items, path, tasks)
    ensures forall t :: 0 <= t < |tasks| ==> Known(Sync(items, path, tasks), path, tasks[t])
    ensures Sync(Sync(items, path, tasks), path, tasks) == Sync(items, path, tasks)
  {
    var once := Sync(items, path, tasks);
    forall t | 0 <= t < |tasks| ensures Known(once, path, tasks[t]) {
      LatestAppend(items, SyncNew(items, path, tasks, |tasks|), path, tasks[t].line);
      LatestNew(items, path, tasks, |tasks|, t);
    }
    AllKnownSyncsNothing(once, path, tasks, |tasks|);
  }

  /** A created item of the file, with nothing run yet, as one of the tasks says. */
  predicate IsCreatedFrom(item: Item, path: string, tasks: seq<PlanTask>) {
    && item.path == path && item.status == Created && item.taskId == None
    && exists t :: 0 <= t < |tasks| && item.line == tasks[t].line && SameTask(item, tasks[t])
  }

  /** What a sync adds are created items of the file's tasks, and every task ends recorded on its line. */
  lemma {:induction false} SyncAdds(items: seq<Item>, path: string, tasks: seq<PlanTask>, k: nat)
    requires k <= |tasks|
    ensures var added := SyncNew(items, path, tasks, k);
      && (forall i :: 0 <= i < |added| ==> IsCreatedFrom(added[i], path, tasks))
      && (forall t :: 0 <= t < k && !Known(items, path, tasks[t]) ==>
            Item(path, tasks[t].line, tasks[t].section, tasks[t].text, Created, None) in added)
  {
    if k > 0 {
      SyncAdds(items, path, tasks, k - 1);
      assert IsCreatedFrom(NewItem(path, tasks[k - 1]), path, tasks);
      hide Known, IsCreatedFrom;
    }
  }

  /** The plan loader and the backlog loader both give at most one task per line. */
  lemma LoadersGiveOneTaskPerLine(lines: seq<Line>, priorities: set<string>, normalize: string -> string)
    ensures OneTaskPerLine(PlanTasks(lines, 0, "", normalize))
    ensures OneTaskPerLine(BacklogTasks(lines, 0, "", priorities, normalize))
  {
  }

  // ----------------------------------------------------------------- refreshing

  predicate CreatedAs(item: Item, path: string, section: string, text: string) {
    item.path == path && item.status == Created && item.section == section && item.text == text
  }

  /** Ids of created items of the file with this section and text. */
  function Twins(items: seq<Item>, path: string, section: string, text: string): set<nat> {
    set i | 0 <= i < |items| && CreatedAs(items[i], path, section, text) :: i + 1
  }

  function TasksLike(tasks: seq<PlanTask>, section: string, text: string): (r: seq<PlanTask>)
    ensures forall k :: 0 <= k < |r| ==> r[k].section == section && r[k].text == text
  {
    if tasks == [] then []
    else
      var last := tasks[|tasks| - 1];
      var like := last.section == section && last.text == text;
      TasksLike(tasks[..|tasks| - 1], section, text) + if like then [last] else []
  }

  /** The created item is the only one with its section and text, and so is the task, on another line. */
  predicate Shifted(items: seq<Item>, path: string, tasks: seq<PlanTask>, id: nat)
    requires 1 <= id <= |items|
  {
    var item := items[id - 1];
    var like := TasksLike(tasks, item.section, item.text);
    && item.path == path && item.status == Created
    && Twins(items, path, item.section, item.text) == {id}
    && |like| == 1 && like[0].line != item.line
  }

  /** The row after `refresh --apply`. */
  function RefreshedItem(items: seq<Item>, path: string, tasks: seq<PlanTask>, id: nat): Item
    requires 1 <= id <= |items|
  {
    var item := items[id - 1];
    if Shifted(items, path, tasks, id) then item.(line := TasksLike(tasks, item.section, item.text)[0].line) else item
  }

  function Refresh(items: seq<Item>, path: string, tasks: seq<PlanTask>): seq<Item> {
    seq(|items|, i requires 0 <= i < |items| => RefreshedItem(items, path, tasks, i + 1))
  }

  lemma {:induction false} LikeOnes(tasks: seq<PlanTask>, section: string, text: string)
    ensures TasksLike(tasks, section, text) == [] <==>
      forall t :: t in tasks ==> !(t.section == section && t.text == text)
    ensures forall t :: t in TasksLike(tasks, section, text) <==> t in tasks && t.section == section && t.text == text
  {
    if tasks != [] {
      LikeOnes(tasks[..|tasks| - 1], section, text);
      assert tasks == tasks[..|tasks| - 1] + [tasks[|tasks| - 1]];
    }
  }

  /** Over a file with one task per line: what makes a created item shifted, and where it goes. */
  lemma ShiftedIff(items: seq<Item>, path: string, tasks: seq<PlanTask>, id: nat)
    requires 1 <= id <= |items| && OneTaskPerLine(tasks)
    ensures var item := items[id - 1];
      Shifted(items, path, tasks, id) <==>
      && item.path == path && item.status == Created
      && (forall i :: 0 <= i < |items| && i != id - 1 && items[i].path == path && items[i].status == Created ==>
            !(items[i].section == item.section && items[i].text == item.text))
      && exists t :: IsOnlyTask(tasks, item.section, item.text, t) && t.line != item.line
    ensures Shifted(items, path, tasks, id) ==>
      PlanTask(RefreshedItem(items, path, tasks, id).line, items[id - 1].text, items[id - 1].section) in tasks
  {
    var item := items[id - 1];
    var like, twins := TasksLike(tasks, item.section, item.text), Twins(items, path, item.section, item.text);
    LikeIsOnly(tasks, item.section, item.text);
    hide TasksLike;
    if item.path == path && item.status == Created {
      assert id in twins;
      if forall i :: 0 <= i < |items| && CreatedAs(items[i], path, item.section, item.text) ==> i == id - 1 {
        assert twins == {id};
      } else {
        var i :| 0 <= i < |items| && CreatedAs(items[i], path, item.section, item.text) && i != id - 1;
        assert i + 1 in twins;
      }
    }
  }

  /** There is one task alike exactly when some task is and equals every other that is. */
  lemma LikeIsOnly(tasks: seq<PlanTask>, section: string, text: string)
    requires OneTaskPerLine(tasks)
    ensures var like := TasksLike(tasks, section, text);
      && (|like| == 1 ==> IsOnlyTask(tasks, section, text, like[0]))
      && forall t :: IsOnlyTask(tasks, section, text, t) ==> like == [t]
  {
    var like := TasksLike(tasks, section, text);
    LikeOnes(tasks, section, text);
    LikeDistinct(tasks, section, text);
    hide TasksLike;
    assert |like| >= 1 ==> like[0] in like;
    assert |like| >= 2 ==> like[1] in like && like[0] != like[1];
  }

  ghost predicate IsOnlyTask(tasks: seq<PlanTask>, section: string, text: string, t: PlanTask) {
    && t in tasks && t.section == section && t.text == text
    && forall u :: u in tasks && u.section == section && u.text == text ==> u == t
  }

  lemma {:induction false} LikeDistinct(tasks: seq<PlanTask>, section: string, text: string)
    requires OneTaskPerLine(tasks)
    ensures forall i, j :: 0 <= i < j < |TasksLike(tasks, section, text)| ==>
      TasksLike(tasks, section, text)[i] != TasksLike(tasks, section, text)[j]
  {
    if tasks != [] {
      LikeDistinct(tasks[..|tasks| - 1], section, text);
      LikeOnes(tasks[..|tasks| - 1], section, text);
    }
  }

  /** Refreshing changes line numbers only, and a second refresh of the same file finds nothing shifted. */
  lemma RefreshTwice(items: seq<Item>, path: string, tasks: seq<PlanTask>)
    ensures var once := Refresh(items, path, tasks);
      && |once| == |items|
      && (forall i :: 0 <= i < |items| ==> once[i] == items[i].(line := once[i].line))
      && (forall id: nat :: 1 <= id <= |once| ==> !Shifted(once, path, tasks, id))
      && Refresh(once, path, tasks) == once
  {
    var once := Refresh(items, path, tasks);
    forall id: nat | 1 <= id <= |once| ensures !Shifted(once, path, tasks, id) {
      var item := items[id - 1];
      assert once[id - 1] == RefreshedItem(items, path, tasks, id);
      TwinsKept(items, path, tasks, item.section, item.text);
    }
  }

  lemma TwinsKept(items: seq<Item>, path: string, tasks: seq<PlanTask>, section: string, text: string)
    ensures Twins(Refresh(items, path, tasks), path, section, text) == Twins(items, path, section, text)
  {
    var once := Refresh(items, path, tasks);
    hide Shifted, TasksLike;
    forall i | 0 <= i < |items|
      ensures CreatedAs(once[i], path, section, text) <==> CreatedAs(items[i], path, section, text)
    {
      assert once[i] == RefreshedItem(items, path, tasks, i + 1);
    }
  }

  // ---------------------------------------------------------------------- stale

  /** Created, but the file the row came from has no such open task on that line any more. */
  predicate Stale(item: Item, open: string -> set<(nat, string)>) {
    item.status == Created && (item.line, item.text) !in open(item.path)
  }

  /** `_stale_created_queue_items`; each file is read once, and its open tasks are remembered. */
  method StaleItems(items: seq<Item>, open: string -> set<(nat, string)>) returns (stale: seq<nat>)
    ensures forall id: nat :: id in stale <==>
      && 1 <= id <= |items| && items[id - 1].status == Created
      && (items[id - 1].line, items[id - 1].text) !in open(items[id - 1].path)
    ensures forall i, j :: 0 <= i < j < |stale| ==> stale[i] < stale[j]
  {
    stale := [];
    var keys: map<string, set<(nat, string)>> := map[];
    for i := 0 to |items|
      invariant forall path :: path in keys ==> keys[path] == open(path)
      invariant forall k :: 0 <= k < |stale| ==> 1 <= stale[k] <= i && Stale(items[stale[k] - 1], open)
      invariant forall id: nat :: 1 <= id <= i && Stale(items[id - 1], open) ==> id in stale
      invariant forall j, k :: 0 <= j < k < |stale| ==> stale[j] < stale[k]
    {
      var item := items[i];
      if item.status != Created {
        continue;
      }
      if item.path !in keys {
        keys := keys[item.path := open(item.path)];
      }
      if (item.line, item.text) !in keys[item.path] {
        stale := stale + [i + 1];
      }
    }
  }

  /** Refreshing a file cures exactly the items it shifts, and makes no other item stale. */
  lemma RefreshCuresStale(
    items: seq<Item>, path: string, tasks: seq<PlanTask>, open: string -> set<(nat, string)>, id: nat)
    requires forall t :: 0 <= t < |tasks| ==> (tasks[t].line, tasks[t].text) in open(path)
    requires 1 <= id <= |items|
    ensures Stale(Refresh(items, path, tasks)[id - 1], open) <==>
            Stale(items[id - 1], open) && !Shifted(items, path, tasks, id)
  {
    var item := items[id - 1];
    LikeTasksAreTasks(tasks, item.section, item.text);
    assert Refresh(items, path, tasks)[id - 1] == RefreshedItem(items, path, tasks, id);
    hide TasksLike;
  }

  lemma {:induction false} LikeTasksAreTasks(tasks: seq<PlanTask>, section: string, text: string)
    ensures forall k :: 0 <= k < |TasksLike(tasks, section, text)| ==>
      TasksLike(tasks, section, text)[k] in tasks && TasksLike(tasks, section, text)[k].text == text
  {
    if tasks != [] {
      LikeTasksAreTasks(tasks[..|tasks| - 1], section, text);
    }
  }
}
