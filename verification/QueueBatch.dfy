/** The queue store, the serial queue batch that re-queries after every item, and the guarded loop around it. */
module QueueBatch {
  import opened Prelude
  import opened Queue

  // ------------------------------------------------------------------ listings

  predicate HasItem(items: seq<Item>, id: nat) {
    1 <= id <= |items|
  }

  /** ORDER BY line_number, plan_item_id. */
  predicate Before(items: seq<Item>, a: nat, b: nat)
    requires HasItem(items, a) && HasItem(items, b)
  {
    items[a - 1].line < items[b - 1].line || (items[a - 1].line == items[b - 1].line && a < b)
  }

  ghost predicate Sorted(items: seq<Item>, ids: seq<nat>) {
    && (forall i :: 0 <= i < |ids| ==> HasItem(items, ids[i]))
    && (forall i, j :: 0 <= i < j < |ids| ==> Before(items, ids[i], ids[j]))
  }

  predicate Listed(items: seq<Item>, path: string, status: ItemStatus, id: nat) {
    HasItem(items, id) && items[id - 1].path == path && items[id - 1].status == status
  }

  function Place(items: seq<Item>, sorted: seq<nat>, id: nat): (r: seq<nat>)
    requires Sorted(items, sorted) && HasItem(items, id) && id !in sorted
    ensures Sorted(items, r) && forall x :: x in r <==> x == id || x in sorted
  {
    if sorted == [] then [id]
    else if Before(items, id, sorted[0]) then [id] + sorted
    else
      var rest := Place(items, sorted[1..], id);
      assert forall x :: x in sorted <==> x == sorted[0] || x in sorted[1..];
      assert forall i :: 0 <= i < |rest| ==> rest[i] in rest;
      [sorted[0]] + rest
  }

  /** `list_plan_items` by file and status, over the first `k` rows. */
  function ListingTo(items: seq<Item>, path: string, status: ItemStatus, k: nat): (r: seq<nat>)
    requires k <= |items|
    ensures Sorted(items, r) && forall id: nat :: id in r <==> id <= k && Listed(items, path, status, id)
  {
    if k == 0 then []
    else
      var before := ListingTo(items, path, status, k - 1);
      if Listed(items, path, status, k) then Place(items, before, k) else before
  }

  function Listing(items: seq<Item>, path: string, status: ItemStatus): (r: seq<nat>)
    ensures Sorted(items, r) && forall id: nat :: id in r <==> Listed(items, path, status, id)
  {
    ListingTo(items, path, status, |items|)
  }

  /** A listing is ordered by line, then by id, and has exactly the rows of the file with the status. */
  lemma ListingOrder(items: seq<Item>, path: string, status: ItemStatus)
    ensures var ids := Listing(items, path, status);
      && (forall id: nat :: id in ids <==>
            1 <= id <= |items| && items[id - 1].path == path && items[id - 1].status == status)
      && forall i, j :: 0 <= i < j < |ids| ==>
           && HasItem(items, ids[i]) && HasItem(items, ids[j]) && items[ids[i] - 1].line <= items[ids[j] - 1].line
           && (items[ids[i] - 1].line == items[ids[j] - 1].line ==> ids[i] < ids[j])
  {
    hide Listing;
  }

  /** Two sorted listings of the same rows are the same listing. */
  lemma {:induction false} SortedIsUnique(items: seq<Item>, s: seq<nat>, t: seq<nat>)
    requires Sorted(items, s) && Sorted(items, t) && forall x :: x in s <==> x in t
    ensures s == t
  {
    if s == [] {
      assert forall i :: 0 <= i < |t| ==> t[i] in s;
    } else {
      assert s[0] in t;
      assert t[0] in s;
      var i :| 0 <= i < |t| && t[i] == s[0];
      var j :| 0 <= j < |s| && s[j] == t[0];
      assert s[0] == t[0];
      forall x ensures x in s[1..] <==> x in t[1..] {
        if x in s[1..] {
          var k :| 1 <= k < |s| && s[k] == x;
          assert x in s && x != s[0];
        }
        if x in t[1..] {
          var k :| 1 <= k < |t| && t[k] == x;
          assert x in t && x != t[0];
        }
      }
      SortedIsUnique(items, s[1..], t[1..]);
    }
  }

  // --------------------------------------------------------------------- batch

  /** What running an item comes to. */
  datatype Outcome = Refused | Ran(done: bool, task: string)

  predicate Succeeded(o: Outcome) {
    o.Ran? && o.done
  }

  /** `update_plan_item_status`. */
  function SetItem(items: seq<Item>, id: nat, status: ItemStatus, taskId: Option<string>): seq<Item> {
    if !HasItem(items, id) then items
    else
      var item := items[id - 1];
      items[id - 1 := item.(status := status, taskId := if taskId.Some? then taskId else item.taskId)]
  }

  function RunItem(items: seq<Item>, id: nat, o: Outcome): seq<Item> {
    match o
    case Refused => SetItem(items, id, Blocked, None)
    case Ran(done, task) =>
      SetItem(SetItem(items, id, InProgress, None), id, if done then Done else Blocked, Some(task))
  }

  datatype Result = Result(processed: seq<nat>, final: seq<Item>, stopped: bool)

  /** At most `turns` items, the first created one each time, until one is not done. */
  function Batch(items: seq<Item>, path: string, turns: nat, world: nat -> Outcome, turn: nat): Result
    decreases turns
  {
    var created := Listing(items, path, Created);
    if turns == 0 || created == [] then Result([], items, false)
    else
      var after := RunItem(items, created[0], world(turn));
      if Succeeded(world(turn)) then
        var rest := Batch(after, path, turns - 1, world, turn + 1);
        Result([created[0]] + rest.processed, rest.final, rest.stopped)
      else Result([created[0]], after, true)
  }

  /** Running the first created item takes it, and only it, off the listing. */
  lemma RunTakesFirst(items: seq<Item>, path: string, o: Outcome)
    requires Listing(items, path, Created) != []
    ensures var created := Listing(items, path, Created);
      var after := RunItem(items, created[0], o);
      && HasItem(items, created[0])
      && |after| == |items|
      && (forall i :: 0 <= i < |items| && i != created[0] - 1 ==> after[i] == items[i])
      && after[created[0] - 1].status == (if Succeeded(o) then Done else Blocked)
      && Listing(after, path, Created) == created[1..]
  {
    var created := Listing(items, path, Created);
    var id := created[0];
    assert id in created;
    var after := RunItem(items, id, o);
    hide Listing;
    assert forall i :: 0 <= i < |items| ==> after[i].line == items[i].line && after[i].path == items[i].path;
    assert Sorted(after, created[1..]);
    forall x: nat ensures x in created[1..] <==> Listed(after, path, Created, x) {
      if x in created[1..] {
        var k :| 1 <= k < |created| && created[k] == x;
        assert x in created && Before(items, id, x);
      }
      if Listed(after, path, Created, x) {
        assert x != id && Listed(items, path, Created, x);
        assert x in created;
      }
    }
    SortedIsUnique(after, Listing(after, path, Created), created[1..]);
  }

  /** `_select_batch_plan_items`: the first created items of the file, or the one asked for if it is created there. */
  function Select(items: seq<Item>, path: string, limit: int, itemId: Option<nat>): (r: Option<seq<nat>>)
    ensures r.Some? && itemId.None? ==>
      r.value <= Listing(items, path, Created) &&
      |r.value| == if limit < |Listing(items, path, Created)| then Max(0, limit) else |Listing(items, path, Created)|
    ensures r.None? ==> itemId.Some? && itemId.value !in Listing(items, path, Created)
    ensures r.Some? && itemId.Some? ==> r.value == [itemId.value] && itemId.value in Listing(items, path, Created)
  {
    if itemId.None? then
      var created := Listing(items, path, Created);
      Some(created[..if limit < |created| then Max(0, limit) else |created|])
    else if Listed(items, path, Created, itemId.value) then Some([itemId.value])
    else None
  }

  /** The given items in order, until one is not done, as a batch with rotated worktrees takes them. */
  function RunFixed(items: seq<Item>, ids: seq<nat>, world: nat -> Outcome, turn: nat): Result
    decreases |ids|
  {
    if ids == [] then Result([], items, false)
    else
      var after := RunItem(items, ids[0], world(turn));
      if Succeeded(world(turn)) then
        var rest := RunFixed(after, ids[1..], world, turn + 1);
        Result([ids[0]] + rest.processed, rest.final, rest.stopped)
      else Result([ids[0]], after, true)
  }

  /** Fixing the items at the start and asking for the next one every time come to the same. */
  lemma {:induction false} RotationIsBatch(items: seq<Item>, path: string, n: nat, world: nat -> Outcome, turn: nat)
    requires n <= |Listing(items, path, Created)|
    ensures RunFixed(items, Listing(items, path, Created)[..n], world, turn) == Batch(items, path, n, world, turn)
    decreases n
  {
    hide Listing, RunItem, Succeeded;
    var created := Listing(items, path, Created);
    if n > 0 {
      RunTakesFirst(items, path, world(turn));
      if Succeeded(world(turn)) {
        RotationIsBatch(RunItem(items, created[0], world(turn)), path, n - 1, world, turn + 1);
        assert created[..n][1..] == created[1..][..n - 1];
      }
    }
  }

  /** After the turns so far, `items` is where the rest of the fixed items begins. */
  ghost predicate FixedRemaining(
    whole: Result, processed: seq<nat>, items: seq<Item>, ids: seq<nat>, world: nat -> Outcome, turn: nat)
    requires turn <= |ids|
  {
    var rest := RunFixed(items, ids[turn..], world, turn);
    whole.final == rest.final && whole.stopped == rest.stopped && whole.processed == processed + rest.processed
  }

  lemma FixedTurn(
    whole: Result, processed: seq<nat>, items: seq<Item>, ids: seq<nat>, world: nat -> Outcome, turn: nat)
    requires turn < |ids| && FixedRemaining(whole, processed, items, ids, world, turn)
    ensures var after := RunItem(items, ids[turn], world(turn));
      if Succeeded(world(turn)) then FixedRemaining(whole, processed + [ids[turn]], after, ids, world, turn + 1)
      else whole == Result(processed + [ids[turn]], after, true)
  {
    hide RunItem;
    assert ids[turn..][1..] == ids[turn + 1..];
  }

  /** Whether a batch rotates worktrees: its base directory may be missing, and so many of them are available. */
  datatype Rotation = NoRotation | NoBase | Worktrees(available: nat)

  predicate RotationFails(rotation: Rotation, selected: nat) {
    rotation.NoBase? || (rotation.Worktrees? && rotation.available < selected)
  }

  /** What a batch over the listing `created` does to the rows. */
  ghost predicate RunsPrefixOf(created: seq<nat>, items: seq<Item>, turns: nat, r: Result) {
    && (forall i :: 0 <= i < |created| ==> HasItem(items, created[i]))
    && r.processed <= created && |r.processed| <= turns
    && |r.final| == |items|
    && (!r.stopped ==> |r.processed| == if turns < |created| then turns else |created|)
    && (r.stopped ==> r.processed != [])
    && (forall k :: 0 <= k < |r.processed| ==>
          r.final[created[k] - 1].status == if r.stopped && k == |r.processed| - 1 then Blocked else Done)
    && (forall i :: 0 <= i < |items| && i + 1 !in r.processed ==> r.final[i] == items[i])
  }

  ghost predicate RunsPrefix(items: seq<Item>, path: string, turns: nat, r: Result) {
    RunsPrefixOf(Listing(items, path, Created), items, turns, r)
  }

  /** The items a batch runs are a prefix of the items selected at its start; all but a last failure are done. */
  lemma {:induction false} BatchRunsPrefix(items: seq<Item>, path: string, turns: nat, world: nat -> Outcome, turn: nat)
    ensures RunsPrefix(items, path, turns, Batch(items, path, turns, world, turn))
    decreases turns
  {
    hide Listing, RunItem, Sorted;
    var created := Listing(items, path, Created);
    ListingHasItems(items, path);
    if turns != 0 && created != [] {
      RunTakesFirst(items, path, world(turn));
      HeadNotInTail(items, created);
      var after := RunItem(items, created[0], world(turn));
      if Succeeded(world(turn)) {
        BatchRunsPrefix(after, path, turns - 1, world, turn + 1);
        hide RunsPrefixOf, Batch;
        FirstThenRest(created, items, turns, after, Batch(after, path, turns - 1, world, turn + 1));
        FirstAndRest(items, path, turns, world, turn);
      }
    }
  }

  /** The rows an item run leaves: `Ran` stores the task, `Refused` keeps what was there. */
  function RunRow(row: Item, o: Outcome): Item {
    match o
    case Refused => row.(status := Blocked)
    case Ran(done, task) => row.(status := if done then Done else Blocked, taskId := Some(task))
  }

  /** The `k`-th item run is `id`, it succeeded unless it stopped the batch, and its row says what it came to. */
  ghost predicate RanAs(id: nat, items: seq<Item>, o: Outcome, r: Result, k: nat)
    requires k < |r.processed| && |r.final| == |items| && HasItem(items, id)
  {
    && r.processed[k] == id && r.final[id - 1] == RunRow(items[id - 1], o)
    && (Succeeded(o) <==> !(r.stopped && k == |r.processed| - 1))
  }

  /** Items run up to and including the first failure, in the listing's order, each leaving its own row. */
  ghost predicate RunsWhile(
    created: seq<nat>, items: seq<Item>, turns: nat, world: nat -> Outcome, turn: nat, r: Result) {
    && (forall k :: 0 <= k < |created| ==> HasItem(items, created[k]))
    && |r.processed| <= |created| && |r.final| == |items|
    && (forall k :: 0 <= k < |r.processed| ==> RanAs(created[k], items, world(turn + k), r, k))
    && (r.stopped ==> r.processed != [])
    && (!r.stopped ==> |r.processed| == if turns < |created| then turns else |created|)
  }

  lemma {:induction false} BatchRunsWhile(items: seq<Item>, path: string, turns: nat, world: nat -> Outcome, turn: nat)
    ensures RunsWhile(Listing(items, path, Created), items, turns, world, turn, Batch(items, path, turns, world, turn))
    decreases turns
  {
    hide *;
    var created := Listing(items, path, Created);
    if turns != 0 && created != [] && Succeeded(world(turn)) {
      ListingHasItems(items, path);
      BatchRunsWhile(RunItem(items, created[0], world(turn)), path, turns - 1, world, turn + 1);
      WhileNext(items, path, turns, world, turn);
    } else {
      WhileEnds(items, path, turns, world, turn);
    }
  }

  lemma WhileEnds(items: seq<Item>, path: string, turns: nat, world: nat -> Outcome, turn: nat)
    requires turns == 0 || Listing(items, path, Created) == [] || !Succeeded(world(turn))
    ensures RunsWhile(Listing(items, path, Created), items, turns, world, turn, Batch(items, path, turns, world, turn))
  {
    hide Listing, RunItem, Sorted, Succeeded, RunRow;
    var created := Listing(items, path, Created);
    ListingHasItems(items, path);
    if created != [] {
      RunItemIs(items, created[0], world(turn));
    }
  }

  lemma WhileNext(items: seq<Item>, path: string, turns: nat, world: nat -> Outcome, turn: nat)
    requires turns != 0 && Listing(items, path, Created) != [] && Succeeded(world(turn))
    requires HasItem(items, Listing(items, path, Created)[0])
    requires var after := RunItem(items, Listing(items, path, Created)[0], world(turn));
      RunsWhile(Listing(after, path, Created), after, turns - 1, world, turn + 1,
                Batch(after, path, turns - 1, world, turn + 1))
    ensures RunsWhile(Listing(items, path, Created), items, turns, world, turn, Batch(items, path, turns, world, turn))
  {
    hide Listing, RunItem, Sorted, Succeeded, RunRow, Batch, RunsWhile, RunsPrefixOf;
    var created := Listing(items, path, Created);
    ListingHasItems(items, path);
    RunTakesFirst(items, path, world(turn));
    RunItemIs(items, created[0], world(turn));
    HeadNotInTail(items, created);
    var after := RunItem(items, created[0], world(turn));
    BatchRunsPrefix(after, path, turns - 1, world, turn + 1);
    FirstAndRest(items, path, turns, world, turn);
    FirstThenWhile(created, items, after, turns, world, turn, Batch(after, path, turns - 1, world, turn + 1));
  }

  lemma RunItemIs(items: seq<Item>, id: nat, o: Outcome)
    requires HasItem(items, id)
    ensures RunItem(items, id, o) == items[id - 1 := RunRow(items[id - 1], o)]
  {
  }

  lemma FirstThenWhile(created: seq<nat>, items: seq<Item>, after: seq<Item>, turns: nat, world: nat -> Outcome,
                       turn: nat, rest: Result)
    requires turns > 0 && created != [] && HasItem(items, created[0]) && created[0] !in created[1..]
    requires after == items[created[0] - 1 := RunRow(items[created[0] - 1], world(turn))]
    requires Succeeded(world(turn)) && (forall k :: 0 <= k < |created| ==> HasItem(items, created[k]))
    requires RunsWhile(created[1..], after, turns - 1, world, turn + 1, rest)
    requires RunsPrefixOf(created[1..], after, turns - 1, rest)
    ensures RunsWhile(created, items, turns, world, turn,
                      Result([created[0]] + rest.processed, rest.final, rest.stopped))
  {
    var r := Result([created[0]] + rest.processed, rest.final, rest.stopped);
    FirstRowStays(created, after, turns, rest);
    hide RunRow, Succeeded, RunsPrefixOf;
    assert RanAs(created[0], items, world(turn + 0), r, 0);
    hide RanAs;
    forall k | 0 <= k < |r.processed| ensures RanAs(created[k], items, world(turn + k), r, k) {
      if k > 0 {
        LaterRow(created, items, after, turns, world, turn, rest, k);
      }
    }
  }

  lemma FirstRowStays(created: seq<nat>, after: seq<Item>, turns: nat, rest: Result)
    requires turns > 0 && created != [] && HasItem(after, created[0]) && created[0] !in created[1..]
    requires RunsPrefixOf(created[1..], after, turns - 1, rest)
    ensures rest.final[created[0] - 1] == after[created[0] - 1]
  {
    PrefixMembers(rest.processed, created[1..]);
    assert (created[0] - 1) + 1 == created[0];
  }

  lemma LaterRow(created: seq<nat>, items: seq<Item>, after: seq<Item>, turns: nat, world: nat -> Outcome,
                 turn: nat, rest: Result, k: nat)
    requires turns > 0 && created != [] && HasItem(items, created[0]) && created[0] !in created[1..]
    requires after == items[created[0] - 1 := RunRow(items[created[0] - 1], world(turn))]
    requires forall i :: 0 <= i < |created| ==> HasItem(items, created[i])
    requires RunsWhile(created[1..], after, turns - 1, world, turn + 1, rest) && 0 < k <= |rest.processed|
    ensures RanAs(created[k], items, world(turn + k),
                  Result([created[0]] + rest.processed, rest.final, rest.stopped), k)
  {
    hide RunRow, Succeeded;
    assert RanAs(created[1..][k - 1], after, world(turn + 1 + (k - 1)), rest, k - 1);
    assert created[k] == created[1..][k - 1] && created[k] in created[1..];
    assert turn + 1 + (k - 1) == turn + k;
  }

  lemma FirstAndRest(items: seq<Item>, path: string, turns: nat, world: nat -> Outcome, turn: nat)
    requires turns > 0 && Listing(items, path, Created) != [] && Succeeded(world(turn))
    ensures var id := Listing(items, path, Created)[0];
      var rest := Batch(RunItem(items, id, world(turn)), path, turns - 1, world, turn + 1);
      Batch(items, path, turns, world, turn) == Result([id] + rest.processed, rest.final, rest.stopped)
  {
    hide Listing, RunItem, Succeeded;
  }

  lemma ListingHasItems(items: seq<Item>, path: string)
    ensures var created := Listing(items, path, Created);
      Sorted(items, created) && forall i :: 0 <= i < |created| ==> HasItem(items, created[i])
  {
    hide Listing;
  }

  lemma FirstThenRest(created: seq<nat>, items: seq<Item>, turns: nat, after: seq<Item>, rest: Result)
    requires turns > 0 && created != [] && (forall i :: 0 <= i < |created| ==> HasItem(items, created[i]))
    requires created[0] !in created[1..]
    requires HasItem(items, created[0]) && |after| == |items| && after[created[0] - 1].status == Done
    requires forall i :: 0 <= i < |items| && i != created[0] - 1 ==> after[i] == items[i]
    requires RunsPrefixOf(created[1..], after, turns - 1, rest)
    ensures RunsPrefixOf(created, items, turns, Result([created[0]] + rest.processed, rest.final, rest.stopped))
  {
    var id := created[0];
    var r := Result([id] + rest.processed, rest.final, rest.stopped);
    PrefixMembers(rest.processed, created[1..]);
    assert (id - 1) + 1 == id && rest.final[id - 1] == after[id - 1];
    assert created == [id] + created[1..];
    forall k | 0 <= k < |r.processed|
      ensures r.final[created[k] - 1].status == if r.stopped && k == |r.processed| - 1 then Blocked else Done
    {
      assert k > 0 ==> created[k] == created[1..][k - 1];
    }
    forall i | 0 <= i < |items| && i + 1 !in r.processed ensures r.final[i] == items[i] {
      assert i + 1 != r.processed[0];
      assert i + 1 in rest.processed ==> i + 1 in r.processed;
    }
  }

  lemma HeadNotInTail(items: seq<Item>, ids: seq<nat>)
    requires Sorted(items, ids) && ids != []
    ensures ids[0] !in ids[1..]
  {
    assert forall k :: 1 <= k < |ids| ==> Before(items, ids[0], ids[k]);
  }

  lemma PrefixMembers(s: seq<nat>, t: seq<nat>)
    requires s <= t
    ensures forall x :: x in s ==> x in t
  {
    assert forall k :: 0 <= k < |s| ==> s[k] == t[k];
  }

  /** After the turns so far, `items` is where the rest of the whole batch begins. */
  ghost predicate Remaining(
    whole: Result, processed: seq<nat>, items: seq<Item>, path: string, left: nat, world: nat -> Outcome, turn: nat)
  {
    var rest := Batch(items, path, left, world, turn);
    whole.final == rest.final && whole.stopped == rest.stopped && whole.processed == processed + rest.processed
  }

  lemma RemainingStart(items: seq<Item>, path: string, turns: nat, world: nat -> Outcome)
    ensures Remaining(Batch(items, path, turns, world, 0), [], items, path, turns, world, 0)
  {
  }

  lemma RemainingTurn(
    whole: Result, processed: seq<nat>, items: seq<Item>, path: string, left: nat, world: nat -> Outcome, turn: nat)
    requires Remaining(whole, processed, items, path, left, world, turn)
    ensures left == 0 || Listing(items, path, Created) == [] ==>
      whole.final == items && !whole.stopped && whole.processed == processed
    ensures left > 0 && Listing(items, path, Created) != [] ==>
      var id := Listing(items, path, Created)[0];
      var after := RunItem(items, id, world(turn));
      if Succeeded(world(turn)) then Remaining(whole, processed + [id], after, path, left - 1, world, turn + 1)
      else whole.final == after && whole.stopped && whole.processed == processed + [id]
  {
    hide Listing, RunItem;
  }

  lemma WhileSelected(created: seq<nat>, items: seq<Item>, n: nat, world: nat -> Outcome, r: Result)
    requires n <= |created| && |r.processed| <= n && RunsWhile(created, items, n, world, 0, r)
    ensures RunsWhile(created[..n], items, n, world, 0, r)
  {
    hide RanAs;
    assert forall k :: 0 <= k < n ==> created[..n][k] == created[k];
  }

  // ---------------------------------------------------------------------- loop

  datatype DeadLetter = DeadLetter(item: nat, attempts: nat)

  predicate HasLetter(dead: seq<DeadLetter>, id: nat) {
    exists i :: 0 <= i < |dead| && dead[i].item == id
  }

  /** No item has two dead letters. */
  ghost predicate OneLetterEach(dead: seq<DeadLetter>) {
    forall i, j :: 0 <= i < j < |dead| ==> dead[i].item != dead[j].item
  }

  /** The table after the dead-letter pass over the first `k` selected items. */
  function WithLetters(items: seq<Item>, dead: seq<DeadLetter>, selected: seq<nat>, attempts: nat, k: nat):
    seq<DeadLetter>
    requires k <= |selected|
  {
    if k == 0 then dead
    else
      var sofar, id := WithLetters(items, dead, selected, attempts, k - 1), selected[k - 1];
      if HasItem(items, id) && items[id - 1].status == Blocked && !HasLetter(sofar, id)
      then sofar + [DeadLetter(id, attempts)] else sofar
  }

  predicate BlockedAmong(items: seq<Item>, selected: seq<nat>, k: nat, id: nat)
    requires k <= |selected|
  {
    HasItem(items, id) && items[id - 1].status == Blocked && exists i :: 0 <= i < k && selected[i] == id
  }

  /** Exactly the blocked selected items, and those that had one, have a letter; new letters carry the attempts. */
  lemma {:induction false} LettersAre(
    items: seq<Item>, dead: seq<DeadLetter>, selected: seq<nat>, attempts: nat, k: nat)
    requires k <= |selected|
    ensures var after := WithLetters(items, dead, selected, attempts, k);
      && dead <= after
      && (forall id :: HasLetter(after, id) <==> HasLetter(dead, id) || BlockedAmong(items, selected, k, id))
      && (forall i :: |dead| <= i < |after| ==> after[i].attempts == attempts && !HasLetter(dead, after[i].item))
  {
    if k > 0 {
      var sofar, after := WithLetters(items, dead, selected, attempts, k - 1),
                          WithLetters(items, dead, selected, attempts, k);
      var id := selected[k - 1];
      LettersAre(items, dead, selected, attempts, k - 1);
      forall x ensures HasLetter(after, x) <==> HasLetter(sofar, x) || (after != sofar && x == id) {
        if after != sofar && x == id {
          assert after[|after| - 1].item == id;
        }
        if i :| 0 <= i < |sofar| && sofar[i].item == x {
          assert after[i].item == x;
        }
      }
    }
  }

  lemma {:induction false} LettersStayUnique(
    items: seq<Item>, dead: seq<DeadLetter>, selected: seq<nat>, attempts: nat, k: nat)
    requires OneLetterEach(dead) && k <= |selected|
    ensures OneLetterEach(WithLetters(items, dead, selected, attempts, k))
  {
    if k > 0 {
      LettersStayUnique(items, dead, selected, attempts, k - 1);
    }
  }

  /** With at most one blocked item among the selected, the pass adds at most one letter. */
  lemma {:induction false} AtMostOneLetter(
    items: seq<Item>, dead: seq<DeadLetter>, selected: seq<nat>, attempts: nat, k: nat, only: int)
    requires k <= |selected|
    requires forall i ::
      0 <= i < |selected| && HasItem(items, selected[i]) && items[selected[i] - 1].status == Blocked ==>
      i == only
    ensures |WithLetters(items, dead, selected, attempts, k)| <= |dead| + if 0 <= only < k then 1 else 0
    ensures |dead| <= |WithLetters(items, dead, selected, attempts, k)|
  {
    if k > 0 {
      AtMostOneLetter(items, dead, selected, attempts, k - 1, only);
    }
  }

  predicate Finished(item: Item) {
    item.status in {Done, Blocked, Skipped}
  }

  function CountFinished(items: seq<Item>, selected: seq<nat>): nat {
    if selected == [] then 0
    else
      var id := selected[|selected| - 1];
      CountFinished(items, selected[..|selected| - 1]) + if HasItem(items, id) && Finished(items[id - 1]) then 1 else 0
  }

  /** Counted are the selected items that are done, blocked or skipped. */
  lemma {:induction false} CountIs(items: seq<Item>, selected: seq<nat>)
    ensures CountFinished(items, selected) == |FinishedAmong(items, selected)|
  {
    if selected != [] {
      var last := |selected| - 1;
      CountIs(items, selected[..last]);
      FinishedIs(items, selected[last]);
      FinishedMore(items, selected[..last], selected[last]);
      assert selected == selected[..last] + [selected[last]];
      hide FinishedAmong, IsFinished, Finished, HasItem;
    }
  }

  lemma FinishedMore(items: seq<Item>, first: seq<nat>, id: nat)
    ensures |first| !in FinishedAmong(items, first)
    ensures FinishedAmong(items, first + [id]) ==
      FinishedAmong(items, first) + if IsFinished(items, id) then {|first|} else {}
  {
    hide IsFinished;
  }

  function FinishedAmong(items: seq<Item>, selected: seq<nat>): set<int> {
    set i | 0 <= i < |selected| && IsFinished(items, selected[i])
  }

  predicate IsFinished(items: seq<Item>, id: nat) {
    HasItem(items, id) && items[id - 1].status in {ItemStatus.Done, ItemStatus.Blocked, ItemStatus.Skipped}
  }

  lemma FinishedIs(items: seq<Item>, id: nat)
    ensures HasItem(items, id) && Finished(items[id - 1]) <==> IsFinished(items, id)
  {
  }

  /** Items that were created and not run are still created, so the recount is the number of items run. */
  lemma {:induction false} RecountIsRun(items: seq<Item>, selected: seq<nat>, run: nat)
    requires run <= |selected|
    requires forall i :: 0 <= i < |selected| ==>
      HasItem(items, selected[i]) && (Finished(items[selected[i] - 1]) <==> i < run)
    ensures CountFinished(items, selected) == run
  {
    if selected != [] {
      var last := |selected| - 1;
      RecountIsRun(items, selected[..last], if run > last then last else run);
    }
  }

  /** After a batch over a selection: which selected items are finished, and which one is blocked. */
  lemma SelectionAfterBatch(items: seq<Item>, path: string, selected: seq<nat>, r: Result)
    requires selected <= Listing(items, path, Created) && RunsPrefix(items, path, |selected|, r)
    ensures r.processed <= selected
    ensures forall i :: 0 <= i < |selected| ==>
      && HasItem(r.final, selected[i])
      && (Finished(r.final[selected[i] - 1]) <==> i < |r.processed|)
      && (r.final[selected[i] - 1].status == Blocked <==> r.stopped && i == |r.processed| - 1)
  {
    var created := Listing(items, path, Created);
    forall i | 0 <= i < |selected|
      ensures HasItem(r.final, selected[i])
      ensures Finished(r.final[selected[i] - 1]) <==> i < |r.processed|
      ensures r.final[selected[i] - 1].status == Blocked <==> r.stopped && i == |r.processed| - 1
    {
      assert selected[i] == created[i] && created[i] in created;
      if i < |r.processed| {
        assert r.processed[i] == created[i];
      } else {
        forall k | 0 <= k < |r.processed| ensures r.processed[k] != selected[i] {
          assert r.processed[k] == created[k] && Before(items, created[k], created[i]);
        }
        assert (selected[i] - 1) + 1 !in r.processed;
      }
    }
  }

  // --------------------------------------------------------------------- store

  /** The ledger row of a loop. */
  datatype LoopRun = LoopRun(selected: seq<nat>, processed: nat, deadLetters: nat, code: int)

  class Store {
    var items: seq<Item>
    var dead: seq<DeadLetter>

    constructor ()
      ensures items == [] && dead == []
    {
      items, dead := [], [];
    }

    method RecordPlanItem(item: Item) returns (id: nat)
      modifies this`items
      ensures items == old(items) + [item] && id == |items|
    {
      items := items + [item];
      id := |items|;
    }

    /** `sync_plan_items` and `sync_backlog_items`: record the tasks whose line holds something else. */
    method SyncItems(path: string, tasks: seq<PlanTask>) returns (added: seq<nat>)
      modifies this`items
      ensures items == Sync(old(items), path, tasks)
      ensures |added| == |items| - |old(items)|
      ensures old(items) <= items
      ensures forall i :: |old(items)| <= i < |items| ==> IsCreatedFrom(items[i], path, tasks)
    {
      SyncAdds(items, path, tasks, |tasks|);
      added := [];
      var existing := items;
      for k := 0 to |tasks|
        invariant items == existing + SyncNew(existing, path, tasks, k)
        invariant |added| == |items| - |existing|
      {
        var latest := Latest(existing, path, tasks[k].line);
        if latest.Some? && SameTask(latest.value, tasks[k]) {
          continue;
        }
        var id := RecordPlanItem(NewItem(path, tasks[k]));
        added := added + [id];
      }
    }

    /** `update_created_plan_item_source_ref`. */
    method UpdateSourceRef(id: nat, line: nat, section: string) returns (updated: bool)
      modifies this`items
      ensures updated <==> HasItem(old(items), id) && old(items)[id - 1].status == Created
      ensures items == if updated then old(items)[id - 1 := old(items)[id - 1].(line := line, section := section)]
                       else old(items)
    {
      updated := 1 <= id <= |items| && items[id - 1].status == Created;
      if updated {
        items := items[id - 1 := items[id - 1].(line := line, section := section)];
      }
    }

    /** `refresh_created_backlog_item_refs`: the shifted items, updated in place when `apply` is set. */
    method RefreshRefs(path: string, tasks: seq<PlanTask>, apply: bool) returns (shifted: seq<nat>)
      modifies this`items
      ensures items == if apply then Refresh(old(items), path, tasks) else old(items)
      ensures forall id: nat :: id in shifted <==> HasItem(old(items), id) && Shifted(old(items), path, tasks, id)
      ensures |items| == |old(items)| && (!apply ==> items == old(items))
    {
      hide Shifted, RefreshedItem;
      var before := items;
      shifted := [];
      for i := 0 to |before|
        invariant |items| == |before|
        invariant forall k :: 0 <= k < |before| ==>
          items[k] == if apply && k < i then RefreshedItem(before, path, tasks, k + 1) else before[k]
        invariant forall id: nat :: id in shifted <==> 1 <= id <= i && Shifted(before, path, tasks, id)
      {
        RefreshedIs(before, path, tasks, i + 1);
        if Shifted(before, path, tasks, i + 1) {
          shifted := shifted + [i + 1];
          if apply {
            var task := TasksLike(tasks, before[i].section, before[i].text)[0];
            var _ := UpdateSourceRef(i + 1, task.line, task.section);
          }
        }
      }
    }

    method UpdateStatus(id: nat, status: ItemStatus, taskId: Option<string>)
      modifies this`items
      ensures items == SetItem(old(items), id, status, taskId)
    {
      if 1 <= id <= |items| {
        var item := items[id - 1];
        items := items[id - 1 := item.(status := status, taskId := if taskId.Some? then taskId else item.taskId)];
      }
    }

    method RunStoredItem(id: nat, o: Outcome) returns (done: bool)
      modifies this`items
      ensures items == RunItem(old(items), id, o) && (done <==> Succeeded(o))
    {
      match o
      case Refused =>
        UpdateStatus(id, Blocked, None);
        done := false;
      case Ran(succeeded, task) =>
        UpdateStatus(id, InProgress, None);
        UpdateStatus(id, if succeeded then Done else Blocked, Some(task));
        done := succeeded;
    }

    /**
     * `queue run-batch`: select, and without `--execute` stop there; with an item id run that item, else take one
     * turn per selected item, re-querying each time. With rotated worktrees there must be one for each selected item,
     * and the items are fixed at the start.
     */
    method RunBatch(path: string, maxItems: int, itemId: Option<nat>, execute: bool, rotation: Rotation,
                    world: nat -> Outcome)
      returns (processed: seq<nat>, code: int)
      modifies this`items
      ensures var selected := Select(old(items), path, maxItems, itemId);
        if maxItems <= 0 || selected.None? || RotationFails(rotation, |selected.value|) then
          processed == [] && code == 1 && items == old(items)
        else if !execute then processed == [] && code == 0 && items == old(items)
        else if itemId.Some? then
          processed == [itemId.value] && items == RunItem(old(items), itemId.value, world(0)) &&
          code == if Succeeded(world(0)) then 0 else 1
        else
          var r := Batch(old(items), path, |selected.value|, world, 0);
          items == r.final && processed == r.processed && code == if r.stopped then 1 else 0
      ensures code == 1 && processed == [] <==>
        || maxItems <= 0 || rotation.NoBase?
        || (itemId.Some? && itemId.value !in Listing(old(items), path, Created))
        || (rotation.Worktrees? && rotation.available <
              if itemId.Some? then 1 else Min(maxItems, |Listing(old(items), path, Created)|))
      ensures !execute || (code == 1 && processed == []) ==> items == old(items) && processed == []
    {
      if maxItems <= 0 { return [], 1; }
      var selected := Select(items, path, maxItems, itemId);
      if selected.None? { return [], 1; }
      if RotationFails(rotation, |selected.value|) { return [], 1; }
      if !execute { return [], 0; }
      if rotation.Worktrees? {
        processed, code := RunFixedItems(selected.value, world);
        if itemId.None? {
          RotationIsBatch(old(items), path, |selected.value|, world, 0);
        }
        return;
      }
      if itemId.Some? {
        var done := RunStoredItem(itemId.value, world(0));
        return [itemId.value], if done then 0 else 1;
      }
      processed, code := RunTurns(path, |selected.value|, world);
    }

    /** The items selected at the start, each in its own worktree. */
    method RunFixedItems(ids: seq<nat>, world: nat -> Outcome) returns (processed: seq<nat>, code: int)
      modifies this`items
      ensures var r := RunFixed(old(items), ids, world, 0);
        items == r.final && processed == r.processed && code == if r.stopped then 1 else 0
    {
      processed, code := [], 1;
      ghost var whole := RunFixed(items, ids, world, 0);
      assert ids[0..] == ids;
      hide RunItem, RunFixed;
      for turn := 0 to |ids|
        invariant FixedRemaining(whole, processed, items, ids, world, turn)
      {
        FixedTurn(whole, processed, items, ids, world, turn);
        var done := RunStoredItem(ids[turn], world(turn));
        processed := processed + [ids[turn]];
        if !done {
          return;
        }
      }
      NothingFixed(items, ids, world);
      code := 0;
    }

    /** The first created item, asked for again after every one that ran. */
    method RunTurns(path: string, turns: nat, world: nat -> Outcome) returns (processed: seq<nat>, code: int)
      modifies this`items
      ensures var r := Batch(old(items), path, turns, world, 0);
        items == r.final && processed == r.processed && code == if r.stopped then 1 else 0
    {
      processed, code := [], 1;
      hide Listing, RunItem, Batch, Remaining;
      ghost var whole := Batch(items, path, turns, world, 0);
      RemainingStart(items, path, turns, world);
      for turn := 0 to turns
        invariant Remaining(whole, processed, items, path, turns - turn, world, turn)
      {
        RemainingTurn(whole, processed, items, path, turns - turn, world, turn);
        var next := Listing(items, path, Created);
        if next == [] {
          return processed, 0;
        }
        var done := RunStoredItem(next[0], world(turn));
        processed := processed + [next[0]];
        if !done {
          return;
        }
      }
      RemainingTurn(whole, processed, items, path, 0, world, turns);
      code := 0;
    }

    method RecordDeadLetters(selected: seq<nat>, maxAttempts: nat) returns (recorded: nat)
      modifies this`dead
      ensures dead == if maxAttempts > 1 then old(dead)
                      else WithLetters(items, old(dead), selected, maxAttempts, |selected|)
      ensures recorded == |dead| - |old(dead)|
      ensures maxAttempts <= 1 ==> forall id :: HasLetter(dead, id) <==>
        HasLetter(old(dead), id) || BlockedAmong(items, selected, |selected|, id)
    {
      LettersAre(items, dead, selected, maxAttempts, |selected|);
      recorded := 0;
      if maxAttempts > 1 { return; }
      for k := 0 to |selected|
        invariant dead == WithLetters(items, old(dead), selected, maxAttempts, k)
        invariant recorded == |dead| - |old(dead)|
      {
        var id := selected[k];
        if id < 1 || |items| < id || items[id - 1].status != Blocked {
          continue;
        }
        if HasLetter(dead, id) {
          continue;
        }
        dead := dead + [DeadLetter(id, maxAttempts)];
        recorded := recorded + 1;
      }
    }

    method ProcessedCount(selected: seq<nat>) returns (count: nat)
      ensures count == CountFinished(items, selected)
      ensures count == |FinishedAmong(items, selected)|
    {
      CountIs(items, selected);
      count := 0;
      for k := 0 to |selected|
        invariant count == CountFinished(items, selected[..k])
      {
        assert selected[..k + 1][..k] == selected[..k];
        var id := selected[k];
        if 1 <= id <= |items| && items[id - 1].status in {Done, Blocked, Skipped} {
          count := count + 1;
        }
      }
      assert selected[..|selected|] == selected;
    }

    /**
     * `queue loop`: the budgets, the preflight's answer, then select, and with `--execute` run the batch, record dead
     * letters, recount. The ledger agrees with what ran, at most one dead letter is new, and no item ever has two.
     */
    method RunLoop(path: string, maxItems: int, maxAttempts: int, maxActions: int, refused: bool, execute: bool,
                   world: nat -> Outcome)
      returns (ledger: Option<LoopRun>, ghost processed: seq<nat>)
      requires OneLetterEach(dead)
      modifies this
      ensures OneLetterEach(dead)
      ensures ledger.None? <==> maxItems <= 0 || maxAttempts <= 0 || maxActions <= 0
      ensures ledger.None? || refused || !execute ==> items == old(items) && dead == old(dead) && processed == []
      ensures ledger.Some? && refused ==> ledger.value == LoopRun([], 0, 0, 1)
      ensures ledger.Some? && !refused && !execute ==>
        var budget := if maxItems < maxActions then maxItems else maxActions;
        ledger.value == LoopRun(Select(old(items), path, budget, None).value, 0, 0, 0)
      ensures ledger.Some? && !refused && execute ==>
        && ledger.value.selected <= Listing(old(items), path, Created)
        && processed <= ledger.value.selected
        && RunsPrefix(old(items), path, |ledger.value.selected|, Result(processed, items, ledger.value.code == 1))
        && |ledger.value.selected| ==
             Min(Min(maxItems, maxActions), |Listing(old(items), path, Created)|)
        && RunsWhile(ledger.value.selected, old(items), |ledger.value.selected|, world, 0,
                     Result(processed, items, ledger.value.code == 1))
        && ledger.value.code in {0, 1}
        && ledger.value.processed == |processed|
        && ledger.value.deadLetters == |dead| - |old(dead)| <= 1
        && dead == (if maxAttempts > 1 then old(dead) else
             WithLetters(items, old(dead), ledger.value.selected, maxAttempts, |ledger.value.selected|))
    {
      processed := [];
      if maxItems <= 0 || maxAttempts <= 0 || maxActions <= 0 {
        return None, [];
      }
      if refused {
        return Some(LoopRun([], 0, 0, 1)), [];
      }
      var budget := if maxItems < maxActions then maxItems else maxActions;
      var created := Listing(items, path, Created);
      var selected := created[..if budget < |created| then budget else |created|];
      if !execute {
        var _, code := RunBatch(path, budget, None, false, NoRotation, world);
        return Some(LoopRun(selected, 0, 0, code)), [];
      }
      LoopRuns(items, path, |selected|, dead, maxAttempts, world);
      hide Listing, RunsPrefix, RunsWhile, Batch, WithLetters;
      assert Select(items, path, budget, None) == Some(selected);
      var ran, code := RunBatch(path, budget, None, true, NoRotation, world);
      processed := ran;
      var letters := RecordDeadLetters(selected, maxAttempts);
      var count := ProcessedCount(selected);
      ledger := Some(LoopRun(selected, count, letters, code));
    }
  }

  /** What a loop's batch over the first `n` created items comes to: rows, recount and letters. */
  lemma LoopRuns(
    items: seq<Item>, path: string, n: nat, dead: seq<DeadLetter>, maxAttempts: nat, world: nat -> Outcome)
    requires n <= |Listing(items, path, Created)| && OneLetterEach(dead)
    ensures var r, selected := Batch(items, path, n, world, 0), Listing(items, path, Created)[..n];
      var letters := WithLetters(r.final, dead, selected, maxAttempts, n);
      && RunsPrefix(items, path, n, r) && RunsWhile(selected, items, n, world, 0, r)
      && r.processed <= selected && CountFinished(r.final, selected) == |r.processed|
      && OneLetterEach(letters) && |dead| <= |letters| <= |dead| + 1
  {
    var r, created := Batch(items, path, n, world, 0), Listing(items, path, Created);
    var selected := created[..n];
    BatchRunsPrefix(items, path, n, world, 0);
    BatchRunsWhile(items, path, n, world, 0);
    SelectionAfterBatch(items, path, selected, r);
    WhileSelected(created, items, n, world, r);
    LettersStayUnique(r.final, dead, selected, maxAttempts, n);
    AtMostOneLetter(r.final, dead, selected, maxAttempts, n, if r.stopped then |r.processed| - 1 else -1);
    RecountIsRun(r.final, selected, |r.processed|);
  }

  lemma NothingFixed(items: seq<Item>, ids: seq<nat>, world: nat -> Outcome)
    ensures RunFixed(items, ids[|ids|..], world, |ids|) == Result([], items, false)
  {
  }

  lemma RefreshedIs(items: seq<Item>, path: string, tasks: seq<PlanTask>, id: nat)
    requires HasItem(items, id)
    ensures Shifted(items, path, tasks, id) ==>
      && items[id - 1].status == Created
      && |TasksLike(tasks, items[id - 1].section, items[id - 1].text)| == 1
      && RefreshedItem(items, path, tasks, id) ==
         items[id - 1].(line := TasksLike(tasks, items[id - 1].section, items[id - 1].text)[0].line)
    ensures !Shifted(items, path, tasks, id) ==> RefreshedItem(items, path, tasks, id) == items[id - 1]
  {
  }
}
