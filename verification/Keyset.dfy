/** Keyset pages over rows that others insert and touch between the pages. */
module Keyset {
  import opened Basics
  import opened Ordering

  /** The keys of a table's rows: messages and tasks by creation, sessions by last activity. */
  function KeysOf(times: map<Id, int>): set<Key> {
    set id | id in times :: Key(times[id], id)
  }

  predicate Below(k: Key, before: Option<Key>) {
    before.None? || Before(k, before.value)
  }

  function KeysBelow(times: map<Id, int>, before: Option<Key>): set<Key> {
    set id | id in times && Below(Key(times[id], id), before) :: Key(times[id], id)
  }

  function First(s: seq<Key>, n: nat): seq<Key> {
    if |s| <= n then s else s[..n]
  }

  datatype Page = Page(items: seq<Key>, next: Option<Key>)

  /** All rows below the cursor, newest first; there is one such list. */
  ghost predicate IsListing(matching: seq<Key>, times: map<Id, int>, before: Option<Key>) {
    Descending(matching) && forall k :: k in matching <==> k in KeysBelow(times, before)
  }

  /** A page of the rows that match, newest first: the first `limit`, with a cursor if more match. */
  ghost predicate IsPage(p: Page, matching: seq<Key>, limit: nat)
    requires limit > 0
  {
    && p.items == First(matching, limit)
    && p.next == if |matching| > limit then Some(matching[limit - 1]) else None
  }

  /** A table whose keys are fixed at insertion (messages, tasks) or may rise (sessions). */
  class Table {
    const fixed: bool
    var times: map<Id, int>

    constructor (fixed: bool)
      ensures this.fixed == fixed && times == map[]
    {
      this.fixed, times := fixed, map[];
    }

    /** Inserts a row or, where keys may rise, touches one: activity time cannot move backwards. */
    method Write(id: Id, time: int) returns (ok: bool)
      modifies this
      ensures ok == (id != "" && (id in old(times) ==> !fixed && old(times)[id] <= time))
      ensures times == if ok then old(times)[id := time] else old(times)
    {
      if id == "" || (id in times && (fixed || time < times[id])) {
        return false;
      }
      times := times[id := time];
      return true;
    }

    /** Whatever others write; `touched` collects the rows written. */
    method Meanwhile(ghost before: set<Id>) returns (ghost touched: set<Id>)
      requires "" !in times
      modifies this
      ensures "" !in times && before <= touched && OnlyRises(old(times), times, touched)
      ensures fixed ==> forall id :: id in old(times) ==> times[id] == old(times)[id]
      ensures fixed ==> forall id :: id in touched && id in old(times) ==> id in before
    {
      var writes: seq<(Id, int)> := *;
      touched := before;
      var i := 0;
      while i < |writes|
        invariant "" !in times && before <= touched && OnlyRises(old(times), times, touched)
        invariant fixed ==> forall id :: id in old(times) ==> times[id] == old(times)[id]
        invariant fixed ==> forall id :: id in touched && id in old(times) ==> id in before
      {
        var ok := Write(writes[i].0, writes[i].1);
        if ok {
          touched := touched + {writes[i].0};
        }
        i := i + 1;
      }
    }

    /** The query asks for one row more than the page holds, to see whether there are more. */
    method ListPage(before: Option<Key>, limit: int, maximum: int) returns (r: Result<Page>, ghost matching: seq<Key>)
      ensures limit < 1 || limit > maximum || (before.Some? && before.value.id == "") ==> r == Failure(InvalidArgument)
      ensures !(limit < 1 || limit > maximum || (before.Some? && before.value.id == "")) ==>
                IsListing(matching, times, before) && r.Success? && IsPage(r.value, matching, limit)
    {
      if limit < 1 || limit > maximum || (before.Some? && before.value.id == "") {
        return Failure(InvalidArgument), [];
      }
      var items;
      items, matching := Query(before, limit + 1);
      if |items| <= limit {
        return Success(Page(items, None)), matching;
      }
      items := items[..limit];
      return Success(Page(items, Some(items[|items| - 1]))), matching;
    }

    /** Matching rows in descending order, at most `most`, collected row by row. */
    method Query(before: Option<Key>, most: nat) returns (items: seq<Key>, ghost matching: seq<Key>)
      ensures IsListing(matching, times, before) && items == First(matching, most)
    {
      var rows := OrderDown(KeysBelow(times, before));
      items := [];
      while |items| < |rows| && |items| < most
        invariant |items| <= |rows| && |items| <= most && items == rows[..|items|]
      {
        items := items + [rows[|items|]];
      }
      matching := rows;
    }
  }

  /** Rows outside `touched` are as they were; touched ones have only moved up. */
  ghost predicate OnlyRises(was: map<Id, int>, times: map<Id, int>, touched: set<Id>) {
    && (forall id :: id in was ==> id in times && was[id] <= times[id])
    && (forall id :: id in was && id !in touched ==> times[id] == was[id])
    && (forall id :: id in times && id !in was ==> id in touched)
  }

  // ------------------------------------------------------------------------ walks

  /** What a walk has listed so far, down to `at`. */
  ghost predicate Listed(all: seq<Key>, times: map<Id, int>, start: Option<Key>) {
    && Descending(all)
    && (forall k :: k in all ==> Below(k, start) && k.id in times && k.time <= times[k.id])
    && (forall i, j :: 0 <= i < j < |all| ==> all[i].id != all[j].id)
  }

  function Cursor(all: seq<Key>, start: Option<Key>): Option<Key> {
    if |all| == 0 then start else Some(all[|all| - 1])
  }

  lemma ListedStays(all: seq<Key>, was: map<Id, int>, times: map<Id, int>, touched: set<Id>, start: Option<Key>)
    requires Listed(all, was, start) && OnlyRises(was, times, touched)
    ensures Listed(all, times, start)
  {
  }

  /** A key at or above the cursor is not below it. */
  lemma NotBelowLast(all: seq<Key>, k: Key)
    requires Descending(all) && k in all
    ensures !Before(k, all[|all| - 1])
  {
    BeforeTotal(k, all[|all| - 1]);
  }

  /** A row already listed, wherever it has moved since, is not found below the cursor again. */
  lemma ListedNotBelow(all: seq<Key>, times: map<Id, int>, start: Option<Key>, id: Id)
    requires Listed(all, times, start) && id in times && Below(Key(times[id], id), Cursor(all, start))
    ensures forall k :: k in all ==> k.id != id
  {
    forall k | k in all ensures k.id != id {
      if k.id == id {
        var now := Key(times[id], id);
        var last := all[|all| - 1];
        NotBelowLast(all, k);
        BeforeTotal(k, last);
        if k.time < now.time && k != last { BeforeTransitive(last, k, now); }
        BeforeTotal(now, last);
      }
    }
  }

  ghost predicate AsStored(all: seq<Key>, times: map<Id, int>) {
    forall k :: k in all ==> k.id in times && k.time == times[k.id]
  }

  lemma AsStoredJoins(all: seq<Key>, items: seq<Key>, times: map<Id, int>)
    requires AsStored(all, times) && AsStored(items, times)
    ensures AsStored(all + items, times)
  {
  }

  lemma AsStoredStays(all: seq<Key>, was: map<Id, int>, times: map<Id, int>)
    requires AsStored(all, was) && forall id :: id in was ==> id in times && times[id] == was[id]
    ensures AsStored(all, times)
  {
  }

  /** The next page continues the list. */
  lemma PageExtends(all: seq<Key>, times: map<Id, int>, start: Option<Key>, p: Page, matching: seq<Key>, limit: nat)
    requires limit > 0 && Listed(all, times, start)
    requires IsListing(matching, times, Cursor(all, start)) && IsPage(p, matching, limit)
    ensures Listed(all + p.items, times, start) && AsStored(p.items, times)
    ensures p.next.Some? ==> |p.items| > 0 && p.next == Some(p.items[|p.items| - 1])
    ensures forall k :: k in KeysBelow(times, Cursor(all, start)) ==> k in p.items || (p.next.Some? && Before(k, p.next.value))
  {
    forall k | k in KeysBelow(times, Cursor(all, start)) && k !in p.items ensures p.next.Some? && Before(k, p.next.value) {
      assert k in matching;
    }
    forall k | k in p.items ensures k in KeysBelow(times, Cursor(all, start)) {
      assert k in matching;
    }
    NewBelowOld(all, times, start, p.items);
  }

  lemma NewBelowOld(all: seq<Key>, times: map<Id, int>, start: Option<Key>, items: seq<Key>)
    requires Listed(all, times, start) && Descending(items)
    requires forall k :: k in items ==> k in KeysBelow(times, Cursor(all, start))
    ensures Listed(all + items, times, start)
  {
    forall k | k in items ensures Below(k, start) && k.id in times && k.time == times[k.id] && forall o :: o in all ==> Before(k, o) && o.id != k.id {
      ListedNotBelow(all, times, start, k.id);
      forall o | o in all ensures Before(k, o) {
        var last := all[|all| - 1];
        NotBelowLast(all, o);
        BeforeTotal(o, last);
        if o != last { BeforeTransitive(k, last, o); }
      }
      if |all| > 0 && start.Some? {
        assert all[|all| - 1] in all;
        BeforeTransitive(k, all[|all| - 1], start.value);
      }
    }
    forall i, j | 0 <= i < j < |items| ensures items[i].id != items[j].id {
      assert items[i] in items && items[j] in items;
      BeforeTotal(items[i], items[i]);
    }
  }

  /** Rows of the table at the start that nobody has written since are listed or still to come. */
  ghost predicate NothingMissed(all: seq<Key>, was: map<Id, int>, touched: set<Id>, start: Option<Key>, rest: Option<Key>, more: bool) {
    forall id {:trigger Key(was[id], id)} :: id in was && id !in touched && Below(Key(was[id], id), start) ==>
      Key(was[id], id) in all || (more && Below(Key(was[id], id), rest))
  }

  lemma PageMissesNothing(all: seq<Key>, was: map<Id, int>, times: map<Id, int>, touched: set<Id>, start: Option<Key>, items: seq<Key>, next: Option<Key>)
    requires NothingMissed(all, was, touched, start, Cursor(all, start), true) && OnlyRises(was, times, touched)
    requires forall k :: k in KeysBelow(times, Cursor(all, start)) ==> k in items || (next.Some? && Before(k, next.value))
    ensures NothingMissed(all + items, was, touched, start, next, next.Some?)
  {
    forall id | id in was && id !in touched && Below(Key(was[id], id), start)
      ensures Key(was[id], id) in all + items || (next.Some? && Below(Key(was[id], id), next))
    {
      if Key(was[id], id) !in all {
        assert Key(times[id], id) in KeysBelow(times, Cursor(all, start));
      }
    }
  }

  lemma Passes(all: seq<Key>, first: map<Id, int>, was: map<Id, int>, before: set<Id>, times: map<Id, int>, touched: set<Id>,
               start: Option<Key>, cursor: Option<Key>)
    requires Listed(all, was, start) && OnlyRises(first, was, before) && OnlyRises(was, times, touched) && before <= touched
    requires NothingMissed(all, first, before, start, cursor, true)
    ensures Listed(all, times, start) && OnlyRises(first, times, touched)
    ensures NothingMissed(all, first, touched, start, cursor, true)
  {
  }

  /** Where a walk stands: what it has listed, and that nothing unwritten is lost. */
  ghost predicate Walking(all: seq<Key>, first: map<Id, int>, times: map<Id, int>, touched: set<Id>, start: Option<Key>,
                          rest: Option<Key>, more: bool, fixed: bool) {
    && "" !in times
    && Listed(all, times, start) && OnlyRises(first, times, touched)
    && NothingMissed(all, first, touched, start, rest, more)
    && (|all| > 0 ==> all[0].id in first)
    && (fixed ==> AsStored(all, times) && forall id :: id in touched ==> id !in first)
  }

  /** One page more. */
  method NextPage(table: Table, all: seq<Key>, cursor: Option<Key>, limit: int, maximum: int,
                  ghost first: map<Id, int>, ghost touched: set<Id>, ghost start: Option<Key>) returns (page: Page)
    requires 1 <= limit <= maximum && (cursor.Some? ==> cursor.value.id != "") && cursor == Cursor(all, start)
    requires Walking(all, first, table.times, touched, start, cursor, true, table.fixed)
    requires |all| == 0 ==> table.times == first
    ensures Walking(all + page.items, first, table.times, touched, start, page.next, page.next.Some?, table.fixed)
    ensures page.next.Some? ==> |page.items| > 0 && page.next == Cursor(all + page.items, start) && page.next.value.id != ""
  {
    var r;
    ghost var matching;
    r, matching := table.ListPage(cursor, limit, maximum);
    page := r.value;
    PageExtends(all, table.times, start, page, matching, limit);
    PageMissesNothing(all, first, table.times, touched, start, page.items, page.next);
    if table.fixed {
      AsStoredJoins(all, page.items, table.times);
    }
    if |page.items| > 0 {
      assert page.items[0] in page.items && page.items[|page.items| - 1] in page.items;
    }
  }

  lemma StillWalking(all: seq<Key>, first: map<Id, int>, was: map<Id, int>, before: set<Id>, times: map<Id, int>, touched: set<Id>,
                     start: Option<Key>, cursor: Option<Key>, fixed: bool)
    requires Walking(all, first, was, before, start, cursor, true, fixed)
    requires "" !in times && OnlyRises(was, times, touched) && before <= touched
    requires fixed ==> forall id :: id in was ==> times[id] == was[id]
    requires fixed ==> forall id :: id in touched && id in was ==> id in before
    ensures Walking(all, first, times, touched, start, cursor, true, fixed)
  {
    Passes(all, first, was, before, times, touched, start, cursor);
    if fixed {
      AsStoredStays(all, was, times);
    }
  }

  /** Follows page cursors for at most `turns` pages while others write. No row is listed twice even if
      it moves between pages, keys descend strictly, and a walk that reaches the end has listed every
      row that was below the start and that nobody wrote meanwhile. */
  method Walk(table: Table, start: Option<Key>, limit: int, maximum: int, turns: nat)
    returns (all: seq<Key>, done: bool, ghost touched: set<Id>)
    requires 1 <= limit <= maximum && (start.Some? ==> start.value.id != "") && "" !in table.times
    modifies table
    ensures Walking(all, old(table.times), table.times, touched, start, Cursor(all, start), !done, table.fixed)
    ensures !done ==> |all| >= turns
  {
    all, touched, done := [], {}, false;
    var cursor := start;
    var page := 0;
    while page < turns
      invariant page <= turns && page <= |all| && cursor == Cursor(all, start)
      invariant cursor.Some? ==> cursor.value.id != ""
      invariant Walking(all, old(table.times), table.times, touched, start, cursor, true, table.fixed)
      invariant |all| == 0 ==> table.times == old(table.times)
    {
      var next := NextPage(table, all, cursor, limit, maximum, old(table.times), touched, start);
      all := all + next.items;
      if next.next.None? {
        return all, true, touched;
      }
      cursor := next.next;
      ghost var was, before := table.times, touched;
      touched := table.Meanwhile(touched);
      StillWalking(all, old(table.times), was, before, table.times, touched, start, cursor, table.fixed);
      page := page + 1;
    }
  }

  /** Rows inserted since the start are not below what was listed first. */
  ghost predicate OnlyNewer(all: seq<Key>, was: map<Id, int>, times: map<Id, int>) {
    forall id :: id in times && id !in was && |all| > 0 ==> !Before(Key(times[id], id), all[0])
  }

  lemma {:induction false} DistinctWithin(ids: seq<Id>, within: set<Id>)
    requires forall i, j :: 0 <= i < j < |ids| ==> ids[i] != ids[j]
    requires forall i :: 0 <= i < |ids| ==> ids[i] in within
    ensures |ids| <= |within|
  {
    if |ids| > 0 {
      DistinctWithin(ids[1..], within - {ids[0]});
    }
  }

  /** What a walk over fixed keys lists are rows there were at the start, each once; so it lists no more than those. */
  lemma ListedWereThere(all: seq<Key>, was: map<Id, int>, times: map<Id, int>, touched: set<Id>, start: Option<Key>, more: bool)
    requires Walking(all, was, times, touched, start, Cursor(all, start), more, true) && OnlyNewer(all, was, times)
    ensures forall k :: k in all ==> k in KeysBelow(was, start)
    ensures |all| <= |was|
  {
    forall i | 0 <= i < |all| ensures all[i] in KeysBelow(was, start) {
      assert all[i] in all;
      BeforeTotal(all[i], all[0]);
    }
    DistinctWithin(seq(|all|, i requires 0 <= i < |all| => all[i].id), was.Keys);
  }

  /** Over messages and tasks, whose keys never change, while only newer rows are inserted: a walk of
      more turns than there were rows has ended, and is exactly the descending listing of the rows
      there were, each once. */
  lemma CreationWalkIsListing(all: seq<Key>, done: bool, turns: nat, was: map<Id, int>, times: map<Id, int>, touched: set<Id>, start: Option<Key>)
    requires Walking(all, was, times, touched, start, Cursor(all, start), !done, true) && OnlyNewer(all, was, times)
    requires turns > |was| && (!done ==> |all| >= turns)
    ensures done && IsListing(all, was, start)
  {
    ListedWereThere(all, was, times, touched, start, !done);
    forall k | k in KeysBelow(was, start) ensures k in all {
      assert Key(was[k.id], k.id) == k;
    }
  }
}
