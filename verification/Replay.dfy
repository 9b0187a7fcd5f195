/** The event replay query, and the paged replay built on it. */
module Replay {
  import opened Basics
  import opened TaskLifecycle
  import opened EventLog

  const MAX_REPLAY_BATCH := 200
  const MAX_SEQUENCE := 0x7fff_ffff_ffff_ffff

  predicate Wanted(e: Event, after: int, target: int) {
    after < e.sequence <= target
  }

  /** The rows a replay query selects: those wanted, in stored order, at most `limit`. */
  function Select(log: Log, after: int, target: int, limit: nat): (r: Log)
    ensures |r| <= limit && forall e :: e in r ==> Wanted(e, after, target)
  {
    if |log| == 0 || limit == 0 then []
    else if Wanted(log[0], after, target) then [log[0]] + Select(log[1..], after, target, limit - 1)
    else Select(log[1..], after, target, limit)
  }

  function Invalid(after: int, target: int, limit: int): bool {
    after < 0 || target < after || limit < 1
  }

  /** The query as the store runs it: a row loop appending to a result. */
  method ReplayTo(log: Log, after: int, target: int, limit: int) returns (r: Result<Log>)
    ensures Invalid(after, target, limit) ==> r == Failure(InvalidArgument)
    ensures !Invalid(after, target, limit) ==>
              r == Success(Select(log, after, target, if limit > MAX_REPLAY_BATCH then MAX_REPLAY_BATCH else limit))
  {
    if after < 0 || target < after || limit < 1 {
      return Failure(InvalidArgument);
    }
    var most := limit;
    if most > MAX_REPLAY_BATCH {
      most := MAX_REPLAY_BATCH;
    }
    var events: Log := [];
    var i := 0;
    while i < |log| && |events| < most
      invariant i <= |log| && |events| <= most
      invariant Select(log, after, target, most) == events + Select(log[i..], after, target, most - |events|)
    {
      assert log[i..][1..] == log[i + 1..] && log[i..][0] == log[i];
      if log[i].sequence > after && log[i].sequence <= target {
        events := events + [log[i]];
      }
      i := i + 1;
    }
    assert Select(log[i..], after, target, most - |events|) == [] && events + [] == events;
    return Success(events);
  }

  function Least(a: int, b: int): int {
    if a < b then a else b
  }

  lemma {:induction false} SelectSkips(log: Log, from: nat, after: nat, target: int, limit: nat)
    requires Gapless(log) && from <= |log| && from <= after
    ensures Select(log[from..], after, target, limit)
            == if after <= |log| then Select(log[after..], after, target, limit) else []
    decreases |log| - from
  {
    if from < |log| && from < after {
      assert log[from..][1..] == log[from + 1..];
      SelectSkips(log, from + 1, after, target, limit);
    }
  }

  lemma {:induction false} SelectTakes(log: Log, from: nat, after: nat, target: int, limit: nat)
    requires Gapless(log) && after <= from <= |log|
    ensures from <= Least(Least(target, |log|), from + limit) ==>
              Select(log[from..], after, target, limit) == log[from..Least(Least(target, |log|), from + limit)]
    ensures target <= from ==> Select(log[from..], after, target, limit) == []
    decreases |log| - from
  {
    if from < |log| && limit > 0 {
      assert log[from..][1..] == log[from + 1..];
      if from < target {
        SelectTakes(log, from + 1, after, target, limit - 1);
      } else {
        SelectTakes(log, from + 1, after, target, limit);
      }
    }
  }

  /** Where a query stops on a gapless log. */
  function End(length: nat, after: nat, target: int, limit: nat): int {
    Least(Least(target, length), after + limit)
  }

  /** On a gapless log the query is a slice. */
  lemma SelectIsSlice(log: Log, after: nat, target: int, limit: nat)
    requires Gapless(log) && after <= target
    ensures Select(log, after, target, limit)
            == if after <= |log| then log[after..End(|log|, after, target, limit)] else []
  {
    assert log[0..] == log;
    SelectSkips(log, 0, after, target, limit);
    if after <= |log| {
      SelectTakes(log, after, after, target, limit);
    }
  }

  // ----------------------------------------------------------------- paged replay

  /** A replay token names its task, the target fixed by the first page, and where it stopped. */
  datatype Token = Token(version: int, resource: string, taskId: Id, target: int, after: int)

  datatype Page = Page(items: Log, target: int, next: Option<Token>)

  const REPLAY_RESOURCE := "task_events_replay"

  const API_MAXIMUM := 200

  /** The size asked for, if the API allows it; 0 marks one it refuses. */
  function PageSize(asked: Option<int>, standard: int, maximum: int): int {
    if asked.None? then standard
    else if asked.value < 1 || asked.value > maximum then 0
    else asked.value
  }

  /** Where a request starts, and, for a token, the target its first page fixed. */
  function ReplayCursor(after: Option<int>, token: Option<Token>, taskId: Id): Result<(int, int)> {
    if token.None? then Success((if after.None? then 0 else after.value, 0))
    else if token.value.version != 1 || token.value.resource != REPLAY_RESOURCE || token.value.taskId != taskId
            || token.value.after < 0 || token.value.target < token.value.after then Failure(InvalidArgument)
    else Success((token.value.after, token.value.target))
  }

  /** What a page of size `size` from `after` to `target` answers. */
  function PageFrom(log: Log, taskId: Id, after: int, target: int, size: nat): Page {
    var items := Select(log, after, target, Least(size, MAX_REPLAY_BATCH));
    var last := if |items| == 0 then after else items[|items| - 1].sequence;
    Page(items, target, if |items| == size && last < target then Some(Token(1, REPLAY_RESOURCE, taskId, target, last)) else None)
  }

  /** The whole answer to a replay request. */
  function Answer(log: Log, taskId: Id, after: Option<int>, token: Option<Token>, asked: Option<int>): Result<Page> {
    if after.Some? && token.Some? then Failure(InvalidArgument) else
    var size := PageSize(asked, API_MAXIMUM, API_MAXIMUM);
    if size == 0 then Failure(InvalidArgument) else
    var cursor :- ReplayCursor(after, token, taskId);
    var target := if token.None? then |log| else cursor.1;
    if Invalid(cursor.0, target, size) then Failure(InvalidArgument) else
    Success(PageFrom(log, taskId, cursor.0, target, size))
  }

  /** Where a request wants its page to start and to which sequence its walk goes. */
  ghost predicate Asks(after: Option<int>, token: Option<Token>, length: nat, from: int, target: int) {
    if token.Some? then from == token.value.after && target == token.value.target
    else target == length && from == if after.Some? then after.value else 0
  }

  /** The token, if there is one, is of another kind or for another task. */
  ghost predicate Foreign(token: Option<Token>, taskId: Id) {
    token.Some?
    && (token.value.version != 1 || token.value.resource != "task_events_replay" || token.value.taskId != taskId)
  }

  /** The events after `from` up to the target, as many as asked for, with a token exactly if the page is
      full and the target lies beyond it. */
  ghost predicate IsPage(p: Page, log: Log, taskId: Id, from: nat, target: int, size: nat)
    requires from <= target
  {
    && p.target == target
    && p.items == (if from > |log| then [] else log[from..End(|log|, from, target, size)])
    && p.next == if |p.items| == size && from + size < target
                 then Some(Token(1, "task_events_replay", taskId, target, from + size)) else None
  }

  lemma PageIsIt(log: Log, taskId: Id, from: nat, target: int, size: nat)
    requires Gapless(log) && from <= target && 1 <= size <= MAX_REPLAY_BATCH
    ensures IsPage(PageFrom(log, taskId, from, target, size), log, taskId, from, target, size)
  {
    SelectIsSlice(log, from, target, size);
  }

  /** The answer to a request, whatever is asked: refused if it names both a sequence and a token, a
      page size outside 1 to 200, a sequence that is negative or beyond the target, or a foreign token;
      else a page of the size asked for, 200 if unsaid. */
  lemma AnswerIsThePage(log: Log, taskId: Id, after: Option<int>, token: Option<Token>, asked: Option<int>, from: int, target: int)
    requires Gapless(log) && Asks(after, token, |log|, from, target)
    ensures var r, size := Answer(log, taskId, after, token, asked), if asked.Some? then asked.value else 200;
            if (after.Some? && token.Some?) || size < 1 || size > 200 || from < 0 || from > target || Foreign(token, taskId)
            then r == Failure(InvalidArgument)
            else r.Success? && IsPage(r.value, log, taskId, from, target, size)
  {
    var size := PageSize(asked, API_MAXIMUM, API_MAXIMUM);
    if 0 <= from <= target && size > 0 {
      PageIsIt(log, taskId, from, target, size);
    }
  }

  lemma PageIsSlice(log: Log, taskId: Id, after: nat, target: int, size: nat)
    requires Gapless(log) && after <= target <= |log| && size >= 1
    ensures var p := PageFrom(log, taskId, after, target, size);
            var end := Least(target, after + Least(size, MAX_REPLAY_BATCH));
            && p.items == log[after..end]
            && (p.next.Some? ==> p.next == Some(Token(1, REPLAY_RESOURCE, taskId, target, end)) && after < end < target)
            && (p.next.None? <==> |p.items| < size || end == target)
  {
    SelectIsSlice(log, after, target, Least(size, MAX_REPLAY_BATCH));
  }

  /** A page without a token has reached the target exactly when the size asked for is within what
      the store will return at once, or so is what was left: the API's limit of 200 is the store's,
      and a greater one would end walks early. */
  lemma LastPageTest(log: Log, taskId: Id, after: nat, target: int, size: nat)
    requires Gapless(log) && after <= target <= |log| && size >= 1
    ensures var p := PageFrom(log, taskId, after, target, size);
            (p.next.None? ==> after + |p.items| == target) <==> size <= MAX_REPLAY_BATCH || target - after <= MAX_REPLAY_BATCH
  {
    PageIsSlice(log, taskId, after, target, size);
  }

  /** A page in full: the slice it holds and where its token, if any, takes up. */
  ghost predicate Covers(p: Page, log: Log, taskId: Id, at: nat, target: int)
    requires at <= target <= |log|
  {
    && at + |p.items| <= target && p.items == log[at..at + |p.items|]
    && p.next == (if at + |p.items| < target then Some(Token(1, REPLAY_RESOURCE, taskId, target, at + |p.items|)) else None)
    && (at < target ==> |p.items| > 0)
  }

  lemma FirstAnswer(log: Log, taskId: Id, after: Option<int>, asked: Option<int>)
    requires Gapless(log)
    ensures var start := if after.None? then 0 else after.value;
            if PageSize(asked, API_MAXIMUM, API_MAXIMUM) == 0 || start < 0 || start > |log| then
              Answer(log, taskId, after, None, asked) == Failure(InvalidArgument)
            else
              Answer(log, taskId, after, None, asked).Success?
              && Covers(Answer(log, taskId, after, None, asked).value, log, taskId, start, |log|)
  {
    var start := if after.None? then 0 else after.value;
    if PageSize(asked, API_MAXIMUM, API_MAXIMUM) != 0 && 0 <= start <= |log| {
      PageIsSlice(log, taskId, start, |log|, PageSize(asked, API_MAXIMUM, API_MAXIMUM));
    }
  }

  lemma NextAnswer(log: Log, taskId: Id, target: int, at: nat, asked: Option<int>)
    requires Gapless(log) && at <= target <= |log| && PageSize(asked, API_MAXIMUM, API_MAXIMUM) != 0
    ensures var r := Answer(log, taskId, None, Some(Token(1, REPLAY_RESOURCE, taskId, target, at)), asked);
            r.Success? && Covers(r.value, log, taskId, at, target)
  {
    PageIsSlice(log, taskId, at, target, PageSize(asked, API_MAXIMUM, API_MAXIMUM));
  }

  /** A walk from `start` so far: what it has collected, and the token that continues it. */
  ghost predicate Walked(log: Log, taskId: Id, start: nat, items: Log, token: Option<Token>) {
    && start + |items| <= |log| && items == log[start..start + |items|]
    && token == if start + |items| < |log| then Some(Token(1, REPLAY_RESOURCE, taskId, |log|, start + |items|)) else None
  }

  lemma WalkOn(log: Log, later: Log, taskId: Id, start: nat, items: Log, token: Option<Token>, p: Page)
    requires log <= later && Walked(log, taskId, start, items, token) && token.Some?
    requires Covers(p, later, taskId, start + |items|, |log|)
    ensures Walked(log, taskId, start, items + p.items, p.next) && |p.items| > 0
    ensures start + |items| + |p.items| <= |log| && p.items == log[start + |items|..start + |items| + |p.items|]
  {
  }

  /** A task's events as the service holds them, while others append. */
  class Server {
    var log: Log

    constructor ()
      ensures log == []
    {
      log := [];
    }

    /** Anyone may append meanwhile. */
    method Meanwhile()
      requires Gapless(log)
      modifies this
      ensures Gapless(log) && old(log) <= log
    {
      var bodies: seq<Payload> := *;
      var i := 0;
      while i < |bodies|
        invariant Gapless(log) && old(log) <= log
      {
        log := log + [Event(|log| + 1, bodies[i])];
        i := i + 1;
      }
    }

    /** The handler of a replay request. */
    method ReplayTaskEvents(taskId: Id, after: Option<int>, token: Option<Token>, asked: Option<int>) returns (r: Result<Page>)
      ensures r == Answer(log, taskId, after, token, asked)
    {
      if after.Some? && token.Some? {
        return Failure(InvalidArgument);
      }
      var size := PageSize(asked, API_MAXIMUM, API_MAXIMUM);
      if size == 0 {
        return Failure(InvalidArgument);
      }
      var cursor := ReplayCursor(after, token, taskId);
      if cursor.Failure? {
        return Failure(cursor.error);
      }
      var (from, target) := cursor.value;
      if token.None? {
        target := |log|;
      }
      var items := ReplayTo(log, from, target, size);
      if items.Failure? {
        return Failure(items.error);
      }
      var next: Option<Token> := None;
      if |items.value| == size && items.value[|items.value| - 1].sequence < target {
        next := Some(Token(1, REPLAY_RESOURCE, taskId, target, items.value[|items.value| - 1].sequence));
      }
      return Success(Page(items.value, target, next));
    }
  }

  /** One more page of a walk, after whatever others have appended. */
  method NextPage(server: Server, taskId: Id, items: Log, token: Option<Token>, asked: Option<int>, ghost log0: Log, ghost start: nat)
    returns (more: Log, next: Option<Token>)
    requires Gapless(server.log) && log0 <= server.log && PageSize(asked, API_MAXIMUM, API_MAXIMUM) != 0
    requires Walked(log0, taskId, start, items, token) && token.Some?
    modifies server
    ensures Gapless(server.log) && old(server.log) <= server.log
    ensures Walked(log0, taskId, start, items + more, next) && |more| > 0
    ensures start + |items| + |more| <= |log0| && more == log0[start + |items|..start + |items| + |more|]
  {
    server.Meanwhile();
    NextAnswer(server.log, taskId, |log0|, start + |items|, asked);
    var page := server.ReplayTaskEvents(taskId, None, token, asked);
    WalkOn(log0, server.log, taskId, start, items, token, page.value);
    return page.value.items, page.value.next;
  }

  /** Following tokens to the end, whatever is appended between pages, yields exactly the log from
      the start to the target fixed by the first page. */
  method Walk(server: Server, taskId: Id, after: Option<int>, asked: Option<int>) returns (r: Result<Log>, target: int)
    requires Gapless(server.log)
    modifies server
    ensures Gapless(server.log) && old(server.log) <= server.log && target == |old(server.log)|
    ensures var start := if after.None? then 0 else after.value;
            if PageSize(asked, API_MAXIMUM, API_MAXIMUM) == 0 || start < 0 || start > target then r == Failure(InvalidArgument)
            else r == Success(old(server.log)[start..target])
  {
    target := |server.log|;
    ghost var log0 := server.log;
    ghost var start := if after.None? then 0 else after.value;
    FirstAnswer(log0, taskId, after, asked);
    var page := server.ReplayTaskEvents(taskId, after, None, asked);
    if page.Failure? {
      return page.PropagateFailure(), target;
    }
    var items, token := page.value.items, page.value.next;
    while token.Some?
      invariant Gapless(server.log) && log0 <= server.log
      invariant Walked(log0, taskId, start, items, token)
      decreases target - |items|
    {
      var more;
      more, token := NextPage(server, taskId, items, token, asked, log0, start);
      items := items + more;
    }
    return Success(items), target;
  }
}
