/** The bounded windows of past messages: what the runtime is told of the conversation, and what the
    planner is told of earlier plans. */
module History {
  import opened Basics

  const BUDGET := 12000
  const CONVERSATION_LIMIT := 12
  const PLANNING_LIMIT := 6

  datatype Role = User | Assistant | Other

  datatype Message = Message(id: Id, taskId: Id, role: Role, content: string)

  // ---------------------------------------------------------------------- windows

  /** A message as the scan weighs it: its length, and whether it is taken or only passed. */
  datatype Entry = Entry(size: nat, taken: bool)

  function Size(s: seq<Entry>): nat {
    if |s| == 0 then 0 else (if s[0].taken then s[0].size else 0) + Size(s[1..])
  }

  function Number(s: seq<Entry>): nat {
    if |s| == 0 then 0 else (if s[0].taken then 1 else 0) + Number(s[1..])
  }

  /** Scanned from the end, every message is met with room left: fewer than `limit` taken after it,
      and its length, taken or not, still within the budget. */
  predicate Fits(s: seq<Entry>, limit: nat) {
    |s| == 0 || (Fits(s[1..], limit) && s[0].size + Size(s[1..]) <= BUDGET && Number(s[1..]) < limit)
  }

  /** The last `n` entries fit and no longer suffix does. */
  ghost predicate IsLongest(n: nat, s: seq<Entry>, limit: nat) {
    && n <= |s| && Fits(s[|s| - n..], limit)
    && (n < |s| ==> !Fits(s[|s| - n - 1..], limit))
  }

  lemma {:induction false} SuffixFits(s: seq<Entry>, limit: nat, k: nat)
    requires Fits(s, limit) && k <= |s|
    ensures Fits(s[k..], limit)
  {
    if k > 0 {
      SuffixFits(s[1..], limit, k - 1);
      assert s[1..][k - 1..] == s[k..];
    }
  }

  /** So there is one longest window, and every shorter suffix fits while every longer one does not. */
  lemma LongestIsThreshold(n: nat, s: seq<Entry>, limit: nat, m: nat)
    requires IsLongest(n, s, limit) && m <= |s|
    ensures Fits(s[|s| - m..], limit) <==> m <= n
  {
    if m <= n {
      SuffixFits(s[|s| - n..], limit, n - m);
      assert s[|s| - n..][n - m..] == s[|s| - m..];
    } else {
      assert s[|s| - m..][m - n - 1..] == s[|s| - n - 1..];
      if Fits(s[|s| - m..], limit) {
        SuffixFits(s[|s| - m..], limit, m - n - 1);
      }
    }
  }

  lemma LongestIsUnique(m: nat, n: nat, s: seq<Entry>, limit: nat)
    requires IsLongest(m, s, limit) && IsLongest(n, s, limit)
    ensures m == n
  {
    LongestIsThreshold(m, s, limit, n);
    LongestIsThreshold(n, s, limit, m);
  }

  /** Where every message is taken, fitting is being within the count and the budget in total. */
  lemma {:induction false} FitsInTotal(s: seq<Entry>, limit: nat)
    requires forall e :: e in s ==> e.taken
    ensures Number(s) == |s|
    ensures Fits(s, limit) <==> |s| <= limit && Size(s) <= BUDGET
  {
    if |s| > 0 {
      FitsInTotal(s[1..], limit);
    }
  }

  /** The window grows by the entry before it while there is room, and is the longest when there is none. */
  lemma Widen(s: seq<Entry>, limit: nat, n: nat)
    requires n < |s| && Fits(s[|s| - n..], limit)
    ensures var e, w := s[|s| - n - 1], s[|s| - n..];
            var room := e.size + Size(w) <= BUDGET && Number(w) < limit;
            && (room ==> Fits(s[|s| - n - 1..], limit))
            && (!room ==> IsLongest(n, s, limit))
            && Size(s[|s| - n - 1..]) == Size(w) + (if e.taken then e.size else 0)
            && Number(s[|s| - n - 1..]) == Number(w) + (if e.taken then 1 else 0)
  {
    assert s[|s| - n - 1..][1..] == s[|s| - n..];
  }

  // ------------------------------------------------------------ in-place reversal

  function Backwards<T>(s: seq<T>): seq<T> {
    seq(|s|, i requires 0 <= i < |s| => s[|s| - 1 - i])
  }

  method ReverseInPlace<T>(a: array<T>, n: nat)
    requires n <= a.Length
    modifies a
    ensures a[..n] == Backwards(old(a[..n]))
  {
    var left, right := 0, n - 1;
    while left < right
      invariant 0 <= left && right == n - 1 - left
      invariant left <= n
      invariant forall k :: 0 <= k < n ==>
                  a[k] == if k < left || right < k then old(a[n - 1 - k]) else old(a[k])
      decreases right - left
    {
      a[left], a[right] := a[right], a[left];
      left, right := left + 1, right - 1;
    }
  }

  // ------------------------------------------------------------------ conversation

  predicate Spoken(m: Message) {
    m.role == User || m.role == Assistant
  }

  function Eligible(messages: seq<Message>): seq<Message> {
    if |messages| == 0 then []
    else Eligible(messages[..|messages| - 1]) + if Spoken(messages[|messages| - 1]) then [messages[|messages| - 1]] else []
  }

  function Weighed(messages: seq<Message>): seq<Entry> {
    seq(|messages|, i requires 0 <= i < |messages| => Entry(|messages[i].content|, true))
  }

  const UNKNOWN_REQUEST := "analysis request"

  predicate IsCurrent(messages: seq<Message>, id: Id, current: nat) {
    current < |messages| && messages[current].id == id && forall i :: 0 <= i < current ==> messages[i].id != id
  }

  /** The history is the longest window, in order, of what was said before the current message. */
  ghost predicate IsConversation(history: seq<Message>, before: seq<Message>) {
    && IsLongest(|history|, Weighed(Eligible(before)), CONVERSATION_LIMIT)
    && history == Eligible(before)[|Eligible(before)| - |history|..]
  }

  lemma BackwardsAdds<T>(s: seq<T>, x: T)
    ensures Backwards([x] + s) == Backwards(s) + [x]
    ensures Backwards(Backwards(s)) == s
  {
  }

  lemma EligibleLast(messages: seq<Message>, i: nat)
    requires i < |messages|
    ensures Eligible(messages[..i + 1]) == Eligible(messages[..i]) + if Spoken(messages[i]) then [messages[i]] else []
  {
    assert messages[..i + 1][..i] == messages[..i];
  }

  /** The state of the backward scan: `window` is taken, `rest` is still to be met. */
  ghost predicate Scanned(all: seq<Message>, rest: seq<Message>, window: seq<Message>, characters: nat) {
    && all == rest + window
    && Fits(Weighed(all)[|rest|..], CONVERSATION_LIMIT)
    && Size(Weighed(all)[|rest|..]) == characters && Number(Weighed(all)[|rest|..]) == |window|
  }

  lemma ScanTakes(all: seq<Message>, rest: seq<Message>, window: seq<Message>, characters: nat)
    requires Scanned(all, rest, window, characters) && |rest| > 0
    ensures var m := rest[|rest| - 1];
            var fits := characters + |m.content| <= BUDGET && |window| < CONVERSATION_LIMIT;
            && (fits ==> Scanned(all, rest[..|rest| - 1], [m] + window, characters + |m.content|))
            && (!fits ==> IsLongest(|window|, Weighed(all), CONVERSATION_LIMIT))
  {
    Widen(Weighed(all), CONVERSATION_LIMIT, |window|);
  }

  lemma ScanEnds(all: seq<Message>, window: seq<Message>, characters: nat)
    requires Scanned(all, [], window, characters)
    ensures IsLongest(|window|, Weighed(all), CONVERSATION_LIMIT) && window == all
  {
    assert Weighed(all)[|all| - |window|..] == Weighed(all)[0..];
  }

  method ConversationContext(messages: Result<seq<Message>>, inputMessageId: Id) returns (userMessage: string, history: seq<Message>)
    ensures messages.Failure? || (forall m :: m in messages.value ==> m.id != inputMessageId) ==>
              userMessage == UNKNOWN_REQUEST && history == []
    ensures messages.Success? ==> forall current: nat :: IsCurrent(messages.value, inputMessageId, current) ==>
              userMessage == messages.value[current].content && IsConversation(history, messages.value[..current])
  {
    if messages.Failure? {
      return UNKNOWN_REQUEST, [];
    }
    var all := messages.value;
    var current := 0;
    while current < |all| && all[current].id != inputMessageId
      invariant current <= |all| && forall i :: 0 <= i < current ==> all[i].id != inputMessageId
    {
      current := current + 1;
    }
    if current == |all| {
      return UNKNOWN_REQUEST, [];
    }
    history := RecentHistory(all, current);
    return all[current].content, history;
  }

  /** One message further back: passed over, taken, or the end of the window. */
  lemma ScanStep(all: seq<Message>, messages: seq<Message>, index: nat, window: seq<Message>, characters: nat)
    requires 0 < index <= |messages| && Scanned(all, Eligible(messages[..index]), window, characters)
    ensures var m := messages[index - 1];
            && (!Spoken(m) ==> Scanned(all, Eligible(messages[..index - 1]), window, characters))
            && (Spoken(m) && characters + |m.content| > BUDGET ==> IsLongest(|window|, Weighed(all), CONVERSATION_LIMIT))
            && (Spoken(m) && characters + |m.content| <= BUDGET && |window| < CONVERSATION_LIMIT ==>
                  Scanned(all, Eligible(messages[..index - 1]), [m] + window, characters + |m.content|))
  {
    var m := messages[index - 1];
    EligibleLast(messages, index - 1);
    if Spoken(m) {
      var rest := Eligible(messages[..index]);
      ScanTakes(all, rest, window, characters);
      assert rest[..|rest| - 1] == Eligible(messages[..index - 1]);
    }
  }

  method ScanBack(messages: seq<Message>, current: nat, buffer: array<Message>) returns (count: nat, ghost window: seq<Message>)
    requires current <= |messages| && buffer.Length == CONVERSATION_LIMIT
    modifies buffer
    ensures count == |window| <= CONVERSATION_LIMIT && buffer[..count] == Backwards(window)
    ensures IsConversation(window, messages[..current])
  {
    ghost var all := Eligible(messages[..current]);
    window := [];
    var characters: nat, index: nat := 0, current;
    count := 0;
    while index > 0 && count < CONVERSATION_LIMIT
      invariant index <= current && count == |window| <= CONVERSATION_LIMIT
      invariant Scanned(all, Eligible(messages[..index]), window, characters)
      invariant buffer[..count] == Backwards(window)
    {
      var message := messages[index - 1];
      ScanStep(all, messages, index, window, characters);
      if message.role == User || message.role == Assistant {
        if characters + |message.content| > BUDGET {
          break;
        }
        BackwardsAdds(window, message);
        characters := characters + |message.content|;
        buffer[count] := message;
        count := count + 1;
        window := [message] + window;
      }
      index := index - 1;
    }
    ScanStops(all, Eligible(messages[..index]), window, characters);
  }

  method RecentHistory(messages: seq<Message>, current: nat) returns (history: seq<Message>)
    requires current < |messages|
    ensures IsConversation(history, messages[..current])
  {
    var buffer := new Message[CONVERSATION_LIMIT](i => messages[current]);
    ghost var window;
    var count;
    count, window := ScanBack(messages, current, buffer);
    ReverseInPlace(buffer, count);
    BackwardsAdds(window, messages[current]);
    history := buffer[..count];
  }

  lemma ScanStops(all: seq<Message>, rest: seq<Message>, window: seq<Message>, characters: nat)
    requires Scanned(all, rest, window, characters)
    requires |rest| == 0 || |window| >= CONVERSATION_LIMIT || IsLongest(|window|, Weighed(all), CONVERSATION_LIMIT)
    ensures IsLongest(|window|, Weighed(all), CONVERSATION_LIMIT) && window == all[|all| - |window|..]
  {
    if |rest| == 0 {
      ScanEnds(all, window, characters);
    } else {
      ScanTakes(all, rest, window, characters);
    }
  }

  lemma LongestBounds(s: seq<Entry>, n: nat, limit: nat)
    requires IsLongest(n, s, limit) && forall i :: 0 <= i < |s| ==> s[i].taken
    ensures n <= limit && Size(s[|s| - n..]) <= BUDGET
    ensures n < |s| ==> n == limit || s[|s| - n - 1].size + Size(s[|s| - n..]) > BUDGET
  {
    FitsInTotal(s[|s| - n..], limit);
    if n < |s| {
      Widen(s, limit, n);
    }
  }

  /** In plain terms: at most twelve messages of at most twelve thousand characters together, and one
      message more would break a bound. */
  lemma ConversationBounds(history: seq<Message>, before: seq<Message>)
    requires IsConversation(history, before)
    ensures |history| <= CONVERSATION_LIMIT && Size(Weighed(history)) <= BUDGET
    ensures |history| < |Eligible(before)| ==>
              |history| == CONVERSATION_LIMIT
              || |Eligible(before)[|Eligible(before)| - |history| - 1].content| + Size(Weighed(history)) > BUDGET
  {
    var all := Eligible(before);
    WeighedSuffix(all, |history|);
    LongestBounds(Weighed(all), |history|, CONVERSATION_LIMIT);
  }

  lemma WeighedSuffix(all: seq<Message>, n: nat)
    requires n <= |all|
    ensures Weighed(all[|all| - n..]) == Weighed(all)[|all| - n..]
  {
  }

  // --------------------------------------------------------------------- planning

  datatype TaskPlan = TaskPlan(views: seq<string>, from: int, to: int, step: int)

  datatype IntentItem = IntentItem(message: string, views: seq<string>, rangeSeconds: int, step: int)

  const NANOSECONDS := 1_000_000_000

  /** Integer division that truncates toward zero. */
  function WholeSeconds(duration: int): int {
    if duration >= 0 then duration / NANOSECONDS else -(-duration / NANOSECONDS)
  }

  /** The stored plan of a message's task; reading it may fail. */
  type Plans = map<Id, Result<TaskPlan>>

  function PlanOf(plans: Plans, m: Message): Result<TaskPlan> {
    if m.taskId in plans then plans[m.taskId] else Failure(ResourceNotFound)
  }

  predicate HasPlan(plans: Plans, m: Message) {
    PlanOf(plans, m).Success? && |PlanOf(plans, m).value.views| > 0
  }

  function ItemOf(plans: Plans, m: Message): IntentItem
    requires HasPlan(plans, m)
  {
    var plan := PlanOf(plans, m).value;
    IntentItem(m.content, plan.views, WholeSeconds(plan.to - plan.from), plan.step)
  }

  function Users(messages: seq<Message>): seq<Message> {
    if |messages| == 0 then []
    else Users(messages[..|messages| - 1]) + if messages[|messages| - 1].role == User then [messages[|messages| - 1]] else []
  }

  function WeighedPlans(users: seq<Message>, plans: Plans): seq<Entry> {
    seq(|users|, i requires 0 <= i < |users| => Entry(|users[i].content|, HasPlan(plans, users[i])))
  }

  function Items(users: seq<Message>, plans: Plans): seq<IntentItem> {
    if |users| == 0 then []
    else (if HasPlan(plans, users[0]) then [ItemOf(plans, users[0])] else []) + Items(users[1..], plans)
  }

  /** The plans of the longest window of user messages, all of which could be read. */
  ghost predicate Planned(passed: seq<Message>, users: seq<Message>, plans: Plans) {
    && IsLongest(|passed|, WeighedPlans(users, plans), PLANNING_LIMIT)
    && passed == users[|users| - |passed|..]
    && forall m :: m in passed ==> PlanOf(plans, m).Success?
  }

  /** `k` is the last message whose plan cannot be read. */
  ghost predicate LastUnreadable(k: nat, error: ErrorCode, users: seq<Message>, plans: Plans) {
    && k < |users| && PlanOf(plans, users[k]) == Failure(error)
    && forall i :: k < i < |users| ==> PlanOf(plans, users[i]).Success?
  }

  /** The scan met a plan it could not read, at a message that fits, and none after it. */
  ghost predicate PlanUnreadable(error: ErrorCode, users: seq<Message>, plans: Plans) {
    exists k: nat :: LastUnreadable(k, error, users, plans) && Fits(WeighedPlans(users, plans)[k..], PLANNING_LIMIT)
  }

  /** The outcome: the plans of the longest window of user messages. A message without a plan is passed
      over, but still ends the window if its length would overflow. A failed read is an error exactly
      when the message it belongs to is in the window. */
  ghost predicate IsPlanning(r: Result<seq<IntentItem>>, users: seq<Message>, plans: Plans) {
    match r
    case Success(items) => exists passed :: Planned(passed, users, plans) && items == Items(passed, plans)
    case Failure(error) => PlanUnreadable(error, users, plans)
  }

  ghost predicate PlanScanned(all: seq<Message>, plans: Plans, rest: seq<Message>, passed: seq<Message>, characters: nat, count: nat) {
    && all == rest + passed
    && Fits(WeighedPlans(all, plans)[|rest|..], PLANNING_LIMIT)
    && Size(WeighedPlans(all, plans)[|rest|..]) == characters && Number(WeighedPlans(all, plans)[|rest|..]) == count
    && forall m :: m in passed ==> PlanOf(plans, m).Success?
  }

  /** The next user message back fits or ends the window. */
  lemma PlanMeets(all: seq<Message>, plans: Plans, rest: seq<Message>, passed: seq<Message>, characters: nat, count: nat)
    requires PlanScanned(all, plans, rest, passed, characters, count) && |rest| > 0 && count < PLANNING_LIMIT
    ensures var m := rest[|rest| - 1];
            if characters + |m.content| > BUDGET then IsLongest(|passed|, WeighedPlans(all, plans), PLANNING_LIMIT)
            else Fits(WeighedPlans(all, plans)[|rest| - 1..], PLANNING_LIMIT)
  {
    Widen(WeighedPlans(all, plans), PLANNING_LIMIT, |passed|);
  }

  lemma PlanPasses(all: seq<Message>, plans: Plans, rest: seq<Message>, passed: seq<Message>, characters: nat, count: nat)
    requires PlanScanned(all, plans, rest, passed, characters, count) && |rest| > 0
    requires Fits(WeighedPlans(all, plans)[|rest| - 1..], PLANNING_LIMIT) && PlanOf(plans, rest[|rest| - 1]).Success?
    ensures var m := rest[|rest| - 1];
            PlanScanned(all, plans, rest[..|rest| - 1], [m] + passed,
                        characters + (if HasPlan(plans, m) then |m.content| else 0),
                        count + (if HasPlan(plans, m) then 1 else 0))
  {
    Widen(WeighedPlans(all, plans), PLANNING_LIMIT, |passed|);
  }

  lemma PlanFails(all: seq<Message>, plans: Plans, rest: seq<Message>, passed: seq<Message>, characters: nat, count: nat)
    requires PlanScanned(all, plans, rest, passed, characters, count) && |rest| > 0
    requires Fits(WeighedPlans(all, plans)[|rest| - 1..], PLANNING_LIMIT) && PlanOf(plans, rest[|rest| - 1]).Failure?
    ensures PlanUnreadable(PlanOf(plans, rest[|rest| - 1]).error, all, plans)
  {
    var k := |rest| - 1;
    assert all[k] == rest[k];
    forall j | k < j < |all| ensures PlanOf(plans, all[j]).Success? {
      assert all[j] == passed[j - |rest|];
    }
  }

  lemma PlanScanStops(all: seq<Message>, plans: Plans, rest: seq<Message>, passed: seq<Message>, characters: nat, count: nat)
    requires PlanScanned(all, plans, rest, passed, characters, count)
    requires |rest| == 0 || count >= PLANNING_LIMIT || IsLongest(|passed|, WeighedPlans(all, plans), PLANNING_LIMIT)
    ensures Planned(passed, all, plans)
  {
    if |rest| > 0 {
      Widen(WeighedPlans(all, plans), PLANNING_LIMIT, |passed|);
    }
  }

  datatype Verdict = Continue | Full | Unreadable(error: ErrorCode)

  /** One user message on the way back. */
  method ConsiderMessage(message: Message, plans: Plans, buffer: array<IntentItem>, count0: nat, characters0: nat,
                         ghost all: seq<Message>, ghost rest: seq<Message>, ghost passed0: seq<Message>)
    returns (verdict: Verdict, count: nat, characters: nat, ghost passed: seq<Message>)
    requires buffer.Length == PLANNING_LIMIT && count0 < PLANNING_LIMIT && |rest| > 0 && message == rest[|rest| - 1]
    requires PlanScanned(all, plans, rest, passed0, characters0, count0)
    requires buffer[..count0] == Backwards(Items(passed0, plans))
    modifies buffer
    ensures count <= PLANNING_LIMIT && buffer[..count] == Backwards(Items(passed, plans))
    ensures match verdict
            case Continue => PlanScanned(all, plans, rest[..|rest| - 1], passed, characters, count)
            case Full =>
              && passed == passed0 && count == count0 && characters == characters0
              && IsLongest(|passed|, WeighedPlans(all, plans), PLANNING_LIMIT)
            case Unreadable(error) => PlanUnreadable(error, all, plans)
  {
    count, characters, passed := count0, characters0, passed0;
    PlanMeets(all, plans, rest, passed, characters, count);
    if characters + |message.content| > BUDGET {
      return Full, count, characters, passed;
    }
    var planned := PlanOf(plans, message);
    if planned.Failure? {
      PlanFails(all, plans, rest, passed, characters, count);
      return Unreadable(planned.error), count, characters, passed;
    }
    PlanPasses(all, plans, rest, passed, characters, count);
    ItemsAdds(passed, plans, message);
    if |planned.value.views| > 0 {
      BackwardsAdds(Items(passed, plans), ItemOf(plans, message));
      characters := characters + |message.content|;
      buffer[count] := IntentItem(message.content, planned.value.views,
                                  WholeSeconds(planned.value.to - planned.value.from), planned.value.step);
      count := count + 1;
    }
    passed := [message] + passed;
    return Continue, count, characters, passed;
  }

  /** The scan fills the buffer newest first. */
  method PlanScanBack(messages: seq<Message>, plans: Plans, buffer: array<IntentItem>)
    returns (r: Result<nat>, ghost passed: seq<Message>)
    requires buffer.Length == PLANNING_LIMIT
    modifies buffer
    ensures r.Success? ==>
              && r.value <= PLANNING_LIMIT && buffer[..r.value] == Backwards(Items(passed, plans))
              && Planned(passed, Users(messages), plans)
    ensures r.Failure? ==> PlanUnreadable(r.error, Users(messages), plans)
  {
    ghost var all := Users(messages);
    ghost var rest := all;
    assert messages[..|messages|] == messages;
    passed := [];
    var characters: nat, index: nat, count: nat := 0, |messages|, 0;
    var full := false;
    while index > 0 && count < PLANNING_LIMIT && !full
      invariant index <= |messages| && count <= PLANNING_LIMIT && rest == Users(messages[..index])
      invariant PlanScanned(all, plans, rest, passed, characters, count)
      invariant buffer[..count] == Backwards(Items(passed, plans))
      invariant full ==> IsLongest(|passed|, WeighedPlans(all, plans), PLANNING_LIMIT)
      decreases index, !full
    {
      UsersBack(messages, index);
      if messages[index - 1].role == User {
        var verdict;
        verdict, count, characters, passed := ConsiderMessage(messages[index - 1], plans, buffer, count, characters, all, rest, passed);
        match verdict
        case Unreadable(error) => return Failure(error), passed;
        case Full => full := true;
        case Continue =>
          rest := rest[..|rest| - 1];
          index := index - 1;
      } else {
        index := index - 1;
      }
    }
    PlanScanStops(all, plans, rest, passed, characters, count);
    return Success(count), passed;
  }

  lemma UsersBack(messages: seq<Message>, index: nat)
    requires 0 < index <= |messages|
    ensures var rest := Users(messages[..index]);
            if messages[index - 1].role == User then
              |rest| > 0 && rest[|rest| - 1] == messages[index - 1] && rest[..|rest| - 1] == Users(messages[..index - 1])
            else rest == Users(messages[..index - 1])
  {
    assert messages[..index][..index - 1] == messages[..index - 1];
  }

  lemma ItemsAdds(passed: seq<Message>, plans: Plans, m: Message)
    ensures Items([m] + passed, plans) == (if HasPlan(plans, m) then [ItemOf(plans, m)] else []) + Items(passed, plans)
  {
    assert ([m] + passed)[1..] == passed;
  }

  /** An item tells a message's text and, of its plan, the views, the length in whole seconds and the step. */
  ghost predicate Tells(item: IntentItem, m: Message, plan: TaskPlan) {
    var length := plan.to - plan.from;
    && item.message == m.content && item.views == plan.views && item.step == plan.step
    && (length >= 0 ==> 0 <= length - item.rangeSeconds * NANOSECONDS < NANOSECONDS)
    && (length <= 0 ==> 0 <= item.rangeSeconds * NANOSECONDS - length < NANOSECONDS)
  }

  /** The items are those of the messages that have a plan, in order: message `k`'s comes after the
      items of the messages before it. */
  lemma {:induction false} ItemsTellPlans(users: seq<Message>, plans: Plans, k: nat)
    requires k < |users| && HasPlan(plans, users[k])
    ensures var at := |Items(users[..k], plans)|;
            at < |Items(users, plans)| && Tells(Items(users, plans)[at], users[k], plans[users[k].taskId].value)
  {
    if k == 0 {
      assert users[..0] == [];
    } else {
      assert users[1..][..k - 1] == users[..k][1..];
      ItemsTellPlans(users[1..], plans, k - 1);
    }
  }

  method PlanningHistory(messages: Result<seq<Message>>, plans: Plans) returns (r: Result<seq<IntentItem>>)
    ensures messages.Failure? ==> r == Failure(messages.error)
    ensures messages.Success? ==> IsPlanning(r, Users(messages.value), plans)
  {
    if messages.Failure? {
      return Failure(messages.error);
    }
    var buffer := new IntentItem[PLANNING_LIMIT](i => IntentItem("", [], 0, 0));
    ghost var passed;
    var count;
    count, passed := PlanScanBack(messages.value, plans, buffer);
    if count.Failure? {
      return Failure(count.error);
    }
    ReverseInPlace(buffer, count.value);
    BackwardsAdds(Items(passed, plans), IntentItem("", [], 0, 0));
    return Success(buffer[..count.value]);
  }

  /** The outcome is settled by the messages and their plans alone. */
  lemma PlanningIsDetermined(a: Result<seq<IntentItem>>, b: Result<seq<IntentItem>>, users: seq<Message>, plans: Plans)
    requires IsPlanning(a, users, plans) && IsPlanning(b, users, plans)
    ensures a == b
  {
    if a.Success? && b.Success? {
      var p :| Planned(p, users, plans) && a.value == Items(p, plans);
      var q :| Planned(q, users, plans) && b.value == Items(q, plans);
      PlannedIsUnique(p, q, users, plans);
    } else if a.Failure? && b.Failure? {
      UnreadableIsUnique(a.error, b.error, users, plans);
    } else {
      NotBoth(if a.Failure? then a.error else b.error, users, plans);
    }
  }

  lemma PlannedIsUnique(p: seq<Message>, q: seq<Message>, users: seq<Message>, plans: Plans)
    requires Planned(p, users, plans) && Planned(q, users, plans)
    ensures p == q
  {
    LongestIsUnique(|p|, |q|, WeighedPlans(users, plans), PLANNING_LIMIT);
  }

  lemma NoneAfterLast(j: nat, d: ErrorCode, k: nat, e: ErrorCode, users: seq<Message>, plans: Plans)
    requires LastUnreadable(j, d, users, plans) && LastUnreadable(k, e, users, plans)
    ensures k <= j
  {
  }

  lemma UnreadableIsUnique(d: ErrorCode, e: ErrorCode, users: seq<Message>, plans: Plans)
    requires PlanUnreadable(d, users, plans) && PlanUnreadable(e, users, plans)
    ensures d == e
  {
    var j: nat :| LastUnreadable(j, d, users, plans);
    var k: nat :| LastUnreadable(k, e, users, plans);
    NoneAfterLast(j, d, k, e, users, plans);
    NoneAfterLast(k, e, j, d, users, plans);
  }

  lemma InWindow(passed: seq<Message>, users: seq<Message>, plans: Plans, k: nat)
    requires Planned(passed, users, plans) && k < |users| && Fits(WeighedPlans(users, plans)[k..], PLANNING_LIMIT)
    ensures PlanOf(plans, users[k]).Success?
  {
    LongestIsThreshold(|passed|, WeighedPlans(users, plans), PLANNING_LIMIT, |users| - k);
    assert users[k] == passed[k - (|users| - |passed|)];
  }

  lemma NotBoth(error: ErrorCode, users: seq<Message>, plans: Plans)
    ensures !(PlanUnreadable(error, users, plans) && exists passed :: Planned(passed, users, plans))
  {
    forall passed, k: nat | Planned(passed, users, plans) && k < |users| && Fits(WeighedPlans(users, plans)[k..], PLANNING_LIMIT)
      ensures PlanOf(plans, users[k]).Success?
    {
      InWindow(passed, users, plans, k);
    }
  }

  /** At most six plans, whose messages have at most twelve thousand characters together. */
  lemma {:induction false} PlanningBounds(users: seq<Message>, plans: Plans)
    requires Fits(WeighedPlans(users, plans), PLANNING_LIMIT)
    ensures |Items(users, plans)| == Number(WeighedPlans(users, plans)) <= PLANNING_LIMIT
    ensures Size(WeighedPlans(users, plans)) <= BUDGET
  {
    if |users| > 0 {
      assert WeighedPlans(users, plans)[1..] == WeighedPlans(users[1..], plans);
      PlanningBounds(users[1..], plans);
    }
  }
}
