/** The replay-safe usage counters: two Lua scripts over one Redis hash, and their histories. */
module UsageCounters {
  import opened Wrappers
  import opened Billing

  const DEDUP_TTL := 60

  /** A script call as its caller means it; `limit < 0` means unlimited. */
  datatype Op =
    | Take(field: Category, count: int, limit: int)
    | Refund(field: Category, count: int)

  /** A deduplication key with its cached reply. */
  datatype Entry = Entry(result: int, deadline: int)

  datatype Store = Store(counters: Counts, dedup: map<string, Entry>, now: int)

  datatype Event = Call(id: string, op: Op) | Wait(seconds: nat)

  // ------------------------------------------------------------------ the scripts without retries

  predicate Rejected(counters: Counts, op: Op) {
    op.Take? && op.limit >= 0 && counters.Get(op.field) + op.count > op.limit
  }

  function Effect(counters: Counts, op: Op): Counts {
    if Rejected(counters, op) then counters
    else if op.Take? then counters.With(op.field, counters.Get(op.field) + op.count)
    else counters.With(op.field, counters.Get(op.field) - op.count)
  }

  function Answer(counters: Counts, op: Op): int {
    if Rejected(counters, op) then -1 else Effect(counters, op).Get(op.field)
  }

  /** Counters after a plain sequence of calls, none of them retried. */
  function Total(counters: Counts, ops: seq<Op>): Counts
    decreases |ops|
  {
    if ops == [] then counters else Total(Effect(counters, ops[0]), ops[1..])
  }

  function Answers(counters: Counts, ops: seq<Op>): seq<int>
    decreases |ops|
  {
    if ops == [] then [] else [Answer(counters, ops[0])] + Answers(Effect(counters, ops[0]), ops[1..])
  }

  // ------------------------------------------------------------------ the scripts with retries

  predicate Live(s: Store, id: string) {
    id in s.dedup && s.now < s.dedup[id].deadline
  }

  /** The state after one script call: a live key only replays its reply. */
  function Script(s: Store, id: string, op: Op): Store {
    if Live(s, id) then s
    else s.(counters := Effect(s.counters, op),
            dedup := s.dedup[id := Entry(Answer(s.counters, op), s.now + DEDUP_TTL)])
  }

  function Reply(s: Store, id: string, op: Op): int {
    if Live(s, id) then s.dedup[id].result else Answer(s.counters, op)
  }

  function After(s: Store, e: Event): Store {
    match e
    case Call(id, op) => Script(s, id, op)
    case Wait(seconds) => s.(now := s.now + seconds)
  }

  function Run(s: Store, h: seq<Event>): Store
    decreases |h|
  {
    if h == [] then s else Run(After(s, h[0]), h[1..])
  }

  /** Replies of the calls made under one id, in order. */
  function RepliesTo(s: Store, h: seq<Event>, id: string): seq<int>
    decreases |h|
  {
    if h == [] then []
    else (if h[0].Call? && h[0].id == id then [Reply(s, id, h[0].op)] else []) + RepliesTo(After(s, h[0]), h[1..], id)
  }

  /** Retries repeat their call exactly and arrive before its key expires; `calls` is what was called. */
  ghost predicate Retries(s: Store, h: seq<Event>, calls: map<string, Op>)
    decreases |h|
  {
    h == [] ||
    match h[0]
    case Call(id, op) =>
      if id in calls then calls[id] == op && Live(s, id) && Retries(s, h[1..], calls)
      else Retries(After(s, h[0]), h[1..], calls[id := op])
    case Wait(_) => Retries(After(s, h[0]), h[1..], calls)
  }

  /** The history without its retries. */
  function Firsts(h: seq<Event>, seen: set<string>): seq<Op> {
    if h == [] then []
    else if h[0].Call? && h[0].id !in seen then [h[0].op] + Firsts(h[1..], seen + {h[0].id})
    else Firsts(h[1..], seen)
  }

  function FirstIds(h: seq<Event>, seen: set<string>): seq<string> {
    if h == [] then []
    else if h[0].Call? && h[0].id !in seen then [h[0].id] + FirstIds(h[1..], seen + {h[0].id})
    else FirstIds(h[1..], seen)
  }

  /** Retries inside the window are invisible: counters equal those of the first calls alone. */
  lemma {:induction false} RetriesAreInvisible(s: Store, h: seq<Event>, calls: map<string, Op>)
    requires s.dedup.Keys == calls.Keys && Retries(s, h, calls)
    ensures Run(s, h).counters == Total(s.counters, Firsts(h, calls.Keys))
    decreases |h|
  {
    if h != [] {
      var t := After(s, h[0]);
      if h[0].Call? && h[0].id !in calls {
        var later := calls[h[0].id := h[0].op];
        assert later.Keys == calls.Keys + {h[0].id} == t.dedup.Keys;
        RetriesAreInvisible(t, h[1..], later);
        var rest := Firsts(h[1..], later.Keys);
        assert ([h[0].op] + rest)[1..] == rest;
        assert !Live(s, h[0].id);
      } else {
        RetriesAreInvisible(t, h[1..], calls);
      }
    }
  }

  /** A call answered once is answered the same way on every retry. */
  lemma {:induction false} RetriesRepeatTheReply(s: Store, h: seq<Event>, calls: map<string, Op>, id: string)
    requires s.dedup.Keys == calls.Keys && Retries(s, h, calls) && id in calls
    ensures forall i :: 0 <= i < |RepliesTo(s, h, id)| ==> RepliesTo(s, h, id)[i] == s.dedup[id].result
    decreases |h|
  {
    if h != [] {
      var t := After(s, h[0]);
      if h[0].Call? && h[0].id !in calls {
        var later := calls[h[0].id := h[0].op];
        assert later.Keys == calls.Keys + {h[0].id} == t.dedup.Keys;
        RetriesRepeatTheReply(t, h[1..], later, id);
      } else {
        RetriesRepeatTheReply(t, h[1..], calls, id);
      }
    }
  }

  /** Every reply under one id is the answer its first call gets in the history without retries. */
  lemma {:induction false} RepliesAreFirstAnswers(s: Store, h: seq<Event>, calls: map<string, Op>, k: nat)
    requires s.dedup.Keys == calls.Keys && Retries(s, h, calls) && k < |FirstIds(h, calls.Keys)|
    ensures var firsts, ids := Firsts(h, calls.Keys), FirstIds(h, calls.Keys);
      && |Answers(s.counters, firsts)| == |firsts| == |ids|
      && RepliesTo(s, h, ids[k]) != []
      && forall i :: 0 <= i < |RepliesTo(s, h, ids[k])| ==>
           RepliesTo(s, h, ids[k])[i] == Answers(s.counters, firsts)[k]
    decreases |h|
  {
    AnswersMatchFirsts(s.counters, h, calls.Keys);
    var t := After(s, h[0]);
    if h[0].Call? && h[0].id !in calls {
      var id := h[0].id;
      var later := calls[id := h[0].op];
      assert later.Keys == calls.Keys + {id} == t.dedup.Keys;
      var rest := Firsts(h[1..], later.Keys);
      assert ([h[0].op] + rest)[1..] == rest;
      if k == 0 {
        RetriesRepeatTheReply(t, h[1..], later, id);
      } else {
        RepliesAreFirstAnswers(t, h[1..], later, k - 1);
        FirstIdsAreNew(h[1..], later.Keys, k - 1);
      }
    } else {
      RepliesAreFirstAnswers(t, h[1..], calls, k);
      FirstIdsAreNew(h[1..], calls.Keys, k);
    }
  }

  lemma {:induction false} AnswersMatchFirsts(counters: Counts, h: seq<Event>, seen: set<string>)
    ensures |Answers(counters, Firsts(h, seen))| == |Firsts(h, seen)| == |FirstIds(h, seen)|
  {
    AnswersLength(counters, Firsts(h, seen));
    if h != [] {
      var later := if h[0].Call? && h[0].id !in seen then seen + {h[0].id} else seen;
      AnswersMatchFirsts(counters, h[1..], later);
    }
  }

  lemma {:induction false} AnswersLength(counters: Counts, ops: seq<Op>)
    ensures |Answers(counters, ops)| == |ops|
    decreases |ops|
  {
    if ops != [] {
      AnswersLength(Effect(counters, ops[0]), ops[1..]);
    }
  }

  lemma {:induction false} FirstIdsAreNew(h: seq<Event>, seen: set<string>, k: nat)
    requires k < |FirstIds(h, seen)|
    ensures FirstIds(h, seen)[k] !in seen
  {
    if h[0].Call? && h[0].id !in seen {
      if k > 0 { FirstIdsAreNew(h[1..], seen + {h[0].id}, k - 1); }
    } else {
      FirstIdsAreNew(h[1..], seen, k);
    }
  }

  /**
   * The window is needed: a repeated call leaves the counters alone exactly when its key is
   * live, it is rejected, or it counts nothing.
   */
  lemma RetryIsInvisibleExactlyInWindow(s: Store, id: string, op: Op)
    ensures Script(s, id, op).counters == s.counters <==> Live(s, id) || Rejected(s.counters, op) || op.count == 0
  {
    assert s.counters.With(op.field, s.counters.Get(op.field) + op.count).Get(op.field) == s.counters.Get(op.field) + op.count;
    assert s.counters.With(op.field, s.counters.Get(op.field) - op.count).Get(op.field) == s.counters.Get(op.field) - op.count;
  }

  /** A new reply is replayed for a minute, and not beyond. */
  lemma ReplyLivesAMinute(s: Store, id: string, op: Op, seconds: nat)
    requires !Live(s, id)
    ensures var t := After(Script(s, id, op), Wait(seconds)); Live(t, id) <==> seconds < 60
    ensures seconds < 60 ==> Reply(After(Script(s, id, op), Wait(seconds)), id, op) == Reply(s, id, op)
  {
  }

  // ------------------------------------------------------------------ balance

  function Granted(counters: Counts, ops: seq<Op>, f: Category): int
    decreases |ops|
  {
    if ops == [] then 0
    else
      (if ops[0].Take? && ops[0].field == f && !Rejected(counters, ops[0]) then ops[0].count else 0)
      + Granted(Effect(counters, ops[0]), ops[1..], f)
  }

  function Refunded(ops: seq<Op>, f: Category): int {
    if ops == [] then 0
    else (if ops[0].Refund? && ops[0].field == f then ops[0].count else 0) + Refunded(ops[1..], f)
  }

  /** A counter is what it started with plus granted counts minus refunds. */
  lemma {:induction false} CounterBalances(counters: Counts, ops: seq<Op>, f: Category)
    ensures Total(counters, ops).Get(f) == counters.Get(f) + Granted(counters, ops, f) - Refunded(ops, f)
    decreases |ops|
  {
    if ops != [] {
      CounterBalances(Effect(counters, ops[0]), ops[1..], f);
    }
  }

  // ------------------------------------------------------------------ quota

  function Sum(s: seq<nat>): nat {
    if s == [] then 0 else s[|s| - 1] + Sum(s[..|s| - 1])
  }

  lemma {:induction false} SumWithout(s: seq<nat>, i: nat)
    requires i < |s|
    ensures Sum(s[..i] + s[i + 1..]) == Sum(s) - s[i]
  {
    var n := |s| - 1;
    if i == n {
      assert s[..i] + s[i + 1..] == s[..n];
    } else {
      SumWithout(s[..n], i);
      var t := s[..i] + s[i + 1..];
      assert t[..|t| - 1] == s[..n][..i] + s[..n][i + 1..];
      assert t[|t| - 1] == s[n];
    }
  }

  /**
   * Calls on field `f` keep to one limit and non-negative counts, and each refund gives back
   * one grant still outstanding.
   */
  ghost predicate Fair(counters: Counts, ops: seq<Op>, f: Category, limit: int, grants: seq<nat>)
    decreases |ops|
  {
    ops == [] ||
    var rest, next := ops[1..], Effect(counters, ops[0]);
    if ops[0].field != f then Fair(next, rest, f, limit, grants)
    else if ops[0].Take? then
      ops[0].limit == limit && ops[0].count >= 0
      && Fair(next, rest, f, limit, if Rejected(counters, ops[0]) then grants else grants + [ops[0].count])
    else
      exists i :: 0 <= i < |grants| && grants[i] == ops[0].count
        && Fair(next, rest, f, limit, grants[..i] + grants[i + 1..])
  }

  /** The counter is the outstanding grants, never negative and never over the limit. */
  lemma {:induction false} QuotaHolds(counters: Counts, ops: seq<Op>, f: Category, limit: int, grants: seq<nat>)
    requires limit >= 0 && counters.Get(f) == Sum(grants) <= limit
    requires Fair(counters, ops, f, limit, grants)
    ensures 0 <= Total(counters, ops).Get(f) <= limit
    ensures forall k :: 0 <= k <= |ops| ==> 0 <= Total(counters, ops[..k]).Get(f) <= limit
    decreases |ops|
  {
    if ops == [] {
      forall k | 0 <= k <= 0 ensures 0 <= Total(counters, ops[..k]).Get(f) <= limit {
        assert ops[..k] == [];
      }
    } else {
      var next := Effect(counters, ops[0]);
      var after: seq<nat>;
      if ops[0].field != f {
        after := grants;
      } else if ops[0].Take? {
        after := if Rejected(counters, ops[0]) then grants else grants + [ops[0].count];
        assert (grants + [ops[0].count])[..|grants|] == grants;
      } else {
        var i :| 0 <= i < |grants| && grants[i] == ops[0].count
          && Fair(next, ops[1..], f, limit, grants[..i] + grants[i + 1..]);
        after := grants[..i] + grants[i + 1..];
        SumWithout(grants, i);
      }
      QuotaHolds(next, ops[1..], f, limit, after);
      forall k | 0 <= k <= |ops| ensures 0 <= Total(counters, ops[..k]).Get(f) <= limit {
        if k > 0 {
          assert ops[..k][0] == ops[0] && ops[..k][1..] == ops[1..][..k - 1];
        } else {
          assert ops[..k] == [];
        }
      }
    }
  }

  lemma {:induction false} RetriesInPrefix(s: Store, h: seq<Event>, calls: map<string, Op>, k: nat)
    requires k <= |h| && Retries(s, h, calls)
    ensures Retries(s, h[..k], calls) && Firsts(h[..k], calls.Keys) <= Firsts(h, calls.Keys)
    decreases |h|
  {
    if k == 0 {
      assert h[..k] == [];
    } else {
      assert h[..k][0] == h[0] && h[..k][1..] == h[1..][..k - 1];
      if h[0].Call? && h[0].id !in calls {
        var later := calls[h[0].id := h[0].op];
        assert later.Keys == calls.Keys + {h[0].id};
        RetriesInPrefix(After(s, h[0]), h[1..], later, k - 1);
      } else {
        RetriesInPrefix(After(s, h[0]), h[1..], calls, k - 1);
      }
    }
  }

  /** Quota and deduplication together: at no point of a history can retries break the limit. */
  lemma QuotaHoldsUnderRetries(s: Store, h: seq<Event>, calls: map<string, Op>, f: Category, limit: int, grants: seq<nat>)
    requires s.dedup.Keys == calls.Keys && Retries(s, h, calls)
    requires limit >= 0 && s.counters.Get(f) == Sum(grants) <= limit
    requires Fair(s.counters, Firsts(h, calls.Keys), f, limit, grants)
    ensures forall k :: 0 <= k <= |h| ==> 0 <= Run(s, h[..k]).counters.Get(f) <= limit
  {
    var firsts := Firsts(h, calls.Keys);
    QuotaHolds(s.counters, firsts, f, limit, grants);
    forall k | 0 <= k <= |h| ensures 0 <= Run(s, h[..k]).counters.Get(f) <= limit {
      RetriesInPrefix(s, h, calls, k);
      RetriesAreInvisible(s, h[..k], calls);
      var m := |Firsts(h[..k], calls.Keys)|;
      assert firsts[..m] == Firsts(h[..k], calls.Keys);
    }
  }

  /** `-1` means rejection exactly as long as no granted total is itself `-1`. */
  lemma MinusOneMeansRejected(counters: Counts, op: Op)
    requires op.Take?
    ensures Answer(counters, op) == -1 <==> Rejected(counters, op) || counters.Get(op.field) + op.count == -1
    ensures counters.Get(op.field) >= 0 && op.count >= 0 ==>
      (Answer(counters, op) == -1 <==> op.limit >= 0 && counters.Get(op.field) + op.count > op.limit)
  {
  }

  // ------------------------------------------------------------------ the service

  datatype SubStatus = Active | PastDue | Incomplete | Canceled

  datatype Account = Account(plan: Plan, status: SubStatus)

  datatype QuotaError = NoSubscription | NotActive | LimitReached

  /** The hard limit handed to the script: only plans without overage billing have one. */
  function HardLimit(plan: Plan, c: Category): int {
    if PayAsYouGo(plan) || plan.Development? then -1 else BaseUnits(plan).Get(c)
  }

  /** What the service asks of the script for one call, and for its compensation. */
  predicate AskedFor(plan: Plan, op: Op) {
    op.Take? ==> op.limit == HardLimit(plan, op.field)
  }

  /**
   * On the free plan no history of the service's calls, retried or not, moves a counter past
   * the units the plan includes.
   */
  lemma HobbyStaysWithinPlan(s: Store, h: seq<Event>, calls: map<string, Op>, f: Category, grants: seq<nat>)
    requires s.dedup.Keys == calls.Keys && Retries(s, h, calls)
    requires forall op :: op in Firsts(h, calls.Keys) ==> AskedFor(Hobby, op)
    requires Balanced(s.counters, Firsts(h, calls.Keys), f, grants)
    requires s.counters.Get(f) == Sum(grants) <= BaseUnits(Hobby).Get(f)
    ensures forall k :: 0 <= k <= |h| ==> 0 <= Run(s, h[..k]).counters.Get(f) <= BaseUnits(Hobby).Get(f)
  {
    BalancedIsFair(s.counters, Firsts(h, calls.Keys), f, BaseUnits(Hobby).Get(f), grants);
    QuotaHoldsUnderRetries(s, h, calls, f, BaseUnits(Hobby).Get(f), grants);
  }

  /** Counts are not negative, and each refund gives back one grant still outstanding. */
  ghost predicate Balanced(counters: Counts, ops: seq<Op>, f: Category, grants: seq<nat>)
    decreases |ops|
  {
    ops == [] ||
    var rest, next := ops[1..], Effect(counters, ops[0]);
    if ops[0].field != f then Balanced(next, rest, f, grants)
    else if ops[0].Take? then
      ops[0].count >= 0
      && Balanced(next, rest, f, if Rejected(counters, ops[0]) then grants else grants + [ops[0].count])
    else
      exists i :: 0 <= i < |grants| && grants[i] == ops[0].count
        && Balanced(next, rest, f, grants[..i] + grants[i + 1..])
  }

  lemma {:induction false} BalancedIsFair(counters: Counts, ops: seq<Op>, f: Category, limit: int, grants: seq<nat>)
    requires forall op :: op in ops && op.field == f && op.Take? ==> op.limit == limit
    requires Balanced(counters, ops, f, grants)
    ensures Fair(counters, ops, f, limit, grants)
    decreases |ops|
  {
    if ops != [] {
      assert ops[0] in ops && forall op :: op in ops[1..] ==> op in ops;
      var next := Effect(counters, ops[0]);
      if ops[0].field != f {
        BalancedIsFair(next, ops[1..], f, limit, grants);
      } else if ops[0].Take? {
        BalancedIsFair(next, ops[1..], f, limit, if Rejected(counters, ops[0]) then grants else grants + [ops[0].count]);
      } else {
        var i :| 0 <= i < |grants| && grants[i] == ops[0].count && Balanced(next, ops[1..], f, grants[..i] + grants[i + 1..]);
        BalancedIsFair(next, ops[1..], f, limit, grants[..i] + grants[i + 1..]);
      }
    }
  }

  predicate Entitled(account: Option<Account>) {
    account.Some? && (account.value.status.Active? || account.value.status.PastDue?)
  }

  class UsageService {
    var redis: Store

    constructor (s: Store)
      ensures redis == s
    {
      redis := s;
    }

    /** HINCRBY */
    method IncrBy(f: Category, n: int) returns (current: int)
      modifies this
      ensures redis == old(redis).(counters := old(redis).counters.With(f, current))
      ensures current == old(redis).counters.Get(f) + n
    {
      current := redis.counters.Get(f) + n;
      redis := redis.(counters := redis.counters.With(f, current));
    }

    /** SET ... EX */
    method SetReply(id: string, result: int)
      modifies this
      ensures redis == old(redis).(dedup := old(redis).dedup[id := Entry(result, old(redis).now + DEDUP_TTL)])
    {
      redis := redis.(dedup := redis.dedup[id := Entry(result, redis.now + DEDUP_TTL)]);
    }

    /** The check-and-increment script: increment first, undo when over the limit. */
    method CheckAndIncrementScript(id: string, f: Category, count: int, limit: int) returns (reply: int)
      modifies this
      ensures reply == Reply(old(redis), id, Take(f, count, limit))
      ensures redis == Script(old(redis), id, Take(f, count, limit))
    {
      if id in redis.dedup && redis.now < redis.dedup[id].deadline {
        return redis.dedup[id].result;
      }
      var current := IncrBy(f, count);
      if limit >= 0 && current > limit {
        var undone := IncrBy(f, -count);
        assert redis.counters == old(redis).counters;
        SetReply(id, -1);
        return -1;
      }
      SetReply(id, current);
      return current;
    }

    /** The compensating script. */
    method RollbackScript(id: string, f: Category, count: int) returns (reply: int)
      modifies this
      ensures reply == Reply(old(redis), id, Refund(f, count))
      ensures redis == Script(old(redis), id, Refund(f, count))
    {
      if id in redis.dedup && redis.now < redis.dedup[id].deadline {
        return redis.dedup[id].result;
      }
      reply := IncrBy(f, -count);
      SetReply(id, reply);
    }

    /**
     * Enforce the quota of an account; `id` is the fresh retry token of this call. Plans with
     * overage billing are never refused; a plan with a hard limit is refused exactly beyond it,
     * and then its counter does not move.
     */
    method CheckAndIncrement(account: Option<Account>, f: Category, count: int, id: string)
      returns (result: Result<int, QuotaError>)
      modifies this
      ensures account.None? ==> result == Err(NoSubscription) && redis == old(redis)
      ensures account.Some? && !account.value.status.Active? && !account.value.status.PastDue? ==>
        result == Err(NotActive) && redis == old(redis)
      ensures account.Some? && (account.value.status.Active? || account.value.status.PastDue?) ==>
        var op := Take(f, count, HardLimit(account.value.plan, f));
        && redis == Script(old(redis), id, op)
        && result == if Reply(old(redis), id, op) == -1 then Err(LimitReached) else Ok(Reply(old(redis), id, op))
      ensures Entitled(account) && !Live(old(redis), id) && count >= 0 && old(redis).counters.Get(f) >= 0 ==>
        var total, plan := old(redis).counters.Get(f) + count, account.value.plan;
        && (result == Err(LimitReached) <==>
              !PayAsYouGo(plan) && !plan.Development? && total > BaseUnits(plan).Get(f))
        && (result.Ok? ==> result.value == total && redis.counters == old(redis).counters.With(f, total))
        && (result.Err? ==> redis.counters == old(redis).counters)
    {
      if account.None? {
        return Err(NoSubscription);
      }
      var sub := account.value;
      if !(sub.status.Active? || sub.status.PastDue?) {
        return Err(NotActive);
      }
      var reply := CheckAndIncrementScript(id, f, count, HardLimit(sub.plan, f));
      result := if reply == -1 then Err(LimitReached) else Ok(reply);
    }
  }
}
