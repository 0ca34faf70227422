/** The webhook outbox: fan-out of published events (helpdesktool/persistence.py) and delivery with
    exponential backoff (helpdesktool/webhook_worker.py). */
module Webhooks {
  import opened Text

  /** Times are in microseconds. */
  const SECOND := 1_000_000

  datatype Event = Event(id: string, tenant: string, kind: string)

  datatype Subscription = Subscription(id: string, tenant: string, kinds: seq<string>, active: bool)

  datatype Status = Pending | Delivered | DeadLetter | Cancelled

  datatype Delivery = Delivery(
    tenant: string, event: string, subscription: string,
    status: Status, attempts: nat, nextAt: int, lastAt: Option<int>, deliveredAt: Option<int>)

  /** How one attempt went: nothing to deliver to any more, an HTTP status, or an exception on the way. */
  datatype Outcome = Gone | Response(code: int) | Raised

  function Min(x: int, y: int): int {
    if x <= y then x else y
  }

  // ---- One delivery

  function Pow2(n: nat): nat {
    if n == 0 then 1 else 2 * Pow2(n - 1)
  }

  /** Seconds to wait after the given number of attempts. */
  function Delay(attempts: nat): int {
    Min(3600, Pow2(Min(attempts, 11)))
  }

  predicate Succeeded(o: Outcome) {
    o.Response? && 200 <= o.code < 300
  }

  predicate Retryable(o: Outcome) {
    o.Raised? || (o.Response? && (o.code in {408, 425, 429} || o.code >= 500))
  }

  function Failed(d: Delivery, retryable: bool, now: int, max: int): Delivery {
    if !retryable || d.attempts >= max then d.(status := DeadLetter)
    else d.(nextAt := now + Delay(d.attempts) * SECOND)
  }

  function Attempted(d: Delivery, o: Outcome, now: int, max: int): Delivery {
    var counted := d.(attempts := d.attempts + 1, lastAt := Some(now));
    if o.Gone? then counted.(status := Cancelled)
    else if Succeeded(o) then counted.(status := Delivered, deliveredAt := Some(now))
    else Failed(counted, Retryable(o), now, max)
  }

  predicate Due(d: Delivery, now: int) {
    d.status == Pending && d.nextAt <= now
  }

  datatype Try = Try(at: int, outcome: Outcome)

  function Fresh(e: Event, subscription: string, at: int): Delivery {
    Delivery(e.tenant, e.id, subscription, Pending, 0, at, None, None)
  }

  function After(d: Delivery, log: seq<Try>, max: int): Delivery {
    if log == [] then d
    else
      var last := log[|log| - 1];
      Attempted(After(d, log[..|log| - 1], max), last.outcome, last.at, max)
  }

  /** Each attempt was made while the delivery was due. */
  predicate Possible(d: Delivery, log: seq<Try>, max: int) {
    log == [] || (Possible(d, log[..|log| - 1], max) && Due(After(d, log[..|log| - 1], max), log[|log| - 1].at))
  }

  function Cap(max: int): nat {
    if max < 1 then 1 else max
  }

  /** The status, told from the outcomes alone. */
  function StatusOf(log: seq<Try>, max: int): Status {
    if log == [] then Pending
    else
      var o := log[|log| - 1].outcome;
      if o.Gone? then Cancelled
      else if Succeeded(o) then Delivered
      else if Retryable(o) && |log| < Cap(max) then Pending
      else DeadLetter
  }

  lemma AttemptTells(d: Delivery, o: Outcome, now: int, max: int)
    ensures
      var after := Attempted(d, o, now, max);
      && after.attempts == d.attempts + 1
      && after.status == if o.Gone? then Cancelled
                         else if Succeeded(o) then Delivered
                         else if Retryable(o) && d.attempts + 1 < max then d.status else DeadLetter
  {
  }

  /** The row after one attempt, by its answer: 2xx delivers; 408, 425, 429, 5xx and exceptions are tried again
      while attempts remain, not before the delay; anything else, or the last failure, is a dead letter. */
  lemma AttemptExactly(d: Delivery, o: Outcome, now: int, max: int)
    requires d.status == Pending
    ensures
      var after := Attempted(d, o, now, max);
      var delivered := o.Response? && o.code / 100 == 2;
      var again := o == Raised || (o.Response? && (o.code == 408 || o.code == 425 || o.code == 429 || o.code >= 500));
      && (after.status == Cancelled <==> o == Gone)
      && (after.status == Delivered <==> delivered)
      && (after.status == Pending <==> again && d.attempts + 1 < max)
      && (after.status == DeadLetter <==> o != Gone && !delivered && !(again && d.attempts + 1 < max))
      && after.attempts == d.attempts + 1 && after.lastAt == Some(now)
      && after.deliveredAt == (if delivered then Some(now) else d.deliveredAt)
      && after.nextAt == (if after.status == Pending then now + Delay(d.attempts + 1) * SECOND else d.nextAt)
      && after.tenant == d.tenant && after.event == d.event && after.subscription == d.subscription
  {
  }

  /** A delivery is pending exactly while every attempt failed retryably and fewer than max(1, max) were
      made; the first other outcome, or the last attempt allowed, settles it and no attempt follows. */
  lemma {:induction false} StatusFollowsOutcomes(e: Event, s: string, at: int, log: seq<Try>, max: int)
    requires Possible(Fresh(e, s, at), log, max)
    ensures After(Fresh(e, s, at), log, max).status == StatusOf(log, max)
    ensures After(Fresh(e, s, at), log, max).attempts == |log| <= Cap(max)
    ensures forall i :: 0 <= i < |log| - 1 ==> Retryable(log[i].outcome)
    ensures StatusOf(log, max) == Pending
        <==> |log| < Cap(max) && forall i :: 0 <= i < |log| ==> Retryable(log[i].outcome)
  {
    if log != [] {
      var n := |log| - 1;
      var before := log[..n];
      StatusFollowsOutcomes(e, s, at, before, max);
      AttemptTells(After(Fresh(e, s, at), before, max), log[n].outcome, log[n].at, max);
      assert forall i :: 0 <= i < n ==> log[i] == before[i];
    }
  }

  // ---- The schedule

  lemma {:induction false} Pow2Monotone(m: nat, n: nat)
    requires m <= n
    ensures Pow2(m) <= Pow2(n)
  {
    if m < n {
      Pow2Monotone(m, n - 1);
    }
  }

  /** The hour's cap on the delay never binds. */
  lemma DelayIsUncapped(k: nat)
    ensures Delay(k) == Pow2(Min(k, 11)) <= 2048
  {
    Pow2Monotone(Min(k, 11), 11);
    assert Pow2(11) == 2048 by {
      assert Pow2(4) == 16 && Pow2(8) == 256;
    }
  }

  /** Seconds scheduled by the first k retryable failures. */
  function TotalDelay(k: nat): int {
    if k == 0 then 0 else TotalDelay(k - 1) + Delay(k)
  }

  lemma {:induction false} TotalDelayClosed(k: nat)
    ensures TotalDelay(k) == if k <= 11 then Pow2(k + 1) - 2 else 4094 + 2048 * (k - 11)
  {
    DelayIsUncapped(k);
    if k > 0 {
      TotalDelayClosed(k - 1);
      if k > 11 {
        assert Pow2(11) == 2048 && Pow2(12) == 4096 by {
          assert Pow2(4) == 16 && Pow2(8) == 256;
        }
      }
    }
  }

  /** The attempt after k failures comes no earlier than 2^(k+1) - 2 seconds after publication, and from the
      twelfth failure on 2048 seconds later each time. */
  lemma {:induction false} AttemptsBackOff(e: Event, s: string, at: int, log: seq<Try>, max: int)
    requires Possible(Fresh(e, s, at), log, max)
    ensures forall k :: 0 <= k < |log| ==> log[k].at >= at + TotalDelay(k) * SECOND
    ensures StatusOf(log, max) == Pending ==> After(Fresh(e, s, at), log, max).nextAt >= at + TotalDelay(|log|) * SECOND
    ensures forall k :: 0 < k < |log| ==> log[k].at >= log[k - 1].at + Delay(k) * SECOND
    ensures (StatusOf(log, max) == Pending && log != []
             ==> After(Fresh(e, s, at), log, max).nextAt == log[|log| - 1].at + Delay(|log|) * SECOND)
  {
    if log != [] {
      var n := |log| - 1;
      AttemptsBackOff(e, s, at, log[..n], max);
      StatusFollowsOutcomes(e, s, at, log[..n], max);
      StatusFollowsOutcomes(e, s, at, log, max);
      assert forall i :: 0 <= i < n ==> log[i] == log[..n][i];
    }
  }

  // ---- Fan-out

  predicate Matches(s: Subscription, e: Event) {
    s.tenant == e.tenant && s.active && e.kind in s.kinds
  }

  /** Who wants an event, told from the subscriptions' own fields: an active one of the event's tenant that lists
      its kind. */
  lemma WantedExactly(subscriptions: seq<Subscription>, e: Event, id: string)
    ensures Wanted(subscriptions, e, id) <==>
      exists i :: 0 <= i < |subscriptions| && subscriptions[i].id == id && subscriptions[i].active
                  && subscriptions[i].tenant == e.tenant && e.kind in subscriptions[i].kinds
  {
    if Wanted(subscriptions, e, id) {
      var s :| s in subscriptions && s.id == id && Matches(s, e);
      var i :| 0 <= i < |subscriptions| && subscriptions[i] == s;
    }
    if i :| 0 <= i < |subscriptions| && subscriptions[i].id == id && subscriptions[i].active
            && subscriptions[i].tenant == e.tenant && e.kind in subscriptions[i].kinds {
      assert subscriptions[i] in subscriptions;
    }
  }

  function Fanout(subscriptions: seq<Subscription>, e: Event, at: int): seq<Delivery> {
    if subscriptions == [] then []
    else
      var last := subscriptions[|subscriptions| - 1];
      Fanout(subscriptions[..|subscriptions| - 1], e, at) + (if Matches(last, e) then [Fresh(e, last.id, at)] else [])
  }

  function CountFor(ds: seq<Delivery>, event: string, subscription: string): nat {
    if ds == [] then 0
    else
      var last := ds[|ds| - 1];
      CountFor(ds[..|ds| - 1], event, subscription)
          + (if last.event == event && last.subscription == subscription then 1 else 0)
  }

  predicate DistinctIds(subscriptions: seq<Subscription>) {
    forall i, j :: 0 <= i < j < |subscriptions| ==> subscriptions[i].id != subscriptions[j].id
  }

  predicate Wanted(subscriptions: seq<Subscription>, e: Event, id: string) {
    exists s <- subscriptions :: s.id == id && Matches(s, e)
  }

  /** One delivery for each active matching subscription of the event's tenant, and none for any other. */
  lemma {:induction false} FanoutExact(subscriptions: seq<Subscription>, e: Event, at: int, id: string)
    requires DistinctIds(subscriptions)
    ensures CountFor(Fanout(subscriptions, e, at), e.id, id) == if Wanted(subscriptions, e, id) then 1 else 0
  {
    if subscriptions != [] {
      var n := |subscriptions| - 1;
      var last, rest := subscriptions[n], subscriptions[..n];
      FanoutExact(rest, e, at, id);
      WantedSnoc(subscriptions, e, id);
      var added := Fanout(rest, e, at);
      if Matches(last, e) {
        assert (added + [Fresh(e, last.id, at)])[..|added|] == added;
      } else {
        assert added + [] == added;
      }
    }
  }

  lemma WantedSnoc(subscriptions: seq<Subscription>, e: Event, id: string)
    requires DistinctIds(subscriptions) && subscriptions != []
    ensures
      var n := |subscriptions| - 1;
      && (Wanted(subscriptions, e, id)
          <==> Wanted(subscriptions[..n], e, id) || (subscriptions[n].id == id && Matches(subscriptions[n], e)))
      && (subscriptions[n].id == id ==> !Wanted(subscriptions[..n], e, id))
  {
    var n := |subscriptions| - 1;
    assert subscriptions == subscriptions[..n] + [subscriptions[n]];
    assert forall s <- subscriptions[..n] :: s.id != subscriptions[n].id;
  }

  lemma {:induction false} CountAppend(a: seq<Delivery>, b: seq<Delivery>, event: string, id: string)
    ensures CountFor(a + b, event, id) == CountFor(a, event, id) + CountFor(b, event, id)
  {
    if b == [] {
      assert a + b == a;
    } else {
      var n := |b| - 1;
      CountAppend(a, b[..n], event, id);
      assert (a + b)[..|a| + n] == a + b[..n];
    }
  }

  lemma {:induction false} CountUpdate(ds: seq<Delivery>, k: nat, d: Delivery, event: string, id: string)
    requires k < |ds| && d.event == ds[k].event && d.subscription == ds[k].subscription
    ensures CountFor(ds[k := d], event, id) == CountFor(ds, event, id)
  {
    var n := |ds| - 1;
    if k < n {
      CountUpdate(ds[..n], k, d, event, id);
      assert ds[k := d][..n] == ds[..n][k := d];
    } else {
      assert ds[k := d][..n] == ds[..n];
    }
  }

  lemma {:induction false} CountAbsent(ds: seq<Delivery>, event: string, id: string)
    requires forall d <- ds :: d.event != event
    ensures CountFor(ds, event, id) == 0
  {
    if ds != [] {
      CountAbsent(ds[..|ds| - 1], event, id);
      assert ds[|ds| - 1] in ds;
    }
  }

  // ---- Runs of the outbox

  datatype Outbox = Outbox(subscriptions: seq<Subscription>, deliveries: seq<Delivery>, published: set<string>)

  datatype Step =
    | Subscribe(subscription: Subscription)
    | Disable(id: string)
    | Publish(event: Event, at: int)
    | Attempt(k: nat, outcome: Outcome, at: int)

  predicate Active(subscriptions: seq<Subscription>, id: string) {
    exists s <- subscriptions :: s.id == id && s.active
  }

  /** What the provider answers counts only while the subscription is there and active. */
  function Resolved(subscriptions: seq<Subscription>, id: string, o: Outcome): Outcome {
    if Active(subscriptions, id) then o else Gone
  }

  function Disabled(subscriptions: seq<Subscription>, id: string): (r: seq<Subscription>)
    ensures |r| == |subscriptions|
    ensures forall i :: (0 <= i < |r| ==>
      r[i] == if subscriptions[i].id == id then subscriptions[i].(active := false) else subscriptions[i])
  {
    seq(|subscriptions|, i requires 0 <= i < |subscriptions| =>
      if subscriptions[i].id == id then subscriptions[i].(active := false) else subscriptions[i])
  }

  /** Identifiers are new; an attempt is made on a due delivery. */
  predicate Enabled(o: Outbox, step: Step) {
    match step
    case Subscribe(s) => forall t <- o.subscriptions :: t.id != s.id
    case Disable(_) => true
    case Publish(e, _) => e.id !in o.published
    case Attempt(k, outcome, at) => k < |o.deliveries| && Due(o.deliveries[k], at) && !outcome.Gone?
  }

  function Next(o: Outbox, step: Step, max: int): Outbox
    requires Enabled(o, step)
  {
    match step
    case Subscribe(s) => o.(subscriptions := o.subscriptions + [s])
    case Disable(id) => o.(subscriptions := Disabled(o.subscriptions, id))
    case Publish(e, at) =>
      o.(deliveries := o.deliveries + Fanout(o.subscriptions, e, at), published := o.published + {e.id})
    case Attempt(k, outcome, at) =>
      var d := o.deliveries[k];
      o.(deliveries := o.deliveries[k := Attempted(d, Resolved(o.subscriptions, d.subscription, outcome), at, max)])
  }

  ghost predicate IsRun(states: seq<Outbox>, steps: seq<Step>, max: int) {
    && |states| == |steps| + 1
    && states[0] == Outbox([], [], {})
    && forall i {:trigger steps[i]} :: (0 <= i < |steps| ==>
         Enabled(states[i], steps[i]) && states[i + 1] == Next(states[i], steps[i], max))
  }

  /** A delivery's origin and the attempts made on it so far. */
  ghost predicate Explained(d: Delivery, max: int) {
    exists e: Event, s: string, at: int, log: seq<Try> ::
      Possible(Fresh(e, s, at), log, max) && d == After(Fresh(e, s, at), log, max)
  }

  ghost predicate Inv(o: Outbox, max: int) {
    && DistinctIds(o.subscriptions)
    && forall d <- o.deliveries :: d.event in o.published && Explained(d, max)
  }

  lemma {:induction false} FanoutIsFresh(subscriptions: seq<Subscription>, e: Event, at: int, max: int)
    ensures forall d <- Fanout(subscriptions, e, at) :: d.event == e.id && Explained(d, max)
  {
    if subscriptions != [] {
      FanoutIsFresh(subscriptions[..|subscriptions| - 1], e, at, max);
      var s := subscriptions[|subscriptions| - 1].id;
      assert Possible(Fresh(e, s, at), [], max) && Fresh(e, s, at) == After(Fresh(e, s, at), [], max);
    }
  }

  lemma AttemptExplained(d: Delivery, o: Outcome, at: int, max: int)
    requires Explained(d, max) && Due(d, at)
    ensures Explained(Attempted(d, o, at, max), max)
  {
    var e, s, t, log :| Possible(Fresh(e, s, t), log, max) && d == After(Fresh(e, s, t), log, max);
    var longer := log + [Try(at, o)];
    assert longer[..|log|] == log;
    assert Possible(Fresh(e, s, t), longer, max) && After(Fresh(e, s, t), longer, max) == Attempted(d, o, at, max);
  }

  lemma NextKeeps(o: Outbox, step: Step, max: int)
    requires Inv(o, max) && Enabled(o, step)
    ensures Inv(Next(o, step, max), max)
  {
    match step
    case Subscribe(_) =>
    case Disable(_) =>
    case Publish(e, at) => FanoutIsFresh(o.subscriptions, e, at, max);
    case Attempt(k, outcome, at) =>
      var d := o.deliveries[k];
      AttemptExplained(d, Resolved(o.subscriptions, d.subscription, outcome), at, max);
  }

  lemma {:induction false} RunKeeps(states: seq<Outbox>, steps: seq<Step>, max: int, n: nat)
    requires IsRun(states, steps, max) && n <= |steps|
    ensures Inv(states[n], max)
  {
    if n > 0 {
      RunKeeps(states, steps, max, n - 1);
      NextKeeps(states[n - 1], steps[n - 1], max);
    }
  }

  /** In every reachable state a pending delivery has attempts left, and none ever exceeds max(1, max). */
  lemma PendingHasAttemptsLeft(states: seq<Outbox>, steps: seq<Step>, max: int, n: nat, k: nat)
    requires IsRun(states, steps, max) && n <= |steps| && k < |states[n].deliveries|
    ensures states[n].deliveries[k].attempts <= Cap(max)
    ensures states[n].deliveries[k].status == Pending ==> states[n].deliveries[k].attempts < Cap(max)
  {
    RunKeeps(states, steps, max, n);
    var d := states[n].deliveries[k];
    assert Explained(d, max);
    var e, s, at, log :| Possible(Fresh(e, s, at), log, max) && d == After(Fresh(e, s, at), log, max);
    StatusFollowsOutcomes(e, s, at, log, max);
  }

  /** A delivery that is no longer pending never changes again. */
  lemma {:induction false} SettledForever(states: seq<Outbox>, steps: seq<Step>, max: int, m: nat, n: nat, k: nat)
    requires IsRun(states, steps, max) && m <= n <= |steps|
    requires k < |states[m].deliveries| && states[m].deliveries[k].status != Pending
    ensures k < |states[n].deliveries| && states[n].deliveries[k] == states[m].deliveries[k]
  {
    if m < n {
      SettledForever(states, steps, max, m, n - 1, k);
      assert states[n] == Next(states[n - 1], steps[n - 1], max);
    }
  }

  /** The subscription the delivery is for wanted the event: active, of its tenant, listing its kind. */
  predicate SentFor(subscriptions: seq<Subscription>, e: Event, d: Delivery) {
    && d.event == e.id && d.tenant == e.tenant
    && exists s <- subscriptions :: s.id == d.subscription && s.active && s.tenant == e.tenant && e.kind in s.kinds
  }

  lemma {:induction false} FanoutSentFor(subscriptions: seq<Subscription>, e: Event, at: int)
    ensures forall d <- Fanout(subscriptions, e, at) :: SentFor(subscriptions, e, d)
  {
    if subscriptions != [] {
      var n := |subscriptions| - 1;
      FanoutSentFor(subscriptions[..n], e, at);
      assert subscriptions == subscriptions[..n] + [subscriptions[n]];
      assert subscriptions[n] in subscriptions && forall s <- subscriptions[..n] :: s in subscriptions;
    }
  }

  /** Over every run each delivery is for one published event and a subscription that wanted it then: no tenant's
      event reaches another tenant's subscription. */
  lemma {:induction false} DeliveryOrigin(states: seq<Outbox>, steps: seq<Step>, max: int, n: nat, k: nat)
      returns (m: nat)
    requires IsRun(states, steps, max) && n <= |steps| && k < |states[n].deliveries|
    ensures m < n && steps[m].Publish? && SentFor(states[m].subscriptions, steps[m].event, states[n].deliveries[k])
  {
    m := n - 1;
    var o, step := states[m], steps[m];
    assert states[n] == Next(o, step, max);
    if k < |o.deliveries| {
      m := DeliveryOrigin(states, steps, max, n - 1, k);
    } else {
      FanoutSentFor(o.subscriptions, step.event, step.at);
      var added := Fanout(o.subscriptions, step.event, step.at);
      assert states[n].deliveries[k] == added[k - |o.deliveries|];
    }
  }

  /** An attempt counts as the provider answered exactly while the subscription is there and active; otherwise
      the delivery is cancelled. Nothing else changes. */
  lemma AttemptStepExactly(o: Outbox, k: nat, outcome: Outcome, at: int, max: int)
    requires Enabled(o, Attempt(k, outcome, at))
    ensures
      var d := o.deliveries[k];
      var there := exists i :: 0 <= i < |o.subscriptions| && o.subscriptions[i].id == d.subscription
                               && o.subscriptions[i].active;
      Next(o, Attempt(k, outcome, at), max)
      == o.(deliveries := o.deliveries[k := Attempted(d, if there then outcome else Gone, at, max)])
  {
    var id := o.deliveries[k].subscription;
    if Active(o.subscriptions, id) {
      var s :| s in o.subscriptions && s.id == id && s.active;
      var i :| 0 <= i < |o.subscriptions| && o.subscriptions[i] == s;
    }
    if i :| 0 <= i < |o.subscriptions| && o.subscriptions[i].id == id && o.subscriptions[i].active {
      assert o.subscriptions[i] in o.subscriptions;
    }
  }

  /** When a pending delivery may be attempted: from its publication on, and after a failure from its delay on. */
  lemma DueExactly(e: Event, s: string, at: int, log: seq<Try>, max: int, now: int)
    requires Possible(Fresh(e, s, at), log, max) && StatusOf(log, max) == Pending
    ensures Due(After(Fresh(e, s, at), log, max), now)
       <==> now >= if log == [] then at else log[|log| - 1].at + Delay(|log|) * SECOND
  {
    StatusFollowsOutcomes(e, s, at, log, max);
    AttemptsBackOff(e, s, at, log, max);
  }

  lemma NextCounts(o: Outbox, step: Step, max: int, event: string, id: string)
    requires Inv(o, max) && Enabled(o, step) && event in o.published
    ensures CountFor(Next(o, step, max).deliveries, event, id) == CountFor(o.deliveries, event, id)
    ensures event in Next(o, step, max).published
  {
    match step
    case Subscribe(_) =>
    case Disable(_) =>
    case Publish(e, at) =>
      FanoutIsFresh(o.subscriptions, e, at, max);
      CountAppend(o.deliveries, Fanout(o.subscriptions, e, at), event, id);
      CountAbsent(Fanout(o.subscriptions, e, at), event, id);
    case Attempt(k, outcome, at) =>
      CountUpdate(o.deliveries, k, Next(o, step, max).deliveries[k], event, id);
  }

  /** From its publication on, an event has exactly one delivery for each subscription that was active and
      matching then, and none for any other: the outbox never breaks its uniqueness constraint. */
  lemma {:induction false} ExactlyOneDelivery(states: seq<Outbox>, steps: seq<Step>, max: int, m: nat, n: nat,
                                              id: string)
    requires IsRun(states, steps, max) && m < n <= |steps| && steps[m].Publish?
    ensures steps[m].event.id in states[n].published
    ensures CountFor(states[n].deliveries, steps[m].event.id, id)
         == if Wanted(states[m].subscriptions, steps[m].event, id) then 1 else 0
  {
    var e := steps[m].event;
    RunKeeps(states, steps, max, n - 1);
    if n == m + 1 {
      var o := states[m];
      FanoutExact(o.subscriptions, e, steps[m].at, id);
      CountAppend(o.deliveries, Fanout(o.subscriptions, e, steps[m].at), e.id, id);
      CountAbsent(o.deliveries, e.id, id);
    } else {
      ExactlyOneDelivery(states, steps, max, m, n - 1, id);
      NextCounts(states[n - 1], steps[n - 1], max, e.id, id);
    }
  }

  /** Once disabled, a subscription stays so: nothing is delivered to it any more, and no delivery for it is
      ever created. */
  lemma {:induction false} NothingReachesDisabled(states: seq<Outbox>, steps: seq<Step>, max: int, m: nat, n: nat,
                                                  id: string)
    requires IsRun(states, steps, max) && m < n <= |steps|
    requires steps[m] == Disable(id) && exists s <- states[m].subscriptions :: s.id == id
    ensures !Active(states[n].subscriptions, id) && exists s <- states[n].subscriptions :: s.id == id
    ensures forall k :: (0 <= k < |states[n].deliveries| && states[n].deliveries[k].subscription == id ==>
      && k < |states[m].deliveries|
      && (states[n].deliveries[k].status == Delivered ==> states[m].deliveries[k].status == Delivered))
  {
    var o := states[n - 1];
    if n == m + 1 {
      var i :| 0 <= i < |o.subscriptions| && o.subscriptions[i].id == id;
      assert states[n].subscriptions[i].id == id;
    } else {
      NothingReachesDisabled(states, steps, max, m, n - 1, id);
      DisabledStep(o, steps[n - 1], max, id);
      DeliveriesGrow(states, steps, max, m, n - 1);
    }
  }

  lemma {:induction false} FanoutSkipsDisabled(subscriptions: seq<Subscription>, e: Event, at: int, id: string)
    requires !Active(subscriptions, id)
    ensures forall d <- Fanout(subscriptions, e, at) :: d.subscription != id
  {
    if subscriptions != [] {
      var n := |subscriptions| - 1;
      assert subscriptions == subscriptions[..n] + [subscriptions[n]];
      FanoutSkipsDisabled(subscriptions[..n], e, at, id);
    }
  }

  lemma {:induction false} DeliveriesGrow(states: seq<Outbox>, steps: seq<Step>, max: int, m: nat, n: nat)
    requires IsRun(states, steps, max) && m <= n <= |steps|
    ensures |states[m].deliveries| <= |states[n].deliveries|
  {
    if m < n {
      DeliveriesGrow(states, steps, max, m, n - 1);
      assert states[n] == Next(states[n - 1], steps[n - 1], max);
    }
  }

  lemma DisabledStep(o: Outbox, step: Step, max: int, id: string)
    requires Enabled(o, step) && !Active(o.subscriptions, id) && exists s <- o.subscriptions :: s.id == id
    ensures
      var after := Next(o, step, max);
      && !Active(after.subscriptions, id) && (exists s <- after.subscriptions :: s.id == id)
      && |o.deliveries| <= |after.deliveries|
      && (forall k :: 0 <= k < |o.deliveries| ==> after.deliveries[k].subscription == o.deliveries[k].subscription)
      && (forall k :: (0 <= k < |o.deliveries| && after.deliveries[k].subscription == id
                       && after.deliveries[k].status == Delivered
                       ==> o.deliveries[k].status == Delivered))
      && (forall k :: |o.deliveries| <= k < |after.deliveries| ==> after.deliveries[k].subscription != id)
  {
    if step.Publish? {
      FanoutSkipsDisabled(o.subscriptions, step.event, step.at, id);
    }
    var i :| 0 <= i < |o.subscriptions| && o.subscriptions[i].id == id;
    assert Next(o, step, max).subscriptions[i].id == id;
  }

  /** Where a list of steps leads, if each is enabled when it is taken. */
  function Walk(o: Outbox, steps: seq<Step>, max: int): Option<Outbox> {
    if steps == [] then Some(o)
    else
      var n := |steps| - 1;
      match Walk(o, steps[..n], max)
      case None => None
      case Some(t) => if Enabled(t, steps[n]) then Some(Next(t, steps[n], max)) else None
  }

  lemma WalkSnoc(o: Outbox, steps: seq<Step>, t: Outbox, step: Step, max: int)
    requires Walk(o, steps, max) == Some(t) && Enabled(t, step)
    ensures Walk(o, steps + [step], max) == Some(Next(t, step, max))
  {
    assert (steps + [step])[..|steps|] == steps;
  }

  /** What the class has walked is a run, so everything proved of runs holds of it. */
  lemma {:induction false} WalkIsRun(steps: seq<Step>, t: Outbox, max: int) returns (states: seq<Outbox>)
    requires Walk(EMPTY, steps, max) == Some(t)
    ensures IsRun(states, steps, max) && states[|steps|] == t
  {
    if steps == [] {
      states := [EMPTY];
    } else {
      var n := |steps| - 1;
      var before := Walk(EMPTY, steps[..n], max).value;
      var earlier := WalkIsRun(steps[..n], before, max);
      states := earlier + [t];
      assert forall i :: 0 <= i < n ==> steps[i] == steps[..n][i];
    }
  }

  const EMPTY := Outbox([], [], {})

  function AttemptSteps(picked: seq<nat>, answers: nat -> Outcome, now: int): seq<Step> {
    seq(|picked|, i requires 0 <= i < |picked| => Attempt(picked[i], answers(picked[i]), now))
  }

  // ---- The outbox as the source keeps it

  /** The due deliveries, earliest first, no more than the bound; those left out are no earlier. */
  ghost predicate Selected(ds: seq<Delivery>, picked: seq<nat>, now: int, bound: nat) {
    && |picked| <= bound
    && (forall i :: 0 <= i < |picked| ==> picked[i] < |ds| && Due(ds[picked[i]], now))
    && (forall i, j :: 0 <= i < j < |picked| ==> picked[i] != picked[j] && ds[picked[i]].nextAt <= ds[picked[j]].nextAt)
    && (forall k | 0 <= k < |ds| && Due(ds[k], now) && k !in picked :: (
          |picked| == bound && forall i :: 0 <= i < |picked| ==> ds[picked[i]].nextAt <= ds[k].nextAt))
  }

  /** The listed deliveries were attempted once each, everything else stayed. */
  ghost predicate BatchDone(before: Outbox, after: seq<Delivery>, due: seq<nat>, answers: nat -> Outcome, now: int,
                            max: int) {
    && |after| == |before.deliveries|
    && forall k :: (0 <= k < |after| ==>
         var d := before.deliveries[k];
         after[k] == if k in due then Attempted(d, Resolved(before.subscriptions, d.subscription, answers(k)), now, max)
             else d)
  }

  lemma BatchGrows(before: Outbox, after: seq<Delivery>, due: seq<nat>, i: nat, answers: nat -> Outcome, now: int,
                   max: int)
    requires i < |due| && BatchDone(before, after, due[..i], answers, now, max) && due[i] < |after|
    requires forall j, k :: 0 <= j < k < |due| ==> due[j] != due[k]
    ensures after[due[i]] == before.deliveries[due[i]]
    ensures
      var d := before.deliveries[due[i]];
      var attempted := Attempted(d, Resolved(before.subscriptions, d.subscription, answers(due[i])), now, max);
      BatchDone(before, after[due[i] := attempted], due[..i + 1], answers, now, max)
  {
    assert due[..i + 1] == due[..i] + [due[i]] && due[i] !in due[..i];
  }

  lemma AttemptStepsGrow(due: seq<nat>, i: nat, answers: nat -> Outcome, now: int)
    requires i < |due|
    ensures AttemptSteps(due[..i + 1], answers, now)
        == AttemptSteps(due[..i], answers, now) + [Attempt(due[i], answers(due[i]), now)]
  {
  }

  class WebhookOutbox {
    var subscriptions: seq<Subscription>
    var deliveries: seq<Delivery>
    ghost var published: set<string>
    ghost var history: seq<Step>
    const max: int

    ghost function View(): Outbox
      reads this
    {
      Outbox(subscriptions, deliveries, published)
    }

    /** The tables are where the history leads. */
    ghost predicate Valid()
      reads this
    {
      Walk(EMPTY, history, max) == Some(View())
    }

    constructor (max: int)
      ensures Valid() && View() == EMPTY && history == [] && this.max == max
    {
      subscriptions, deliveries, published, history, this.max := [], [], {}, [], max;
    }

    method CreateSubscription(s: Subscription)
      requires Valid() && forall t <- subscriptions :: t.id != s.id
      modifies this
      ensures Valid() && history == old(history) + [Subscribe(s)]
      ensures View() == Next(old(View()), Subscribe(s), max)
    {
      WalkSnoc(EMPTY, history, View(), Subscribe(s), max);
      subscriptions := subscriptions + [s];
      history := history + [Subscribe(s)];
    }

    method DisableSubscription(id: string)
      requires Valid()
      modifies this
      ensures Valid() && history == old(history) + [Disable(id)]
      ensures View() == Next(old(View()), Disable(id), max)
    {
      WalkSnoc(EMPTY, history, View(), Disable(id), max);
      subscriptions := Disabled(subscriptions, id);
      history := history + [Disable(id)];
    }

    method PublishEvent(e: Event, at: int)
      requires Valid() && e.id !in published
      modifies this
      ensures Valid() && history == old(history) + [Publish(e, at)]
      ensures View() == Next(old(View()), Publish(e, at), max)
    {
      WalkSnoc(EMPTY, history, View(), Publish(e, at), max);
      for i := 0 to |subscriptions|
        invariant subscriptions == old(subscriptions) && published == old(published) && history == old(history)
        invariant deliveries == old(deliveries) + Fanout(subscriptions[..i], e, at)
      {
        assert subscriptions[..i + 1][..i] == subscriptions[..i];
        if Matches(subscriptions[i], e) {
          deliveries := deliveries + [Fresh(e, subscriptions[i].id, at)];
        }
      }
      assert subscriptions[..|subscriptions|] == subscriptions;
      published := published + {e.id};
      history := history + [Publish(e, at)];
    }

    method Fail(k: nat, retryable: bool, now: int)
      requires k < |deliveries|
      modifies this`deliveries
      ensures View()
          == old(View()).(deliveries := old(deliveries)[k := Failed(old(deliveries[k]), retryable, now, max)])
    {
      var d := deliveries[k];
      if !retryable || d.attempts >= max {
        deliveries := deliveries[k := d.(status := DeadLetter)];
        return;
      }
      var delay := Min(3600, Pow2(Min(d.attempts, 11)));
      deliveries := deliveries[k := d.(nextAt := now + delay * SECOND)];
    }

    method Deliver(k: nat, outcome: Outcome, now: int)
      requires k < |deliveries| && !outcome.Gone?
      modifies this`deliveries
      ensures View() == old(View()).(deliveries := old(deliveries)[k :=
        Attempted(old(deliveries[k]), Resolved(subscriptions, old(deliveries[k]).subscription, outcome), now, max)])
    {
      var d := deliveries[k];
      d := d.(attempts := d.attempts + 1, lastAt := Some(now));
      deliveries := deliveries[k := d];
      if !Active(subscriptions, d.subscription) {
        deliveries := deliveries[k := d.(status := Cancelled)];
      } else if outcome.Raised? {
        Fail(k, true, now);
      } else if 200 <= outcome.code < 300 {
        deliveries := deliveries[k := d.(status := Delivered, deliveredAt := Some(now))];
      } else {
        Fail(k, outcome.code in {408, 425, 429} || outcome.code >= 500, now);
      }
    }

    method Earliest(picked: seq<nat>, now: int) returns (best: Option<nat>)
      ensures best.None? ==> forall k :: 0 <= k < |deliveries| && Due(deliveries[k], now) ==> k in picked
      ensures best.Some? ==>
        && best.value < |deliveries| && Due(deliveries[best.value], now) && best.value !in picked
        && forall k | 0 <= k < |deliveries| && Due(deliveries[k], now) && k !in picked ::
             deliveries[best.value].nextAt <= deliveries[k].nextAt
    {
      best := None;
      for i := 0 to |deliveries|
        invariant best.None? ==> forall k :: 0 <= k < i && Due(deliveries[k], now) ==> k in picked
        invariant best.Some? ==>
          && best.value < i && Due(deliveries[best.value], now) && best.value !in picked
          && forall k | 0 <= k < i && Due(deliveries[k], now) && k !in picked ::
               deliveries[best.value].nextAt <= deliveries[k].nextAt
      {
        if Due(deliveries[i], now) && i !in picked
            && (best.None? || deliveries[i].nextAt < deliveries[best.value].nextAt) {
          best := Some(i);
        }
      }
    }

    method SelectDue(now: int, bound: nat) returns (picked: seq<nat>)
      ensures Selected(deliveries, picked, now, bound)
    {
      picked := [];
      while |picked| < bound
        invariant |picked| <= bound
        invariant forall i :: 0 <= i < |picked| ==> picked[i] < |deliveries| && Due(deliveries[picked[i]], now)
        invariant forall i, j :: (0 <= i < j < |picked| ==>
          picked[i] != picked[j] && deliveries[picked[i]].nextAt <= deliveries[picked[j]].nextAt)
        invariant forall k | 0 <= k < |deliveries| && Due(deliveries[k], now) && k !in picked ::
          forall i :: 0 <= i < |picked| ==> deliveries[picked[i]].nextAt <= deliveries[k].nextAt
        decreases bound - |picked|
      {
        var best := Earliest(picked, now);
        if best.None? {
          return;
        }
        picked := picked + [best.value];
      }
    }

    /** Attempts the selected deliveries one after the other, each a step of the history. */
    method AttemptAll(now: int, due: seq<nat>, answers: nat -> Outcome)
      requires Valid() && forall k :: !answers(k).Gone?
      requires forall i :: 0 <= i < |due| ==> due[i] < |deliveries| && Due(deliveries[due[i]], now)
      requires forall i, j :: 0 <= i < j < |due| ==> due[i] != due[j]
      modifies this`deliveries, this`history
      ensures Valid() && history == old(history) + AttemptSteps(due, answers, now)
      ensures BatchDone(old(View()), deliveries, due, answers, now, max)
    {
      for i := 0 to |due|
        invariant Valid() && history == old(history) + AttemptSteps(due[..i], answers, now)
        invariant BatchDone(old(View()), deliveries, due[..i], answers, now, max)
      {
        BatchGrows(old(View()), deliveries, due, i, answers, now, max);
        AttemptOne(due[i], answers(due[i]), now);
        AttemptStepsGrow(due, i, answers, now);
      }
      assert due[..|due|] == due;
    }

    method AttemptOne(k: nat, outcome: Outcome, now: int)
      requires Valid() && k < |deliveries| && Due(deliveries[k], now) && !outcome.Gone?
      modifies this`deliveries, this`history
      ensures Valid() && history == old(history) + [Attempt(k, outcome, now)]
      ensures View() == Next(old(View()), Attempt(k, outcome, now), max)
    {
      WalkSnoc(EMPTY, history, View(), Attempt(k, outcome, now), max);
      Deliver(k, outcome, now);
      history := history + [Attempt(k, outcome, now)];
    }

    /** One batch: every selected delivery is attempted once, everything else stays. */
    method ProcessBatch(now: int, limit: int, answers: nat -> Outcome) returns (processed: nat, ghost picked: seq<nat>)
      requires Valid() && forall k :: !answers(k).Gone?
      modifies this`deliveries, this`history
      ensures Valid() && history == old(history) + AttemptSteps(picked, answers, now)
      ensures processed == |picked|
      ensures Selected(old(deliveries), picked, now, if limit < 1 then 1 else if limit > 100 then 100 else limit)
      ensures BatchDone(old(View()), deliveries, picked, answers, now, max)
    {
      var bound := if limit < 1 then 1 else if limit > 100 then 100 else limit;
      var due := SelectDue(now, bound);
      AttemptAll(now, due, answers);
      picked := due;
      processed := |due|;
    }
  }
}
