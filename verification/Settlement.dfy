/**
  What happens to a message its handler keeps failing: retries within a delivery, then the
  dead-letter topic, the delivery limit, or another delivery; and what that means over all
  the deliveries of a message.
 */
module Settlement {

  datatype Result = Ack | Nack | Ignore | Reject

  /** What one call of the handler does. */
  datatype Call = Returns(r: Result) | Panics

  /** deadLetters says whether a dead-letter topic is set. */
  datatype Config = Config(maxRetries: int, maxDeliveries: int, deadLetters: bool)

  const DEFAULT_MAX_DELIVERIES := 10

  /** The effective delivery limit; 0 is none. */
  function DeliveryLimit(c: Config): nat {
    if c.maxDeliveries < 0 then 0
    else if c.maxDeliveries == 0 && !c.deadLetters then 0
    else if c.maxDeliveries == 0 then DEFAULT_MAX_DELIVERIES
    else c.maxDeliveries
  }

  predicate LimitReached(c: Config, count: int) {
    DeliveryLimit(c) > 0 && count >= DeliveryLimit(c)
  }

  /** One delivery of the message: the broker's count, what the handler does at each call,
      after which calls shutdown ends the wait, whether shutdown has begun when the retries
      are over, and whether the dead-letter topic can be written. */
  datatype Delivery = Delivery(count: int, calls: nat -> Call, stops: nat -> bool, ended: bool, published: bool)

  /** A panic counts as a Nack. */
  function Outcome(d: Delivery, attempt: nat): Result {
    match d.calls(attempt)
    case Returns(r) => r
    case Panics => Nack
  }

  /** The retries end with this attempt (the first is 1). */
  predicate LastAttempt(c: Config, d: Delivery, attempt: nat) {
    Outcome(d, attempt) != Nack || attempt > c.maxRetries || d.stops(attempt)
  }

  function MaxAttempts(c: Config): (n: nat)
    ensures n >= 1
  {
    if c.maxRetries > 0 then c.maxRetries + 1 else 1
  }

  /** The retry loop. */
  method Retry(c: Config, d: Delivery) returns (r: Result, attempts: nat)
    ensures 1 <= attempts <= MaxAttempts(c)
    ensures LastAttempt(c, d, attempts) && r == Outcome(d, attempts)
    ensures forall a: nat | 1 <= a < attempts :: !LastAttempt(c, d, a)
  {
    attempts := 0;
    while true
      invariant attempts < MaxAttempts(c)
      invariant forall a: nat | 1 <= a <= attempts :: !LastAttempt(c, d, a)
      decreases MaxAttempts(c) - attempts
    {
      attempts := attempts + 1;
      r := Outcome(d, attempts);
      if r != Nack || attempts > c.maxRetries {
        return;
      }
      if d.stops(attempts) {
        return;
      }
    }
  }

  /** The number of calls of the handler, counting from the given attempt. */
  function Attempts(c: Config, d: Delivery, attempt: nat): (n: nat)
    requires 1 <= attempt <= MaxAttempts(c)
    ensures attempt <= n <= MaxAttempts(c)
    ensures LastAttempt(c, d, n) && forall a: nat | attempt <= a < n :: !LastAttempt(c, d, a)
    decreases MaxAttempts(c) - attempt
  {
    if LastAttempt(c, d, attempt) then attempt else Attempts(c, d, attempt + 1)
  }

  /** What the handler made of the delivery. */
  function Handled(c: Config, d: Delivery): Result {
    Outcome(d, Attempts(c, d, 1))
  }

  /** The delivery ends with a copy in the dead-letter topic. */
  predicate Copied(c: Config, d: Delivery) {
    Handled(c, d) == Nack && !d.ended && c.deadLetters && d.published
  }

  function SettleNack(c: Config, d: Delivery): Result {
    if c.deadLetters then (if d.published then Ack else Nack)
    else if LimitReached(c, d.count) then Reject
    else Nack
  }

  /** What the broker is told. */
  function Settled(c: Config, d: Delivery): Result {
    if Handled(c, d) == Nack && !d.ended then SettleNack(c, d) else Handled(c, d)
  }

  method Handle(c: Config, d: Delivery) returns (r: Result, attempts: nat, copied: bool)
    ensures r == Settled(c, d) && attempts == Attempts(c, d, 1) && copied == Copied(c, d)
    ensures forall n: nat, x | SettlesAt(c, d, n, x) :: r == x
    ensures ByDeadLetter(c, d) ==> r == Ack
    ensures ByLimit(c, d) ==> r == Reject
    ensures !Out(c, d) ==> r == Nack
  {
    r, attempts := Retry(c, d);
    AttemptsUnique(c, d, attempts);
    ToldExactly(c, d);
    copied := false;
    if r == Nack && !d.ended {
      if c.deadLetters {
        copied := d.published;
        r := if copied then Ack else Nack;
      } else if LimitReached(c, d.count) {
        r := Reject;
      }
    }
  }

  lemma {:induction false} AttemptsUnique(c: Config, d: Delivery, n: nat)
    requires 1 <= n <= MaxAttempts(c) && LastAttempt(c, d, n) && forall a: nat | 1 <= a < n :: !LastAttempt(c, d, a)
    ensures Attempts(c, d, 1) == n
  {
    hide LastAttempt;
    var m := Attempts(c, d, 1);
    assert !(m < n) && !(n < m);
  }

  // ----- the three ways out of the queue -----

  predicate Leaves(r: Result) {
    r != Nack
  }

  /** A call fails by returning Nack or by a panic. */
  predicate Fails(d: Delivery, n: nat) {
    d.calls(n) == Returns(Nack) || d.calls(n) == Panics
  }

  /** The calls before the n-th failed, a wait followed each, and one more was allowed. */
  ghost predicate FailedUntil(c: Config, d: Delivery, n: nat) {
    && (n == 1 || 1 < n <= c.maxRetries + 1)
    && forall a: nat | 1 <= a < n :: Fails(d, a) && !d.stops(a)
  }

  /** The n-th call, made after failures, settles the message itself. */
  ghost predicate SettlesAt(c: Config, d: Delivery, n: nat, r: Result) {
    FailedUntil(c, d, n) && d.calls(n) == Returns(r) && r != Nack
  }

  /** Some call of the handler settled the message itself. */
  ghost predicate ByHandler(c: Config, d: Delivery) {
    exists n: nat, r :: SettlesAt(c, d, n, r)
  }

  /** Every call failed, up to the last one allowed or the one before shutdown. */
  ghost predicate AllFailed(c: Config, d: Delivery) {
    exists n: nat :: FailedUntil(c, d, n) && Fails(d, n) && (n > c.maxRetries || d.stops(n))
  }

  ghost predicate ByDeadLetter(c: Config, d: Delivery) {
    AllFailed(c, d) && !d.ended && c.deadLetters && d.published
  }

  ghost predicate ByLimit(c: Config, d: Delivery) {
    AllFailed(c, d) && !d.ended && !c.deadLetters && c.maxDeliveries > 0 && d.count >= c.maxDeliveries
  }

  ghost predicate Out(c: Config, d: Delivery) {
    ByHandler(c, d) || ByDeadLetter(c, d) || ByLimit(c, d)
  }

  /** The handler settles a message or all its calls fail, and not both. */
  lemma {:induction false} HandledExactly(c: Config, d: Delivery)
    ensures ByHandler(c, d) <==> Handled(c, d) != Nack
    ensures AllFailed(c, d) <==> Handled(c, d) == Nack
    ensures forall n: nat, r | SettlesAt(c, d, n, r) :: r == Handled(c, d)
  {
    hide Attempts, LastAttempt, FailedUntil;
    var n := Attempts(c, d, 1);
    LastIsFirst(c, d, n);
    Answers(c, d, n);
    if Handled(c, d) != Nack {
      assert SettlesAt(c, d, n, Handled(c, d));
    }
    forall m: nat | FailedUntil(c, d, m) && (!Fails(d, m) || m > c.maxRetries || d.stops(m))
      ensures m == n
    {
      EndsAt(c, d, m);
    }
  }

  lemma {:induction false} LastIsFirst(c: Config, d: Delivery, n: nat)
    requires n == Attempts(c, d, 1)
    ensures FailedUntil(c, d, n)
  {
    hide Attempts;
    forall a: nat | 1 <= a < n
      ensures Fails(d, a) && !d.stops(a)
    {
      assert !LastAttempt(c, d, a);
    }
  }

  lemma {:induction false} Answers(c: Config, d: Delivery, n: nat)
    ensures Fails(d, n) <==> Outcome(d, n) == Nack
    ensures !Fails(d, n) ==> d.calls(n) == Returns(Outcome(d, n))
    ensures n == Attempts(c, d, 1) && Fails(d, n) ==> n > c.maxRetries || d.stops(n)
  {
  }

  lemma {:induction false} EndsAt(c: Config, d: Delivery, n: nat)
    requires FailedUntil(c, d, n) && (!Fails(d, n) || n > c.maxRetries || d.stops(n))
    ensures n == Attempts(c, d, 1)
  {
    hide Attempts;
    forall a: nat | 1 <= a < n
      ensures !LastAttempt(c, d, a)
    {
      assert Fails(d, a) && !d.stops(a);
    }
    assert LastAttempt(c, d, n);
    AttemptsUnique(c, d, n);
  }

  lemma {:induction false} LimitIs(c: Config, count: int)
    ensures !c.deadLetters ==> (LimitReached(c, count) <==> c.maxDeliveries > 0 && count >= c.maxDeliveries)
    ensures c.deadLetters ==>
              (LimitReached(c, count) <==> if c.maxDeliveries == 0 then count >= 10
                                           else c.maxDeliveries > 0 && count >= c.maxDeliveries)
  {
  }

  /** What the broker is told: what the handler made of the message, Ack for a message that
      was copied to the dead-letter topic, Reject for one at its limit without such a topic,
      and Nack for every other. */
  lemma {:induction false} ToldExactly(c: Config, d: Delivery)
    ensures forall n: nat, r | SettlesAt(c, d, n, r) :: Settled(c, d) == r
    ensures ByDeadLetter(c, d) ==> Settled(c, d) == Ack
    ensures ByLimit(c, d) ==> Settled(c, d) == Reject
    ensures !Out(c, d) ==> Settled(c, d) == Nack
  {
    hide Handled, SettlesAt, AllFailed, LimitReached;
    HandledExactly(c, d);
    LimitIs(c, d.count);
    forall n: nat, r | SettlesAt(c, d, n, r)
      ensures Settled(c, d) == r
    {
      assert ByHandler(c, d);
    }
  }

  /** One delivery: the three ways are what the code does, and no two happen at once. */
  lemma {:induction false} OutExactly(c: Config, d: Delivery)
    ensures Leaves(Settled(c, d)) <==> Out(c, d)
    ensures Copied(c, d) <==> ByDeadLetter(c, d)
    ensures !(ByHandler(c, d) && ByDeadLetter(c, d)) && !(ByHandler(c, d) && ByLimit(c, d))
    ensures !(ByDeadLetter(c, d) && ByLimit(c, d))
  {
    hide Handled, ByHandler, AllFailed, LimitReached;
    HandledExactly(c, d);
    LimitIs(c, d.count);
  }

  // ----- over all deliveries -----

  /** The calls of the handler over the deliveries, up to the one after which it leaves. */
  function TotalCalls(c: Config, ds: seq<Delivery>): nat {
    if ds == [] then 0
    else Attempts(c, ds[0], 1) + (if Leaves(Settled(c, ds[0])) then 0 else TotalCalls(c, ds[1..]))
  }

  /** The broker delivers the message again for as long as it is told Nack. */
  predicate LeavesWithin(c: Config, ds: seq<Delivery>) {
    ds != [] && (Leaves(Settled(c, ds[0])) || LeavesWithin(c, ds[1..]))
  }

  /** The copies in the dead-letter topic, each by the count of its delivery. */
  function Topic(c: Config, ds: seq<Delivery>): seq<int> {
    if ds == [] then []
    else
      var rest := if Leaves(Settled(c, ds[0])) then [] else Topic(c, ds[1..]);
      if Copied(c, ds[0]) then [ds[0].count] + rest else rest
  }

  /** The message leaves with delivery i: no earlier one lets it go. */
  ghost predicate OutAt(c: Config, ds: seq<Delivery>, i: nat) {
    i < |ds| && Out(c, ds[i]) && forall j | 0 <= j < i :: !Out(c, ds[j])
  }

  lemma {:induction false} OutAtTail(c: Config, ds: seq<Delivery>, i: nat)
    requires ds != []
    ensures OutAt(c, ds, 0) <==> Out(c, ds[0])
    ensures i > 0 ==> (OutAt(c, ds, i) <==> !Out(c, ds[0]) && OutAt(c, ds[1..], i - 1))
  {
    hide Out;
    if i > 0 && !Out(c, ds[0]) && OutAt(c, ds[1..], i - 1) {
      forall j | 0 <= j < i
        ensures !Out(c, ds[j])
      {
        if j > 0 {
          assert ds[j] == ds[1..][j - 1];
        }
      }
    }
    if i > 0 && OutAt(c, ds, i) {
      assert forall j | 0 <= j < i - 1 :: ds[1..][j] == ds[j + 1];
    }
  }

  /** Over any deliveries a message leaves exactly with the first one on which the handler
      settles it, or it is copied to the dead-letter topic, or it is at its limit without
      such a topic. */
  lemma {:induction false} LeavesExactly(c: Config, ds: seq<Delivery>)
    ensures LeavesWithin(c, ds) <==> exists i: nat :: OutAt(c, ds, i)
  {
    hide Out, OutAt, Settled;
    if ds == [] {
      assert forall i: nat :: !OutAt(c, ds, i) by { NothingOut(c); }
    } else {
      OutExactly(c, ds[0]);
      OutAtTail(c, ds, 0);
      LeavesExactly(c, ds[1..]);
      if LeavesWithin(c, ds) && !Out(c, ds[0]) {
        var i: nat :| OutAt(c, ds[1..], i);
        OutAtTail(c, ds, i + 1);
        assert OutAt(c, ds, i + 1);
      }
      forall i: nat | OutAt(c, ds, i)
        ensures LeavesWithin(c, ds)
      {
        OutAtTail(c, ds, i);
        if i > 0 {
          assert OutAt(c, ds[1..], i - 1);
        }
      }
    }
  }

  /** What the broker hears over the deliveries. */
  function Heard(c: Config, ds: seq<Delivery>): seq<Result> {
    if ds == [] then []
    else [Settled(c, ds[0])] + if Leaves(Settled(c, ds[0])) then [] else Heard(c, ds[1..])
  }

  /** The answer for a delivery with which a message leaves. */
  ghost predicate Answer(c: Config, d: Delivery, r: Result) {
    || (exists n: nat :: SettlesAt(c, d, n, r))
    || (ByDeadLetter(c, d) && r == Ack)
    || (ByLimit(c, d) && r == Reject)
  }

  lemma {:induction false} AnswerIs(c: Config, d: Delivery)
    requires Out(c, d)
    ensures Answer(c, d, Settled(c, d))
  {
    hide SettlesAt, ByDeadLetter, ByLimit, Settled;
    ToldExactly(c, d);
    if ByHandler(c, d) {
      var n: nat, r :| SettlesAt(c, d, n, r);
      assert SettlesAt(c, d, n, Settled(c, d));
    }
  }

  /** The broker hears Nack for every delivery but the last, and with the last one what the
      handler, the dead-letter topic or the limit makes of the message; a message that does
      not leave is nacked each time. */
  lemma {:induction false} HeardExactly(c: Config, ds: seq<Delivery>)
    ensures forall i: nat | OutAt(c, ds, i) ::
              |Heard(c, ds)| == i + 1 && (forall j | 0 <= j < i :: Heard(c, ds)[j] == Nack)
              && Answer(c, ds[i], Heard(c, ds)[i])
    ensures (forall i: nat :: !OutAt(c, ds, i)) ==>
              |Heard(c, ds)| == |ds| && forall j | 0 <= j < |ds| :: Heard(c, ds)[j] == Nack
  {
    hide Out, OutAt, Settled, Answer;
    if ds != [] {
      OutExactly(c, ds[0]);
      ToldExactly(c, ds[0]);
      if Out(c, ds[0]) {
        AnswerIs(c, ds[0]);
      }
      OutAtTail(c, ds, 0);
      HeardExactly(c, ds[1..]);
      forall i: nat | OutAt(c, ds, i)
        ensures |Heard(c, ds)| == i + 1 && (forall j | 0 <= j < i :: Heard(c, ds)[j] == Nack)
        ensures i < |ds| && Answer(c, ds[i], Heard(c, ds)[i])
      {
        InRange(c, ds, i);
        OutAtTail(c, ds, i);
      }
      if (forall i: nat :: !OutAt(c, ds, i)) && exists i: nat :: OutAt(c, ds[1..], i) {
        var i: nat :| OutAt(c, ds[1..], i);
        OutAtTail(c, ds, i + 1);
        assert false;
      }
    } else {
      NothingOut(c);
    }
  }

  lemma {:induction false} NothingOut(c: Config)
    ensures forall i: nat :: !OutAt(c, [], i)
  {
  }

  /** Nothing is lost and nothing is copied twice: the topic holds one copy when the message
      left by dead-lettering, made from that delivery, and none otherwise. */
  lemma {:induction false} CopiedOnceOrNever(c: Config, ds: seq<Delivery>)
    ensures Topic(c, ds) == [] <==> !exists i: nat :: OutAt(c, ds, i) && ByDeadLetter(c, ds[i])
    ensures forall i: nat | OutAt(c, ds, i) && ByDeadLetter(c, ds[i]) :: Topic(c, ds) == [ds[i].count]
    ensures |Topic(c, ds)| <= 1
  {
    if LeavesWithin(c, ds) {
      LeavesExactly(c, ds);
      var i: nat :| OutAt(c, ds, i);
      TopicAt(c, ds, i);
      forall j: nat | OutAt(c, ds, j)
        ensures j == i
      {
        FirstIsOne(c, ds, i, j);
      }
    } else {
      LeavesExactly(c, ds);
      NoTopic(c, ds);
    }
  }

  lemma {:induction false} FirstIsOne(c: Config, ds: seq<Delivery>, i: nat, j: nat)
    requires OutAt(c, ds, i) && OutAt(c, ds, j)
    ensures i == j
  {
    hide Out;
    assert !(i < j) && !(j < i);
  }

  lemma {:induction false} TopicAt(c: Config, ds: seq<Delivery>, i: nat)
    requires OutAt(c, ds, i)
    ensures Topic(c, ds) == if ByDeadLetter(c, ds[i]) then [ds[i].count] else []
  {
    hide Out, OutAt, Settled, Copied, ByDeadLetter;
    assert ds != [] by { NothingOut(c); }
    OutAtTail(c, ds, i);
    OutExactly(c, ds[0]);
    StaysUncopied(c, ds[0]);
    if i > 0 {
      InRange(c, ds, i);
      TopicAt(c, ds[1..], i - 1);
    }
  }

  lemma {:induction false} InRange(c: Config, ds: seq<Delivery>, i: nat)
    requires OutAt(c, ds, i)
    ensures i < |ds|
  {
  }

  lemma {:induction false} StaysUncopied(c: Config, d: Delivery)
    ensures Copied(c, d) ==> Leaves(Settled(c, d))
  {
    hide Handled;
  }

  lemma {:induction false} NoTopic(c: Config, ds: seq<Delivery>)
    requires !LeavesWithin(c, ds)
    ensures Topic(c, ds) == []
  {
    hide Settled, Copied;
    if ds != [] {
      StaysUncopied(c, ds[0]);
      NoTopic(c, ds[1..]);
    }
  }

  // ----- the delivery limit -----

  /** The broker counts deliveries, from at least first. */
  predicate Counting(ds: seq<Delivery>, first: int) {
    ds != [] ==> ds[0].count >= first && Counting(ds[1..], ds[0].count + 1)
  }

  predicate NoShutdown(ds: seq<Delivery>) {
    forall i | 0 <= i < |ds| :: !ds[i].ended
  }

  /** How often one delivery may call the handler. */
  function Tries(c: Config): nat {
    1 + if c.maxRetries > 0 then c.maxRetries else 0
  }

  /** With a limit and no dead-letter topic, a message is delivered at most as often as the
      limit says and its handler called at most limit times the attempts of one delivery. */
  lemma {:induction false} LimitBoundsCalls(c: Config, ds: seq<Delivery>, first: int)
    requires 1 <= first <= c.maxDeliveries && !c.deadLetters && Counting(ds, first) && NoShutdown(ds)
    ensures TotalCalls(c, ds) <= (c.maxDeliveries - first + 1) * Tries(c)
    ensures |ds| >= c.maxDeliveries - first + 1 ==> LeavesWithin(c, ds)
    decreases |ds|
  {
    hide DeliveryLimit, Attempts, Handled, LeavesWithin;
    var limit, most := c.maxDeliveries, Tries(c);
    if ds == [] {
      Sums(0, 0, 0, limit - first + 1, most);
    } else {
      LeavesAtLimit(c, ds[0]);
      LeavesStep(c, ds);
      var n := Attempts(c, ds[0], 1);
      if Leaves(Settled(c, ds[0])) {
        Sums(n, 0, 0, limit - first + 1, most);
      } else {
        var next := ds[0].count + 1;
        LimitBoundsCalls(c, ds[1..], next);
        Sums(n, TotalCalls(c, ds[1..]), limit - next + 1, limit - first + 1, most);
      }
    }
  }

  lemma {:induction false} LeavesStep(c: Config, ds: seq<Delivery>)
    requires ds != []
    ensures LeavesWithin(c, ds) <==> Leaves(Settled(c, ds[0])) || LeavesWithin(c, ds[1..])
  {
  }

  lemma {:induction false} LeavesAtLimit(c: Config, d: Delivery)
    requires c.maxDeliveries > 0 && !c.deadLetters && !d.ended
    ensures d.count >= c.maxDeliveries ==> Leaves(Settled(c, d))
  {
    hide Attempts;
  }

  lemma {:induction false} Sums(n: nat, rest: nat, a: nat, b: nat, most: nat)
    requires n <= most && rest <= a * most && (a + 1 <= b || (n == 0 && a <= b))
    ensures n + rest <= b * most
  {
    if a + 1 <= b {
      Times(a + 1, b, most);
      assert (a + 1) * most == a * most + most;
    } else {
      Times(a, b, most);
    }
  }

  lemma {:induction false} Times(a: int, b: int, k: nat)
    requires a <= b
    ensures a * k <= b * k
  {
  }

  /** Delivery count of a message whose handler always fails, before any shutdown. */
  function Failing(count: int): Delivery {
    Delivery(count, attempt => Returns(Nack), attempt => false, false, true)
  }

  function FailingFrom(first: int, n: nat): (ds: seq<Delivery>)
    ensures |ds| == n
    decreases n
  {
    if n == 0 then [] else [Failing(first)] + FailingFrom(first + 1, n - 1)
  }

  lemma {:induction false} FailingFails(c: Config, count: int)
    ensures Handled(c, Failing(count)) == Nack && Attempts(c, Failing(count), 1) == MaxAttempts(c)
  {
    var d := Failing(count);
    assert forall a: nat :: Outcome(d, a) == Nack && !d.stops(a);
    assert LastAttempt(c, d, MaxAttempts(c));
    assert forall a: nat | 1 <= a < MaxAttempts(c) :: !LastAttempt(c, d, a);
    AttemptsUnique(c, d, MaxAttempts(c));
  }

  lemma {:induction false} FailingCounts(first: int, n: nat)
    ensures Counting(FailingFrom(first, n), first) && NoShutdown(FailingFrom(first, n))
    decreases n
  {
    if n > 0 {
      var ds, rest := FailingFrom(first, n), FailingFrom(first + 1, n - 1);
      FailingCounts(first + 1, n - 1);
      assert ds[1..] == rest;
      assert forall i | 0 < i < |ds| :: ds[i] == rest[i - 1];
    }
  }

  lemma {:induction false} FailingCalls(c: Config, first: int, n: nat)
    requires !c.deadLetters && 1 <= first && first + n <= c.maxDeliveries + 1
    ensures TotalCalls(c, FailingFrom(first, n)) == n * Tries(c)
    decreases n
  {
    hide Attempts;
    if n > 0 {
      var ds := FailingFrom(first, n);
      assert ds[1..] == FailingFrom(first + 1, n - 1) && ds[0] == Failing(first);
      FailingFails(c, first);
      FailingCalls(c, first + 1, n - 1);
      assert n * Tries(c) == Tries(c) + (n - 1) * Tries(c);
      if n == 1 {
        assert TotalCalls(c, ds[1..]) == 0;
      }
    }
  }

  /** No more calls than that over any deliveries of one message. */
  ghost predicate CallsBounded(c: Config, most: int) {
    forall ds | Counting(ds, 1) && NoShutdown(ds) :: TotalCalls(c, ds) <= most
  }

  /** The bound on the calls is the limit times the attempts of one delivery, and a handler
      that always fails reaches it. */
  lemma {:induction false} CallsBoundedExactly(c: Config, most: int)
    requires c.maxDeliveries > 0 && !c.deadLetters
    ensures CallsBounded(c, most) <==> c.maxDeliveries * Tries(c) <= most
  {
    hide Tries, TotalCalls, Counting, NoShutdown;
    if c.maxDeliveries * Tries(c) <= most {
      forall ds | Counting(ds, 1) && NoShutdown(ds)
        ensures TotalCalls(c, ds) <= most
      {
        LimitBoundsCalls(c, ds, 1);
      }
    }
    if CallsBounded(c, most) {
      FailingCounts(1, c.maxDeliveries);
      FailingCalls(c, 1, c.maxDeliveries);
    }
  }

  // ----- nothing is dropped unless asked -----

  /** The message can be dropped: neither the handler settled it nor a copy was made. */
  ghost predicate Droppable(c: Config) {
    exists ds: seq<Delivery>, i: nat :: OutAt(c, ds, i) && !ByHandler(c, ds[i]) && Topic(c, ds) == []
  }

  /** Over every sequence of deliveries a message is dropped only where a limit is set and no
      dead-letter topic is, and there it can be. */
  lemma {:induction false} DroppedOnlyWhenAsked(c: Config)
    ensures Droppable(c) <==> c.maxDeliveries > 0 && !c.deadLetters
  {
    hide ByHandler, ByDeadLetter, Topic;
    forall ds: seq<Delivery>, i: nat | OutAt(c, ds, i) && !ByHandler(c, ds[i]) && Topic(c, ds) == []
      ensures c.maxDeliveries > 0 && !c.deadLetters
    {
      TopicAt(c, ds, i);
      OnlyByLimit(c, ds, i);
    }
    if c.maxDeliveries > 0 && !c.deadLetters {
      var d := Failing(c.maxDeliveries);
      FailingFails(c, c.maxDeliveries);
      HandledExactly(c, d);
      OutExactly(c, d);
      DropsAtLimit(c, d);
      OutAtTail(c, [d], 0);
      assert OutAt(c, [d], 0);
      TopicAt(c, [d], 0);
    }
  }

  lemma {:induction false} DropsAtLimit(c: Config, d: Delivery)
    requires c.maxDeliveries > 0 && !c.deadLetters && d.count >= c.maxDeliveries && !d.ended && AllFailed(c, d)
    ensures Out(c, d) && !ByDeadLetter(c, d)
  {
    hide AllFailed;
  }

  lemma {:induction false} OnlyByLimit(c: Config, ds: seq<Delivery>, i: nat)
    requires OutAt(c, ds, i)
    ensures ByHandler(c, ds[i]) || ByDeadLetter(c, ds[i]) || (c.maxDeliveries > 0 && !c.deadLetters)
  {
    hide ByHandler, ByDeadLetter, AllFailed;
  }

  // ----- the documented time of dead-lettering -----

  /** The last delivery, as documented: maxDeliveries, ten if that is zero, never if it is
      negative. */
  predicate IsLast(c: Config, count: int) {
    c.maxDeliveries >= 0 && count >= if c.maxDeliveries == 0 then 10 else c.maxDeliveries
  }

  /** A message is copied only on its last delivery. */
  ghost predicate CopiedOnLast(c: Config) {
    forall ds, n | Counting(ds, 1) && n in Topic(c, ds) :: IsLast(c, n)
  }

  lemma {:induction false} CountsInTopic(c: Config, ds: seq<Delivery>, first: int)
    requires Counting(ds, first)
    ensures forall n | n in Topic(c, ds) :: n >= first
    decreases |ds|
  {
    hide Settled, Copied;
    if ds != [] {
      CountsInTopic(c, ds[1..], ds[0].count + 1);
    }
  }

  /** The documentation promises it, and the code, which copies on the first delivery whose
      retries fail, keeps the promise only with a limit of one delivery. */
  lemma {:induction false} DeadLettersOnLastExactly(c: Config)
    requires c.deadLetters
    ensures CopiedOnLast(c) <==> c.maxDeliveries == 1
    ensures Topic(c, [Failing(1)]) == [1]
  {
    hide Counting, Topic;
    if c.maxDeliveries == 1 {
      forall ds, n | Counting(ds, 1) && n in Topic(c, ds)
        ensures IsLast(c, n)
      {
        CountsInTopic(c, ds, 1);
      }
    }
    FailedOnce(c);
    var ds := [Failing(1)];
    assert Counting(ds, 1) && 1 in Topic(c, ds);
    assert CopiedOnLast(c) ==> IsLast(c, 1);
  }

  lemma {:induction false} FailedOnce(c: Config)
    requires c.deadLetters
    ensures Topic(c, [Failing(1)]) == [1] && Counting([Failing(1)], 1)
  {
    hide Handled, Attempts;
    FailingFails(c, 1);
    assert [Failing(1)][1..] == [];
    assert Topic(c, []) == [];
  }
}
