/** The fixed-window limiter that HTTP and WebSocket sends share: one script on one counter
    for each key, whichever service runs it. */
module RateLimiter {
  import opened Options

  const MESSAGE_LIMIT := 60
  const MESSAGE_WINDOW := 60

  type UserId = nat

  datatype Bucket = Message | Other(name: nat)

  datatype Key = MessageKey(user: UserId) | ChatKey(bucket: Bucket, user: UserId) | CommandKey(command: nat, user: UserId)

  datatype Counter = Counter(count: nat, until: int)

  /** A request for admission, by HTTP in a bucket, as a WebSocket message, or as another
      WebSocket command. */
  datatype Request =
    | Http(user: UserId, bucket: Bucket, at: int, limit: nat, window: int)
    | SocketMessage(user: UserId, at: int)
    | SocketCommand(user: UserId, command: nat, at: int, limit: nat, window: int)

  function KeyOf(r: Request): Key {
    match r
    case Http(user, bucket, _, _, _) => if bucket == Message then MessageKey(user) else ChatKey(bucket, user)
    case SocketMessage(user, _) => MessageKey(user)
    case SocketCommand(user, command, _, _, _) => CommandKey(command, user)
  }

  function LimitOf(r: Request): nat {
    match r
    case Http(_, bucket, _, limit, _) => if bucket == Message then MESSAGE_LIMIT else limit
    case SocketMessage(_, _) => MESSAGE_LIMIT
    case SocketCommand(_, _, _, limit, _) => limit
  }

  function WindowOf(r: Request): int {
    match r
    case Http(_, bucket, _, _, window) => if bucket == Message then MESSAGE_WINDOW else window
    case SocketMessage(_, _) => MESSAGE_WINDOW
    case SocketCommand(_, _, _, _, window) => window
  }

  /** The counter after one more request: a key past its deadline is absent. */
  function Counted(c: Option<Counter>, at: int, window: int): Counter {
    if c.Some? && at < c.value.until then Counter(c.value.count + 1, c.value.until) else Counter(1, at + window)
  }

  class Limiter {
    var counters: map<Key, Counter>

    constructor ()
      ensures counters == map[]
    {
      counters := map[];
    }

    /** Increment, start the window on the first count, and compare with the limit. */
    method Allow(r: Request) returns (allowed: bool)
      modifies this
      ensures var c := Counted(Stored(old(counters), KeyOf(r)), r.at, WindowOf(r));
              counters == old(counters)[KeyOf(r) := c] && allowed == (c.count <= LimitOf(r))
    {
      var key := KeyOf(r);
      var counter := Counter(0, 0);
      if key in counters && r.at < counters[key].until {
        counter := counters[key];
      }
      counter := counter.(count := counter.count + 1);
      if counter.count == 1 {
        if key !in counters || r.at >= counters[key].until {
          counter := counter.(until := r.at + WindowOf(r));
        }
      }
      counters := counters[key := counter];
      allowed := counter.count <= LimitOf(r);
    }
  }

  function Stored(counters: map<Key, Counter>, key: Key): Option<Counter> {
    if key in counters then Some(counters[key]) else None
  }

  // ----- One key -----

  /** How many of the requests at these times are admitted within an interval. */
  function Admitted(c: Option<Counter>, times: seq<int>, window: int, limit: nat, from: int, to: int): nat
    decreases |times|
  {
    if times == [] then 0
    else
      var d := Counted(c, times[0], window);
      (if d.count <= limit && from <= times[0] < to then 1 else 0) + Admitted(Some(d), times[1..], window, limit, from, to)
  }

  predicate Ordered(times: seq<int>) {
    forall i, j :: 0 <= i < j < |times| ==> times[i] <= times[j]
  }

  predicate NoneBefore(times: seq<int>, at: int) {
    forall i :: 0 <= i < |times| ==> at <= times[i]
  }

  lemma {:induction false} NoneAfter(c: Option<Counter>, times: seq<int>, window: int, limit: nat, from: int, to: int)
    requires NoneBefore(times, to)
    ensures Admitted(c, times, window, limit, from, to) == 0
    decreases |times|
  {
    if times != [] {
      hide NoneBefore;
      NoneAfter(Some(Counted(c, times[0], window)), times[1..], window, limit, from, to);
    }
  }

  function Left(limit: nat, count: nat): nat {
    if count < limit then limit - count else 0
  }

  /** While the running window covers the rest of the interval, only what is left of its
      limit is admitted. */
  lemma {:induction false} OneWindow(c: Counter, times: seq<int>, window: int, limit: nat, from: int, to: int)
    requires Ordered(times) && to <= c.until
    ensures Admitted(Some(c), times, window, limit, from, to) <= Left(limit, c.count)
    decreases |times|
  {
    if times != [] {
      if times[0] < c.until {
        hide Ordered, NoneBefore;
        OneWindow(Counted(Some(c), times[0], window), times[1..], window, limit, from, to);
      } else {
        assert NoneBefore(times, to);
        hide Ordered, NoneBefore;
        NoneAfter(Some(c), times, window, limit, from, to);
      }
    }
  }

  /** From the start of the interval on: what is left of the running window, and one more. */
  lemma {:induction false} TwoWindows(c: Counter, times: seq<int>, window: int, limit: nat, from: int, to: int)
    requires Ordered(times) && NoneBefore(times, from) && to == from + window
    ensures Admitted(Some(c), times, window, limit, from, to) <= Left(limit, c.count) + limit
    decreases |times|
  {
    if times != [] {
      hide Ordered, NoneBefore;
      var d := Counted(Some(c), times[0], window);
      if times[0] < c.until {
        TwoWindows(d, times[1..], window, limit, from, to);
      } else {
        OneWindow(d, times[1..], window, limit, from, to);
      }
    }
  }

  /** Any interval as long as the window admits fewer requests than twice the limit: a
      window that began earlier has spent at least one of its places before. */
  lemma {:induction false} FewerThanTwice(c: Option<Counter>, times: seq<int>, window: int, limit: nat, from: int)
    requires Ordered(times) && 1 <= limit && (c.Some? ==> 1 <= c.value.count)
    ensures Admitted(c, times, window, limit, from, from + window) <= 2 * limit - 1
    decreases |times|
  {
    if times != [] {
      var d := Counted(c, times[0], window);
      if times[0] < from {
        hide Ordered, NoneBefore;
        FewerThanTwice(Some(d), times[1..], window, limit, from);
      } else if c.Some? {
        assert NoneBefore(times, from);
        hide Ordered, NoneBefore;
        TwoWindows(c.value, times, window, limit, from, from + window);
      } else {
        hide Ordered, NoneBefore;
        OneWindow(d, times[1..], window, limit, from, from + window);
      }
    }
  }

  function Repeated(n: nat, at: int): seq<int> {
    if n == 0 then [] else [at] + Repeated(n - 1, at)
  }

  lemma {:induction false} SameWindow(c: Counter, n: nat, at: int, rest: seq<int>, window: int, limit: nat, from: int, to: int)
    requires at < c.until && c.count + n <= limit && from <= at < to
    ensures Admitted(Some(c), Repeated(n, at) + rest, window, limit, from, to) ==
            n + Admitted(Some(Counter(c.count + n, c.until)), rest, window, limit, from, to)
    decreases n
  {
    var times := Repeated(n, at) + rest;
    if n == 0 {
      assert times == rest;
    } else {
      assert times[0] == at && times[1..] == Repeated(n - 1, at) + rest;
      SameWindow(Counter(c.count + 1, c.until), n - 1, at, rest, window, limit, from, to);
    }
  }

  /** One request opens a window, the rest of its limit follows at its last moment and a
      whole limit at the first moment of the next. */
  function Burst(limit: nat, window: int): seq<int>
    requires 1 <= limit
  {
    [0] + (Repeated(limit - 1, window - 1) + Repeated(limit, window))
  }

  /** The bound is reached, for every limit and every window of more than one moment. */
  lemma {:induction false} BoundIsReached(limit: nat, window: int)
    requires 1 <= limit && 2 <= window
    ensures Ordered(Burst(limit, window))
    ensures Admitted(None, Burst(limit, window), window, limit, window - 1, window - 1 + window) == 2 * limit - 1
  {
    BurstIsOrdered(limit, window);
    var from, to := window - 1, window - 1 + window;
    var late, next := Repeated(limit - 1, window - 1), Repeated(limit, window);
    assert Burst(limit, window)[1..] == late + next;
    SameWindow(Counter(1, window), limit - 1, window - 1, next, window, limit, from, to);
    assert next[0] == window && next[1..] == Repeated(limit - 1, window) + [];
    SameWindow(Counter(1, window + window), limit - 1, window, [], window, limit, from, to);
    hide Repeated, Ordered;
  }

  lemma {:induction false} BurstIsOrdered(limit: nat, window: int)
    requires 1 <= limit && 2 <= window
    ensures Ordered(Burst(limit, window))
  {
    RepeatedIs(limit - 1, window - 1);
    RepeatedIs(limit, window);
    hide Repeated;
  }

  lemma {:induction false} RepeatedIs(n: nat, at: int)
    ensures |Repeated(n, at)| == n && forall i :: 0 <= i < n ==> Repeated(n, at)[i] == at
    decreases n
  {
    if n > 0 { RepeatedIs(n - 1, at); }
  }

  // ----- All keys and both services -----

  datatype Log = Log(counters: map<Key, Counter>, admitted: seq<Request>)

  function Handle(l: Log, r: Request): Log {
    var c := Counted(Stored(l.counters, KeyOf(r)), r.at, WindowOf(r));
    Log(l.counters[KeyOf(r) := c], if c.count <= LimitOf(r) then l.admitted + [r] else l.admitted)
  }

  function HandleAll(l: Log, requests: seq<Request>): Log
    decreases |requests|
  {
    if requests == [] then l else HandleAll(Handle(l, requests[0]), requests[1..])
  }

  /** The admitted requests of one key in an interval. */
  function Count(admitted: seq<Request>, key: Key, from: int, to: int): nat {
    if admitted == [] then 0
    else
      var r := admitted[|admitted| - 1];
      Count(admitted[..|admitted| - 1], key, from, to) + if KeyOf(r) == key && from <= r.at < to then 1 else 0
  }

  function TimesOf(requests: seq<Request>, key: Key): seq<int> {
    if requests == [] then []
    else if KeyOf(requests[0]) == key then [requests[0].at] + TimesOf(requests[1..], key)
    else TimesOf(requests[1..], key)
  }

  predicate InOrder(requests: seq<Request>) {
    forall i, j :: 0 <= i < j < |requests| ==> requests[i].at <= requests[j].at
  }

  lemma {:induction false} TimesFrom(requests: seq<Request>, key: Key, at: int)
    requires forall i :: 0 <= i < |requests| ==> at <= requests[i].at
    ensures NoneBefore(TimesOf(requests, key), at)
    decreases |requests|
  {
    if requests != [] { TimesFrom(requests[1..], key, at); }
  }

  lemma {:induction false} TimesAreOrdered(requests: seq<Request>, key: Key)
    requires InOrder(requests)
    ensures Ordered(TimesOf(requests, key))
    decreases |requests|
  {
    if requests != [] {
      TimesAreOrdered(requests[1..], key);
      TimesFrom(requests[1..], key, requests[0].at);
    }
  }

  lemma CountSnoc(admitted: seq<Request>, r: Request, key: Key, from: int, to: int)
    ensures Count(admitted + [r], key, from, to) == Count(admitted, key, from, to) + if KeyOf(r) == key && from <= r.at < to then 1 else 0
  {
    assert (admitted + [r])[..|admitted|] == admitted;
  }

  /** What both services admit under the message key of a user is what one counter admits. */
  lemma {:induction false} OneCounter(l: Log, requests: seq<Request>, user: UserId, from: int, to: int)
    ensures Count(HandleAll(l, requests).admitted, MessageKey(user), from, to) ==
            Count(l.admitted, MessageKey(user), from, to)
            + Admitted(Stored(l.counters, MessageKey(user)), TimesOf(requests, MessageKey(user)), MESSAGE_WINDOW, MESSAGE_LIMIT, from, to)
    decreases |requests|
  {
    if requests != [] {
      var r := requests[0];
      OneCounter(Handle(l, r), requests[1..], user, from, to);
      CountSnoc(l.admitted, r, MessageKey(user), from, to);
      var times := TimesOf(requests, MessageKey(user));
      if KeyOf(r) == MessageKey(user) {
        assert times[0] == r.at && times[1..] == TimesOf(requests[1..], MessageKey(user));
        assert LimitOf(r) == MESSAGE_LIMIT && WindowOf(r) == MESSAGE_WINDOW;
      }
      hide Count, HandleAll, TimesOf;
    }
  }

  /** No interval of one minute admits more than 119 messages of a user, HTTP and WebSocket
      counted together, whatever else is requested in between. */
  lemma {:induction false} MessagesFewerThanTwice(requests: seq<Request>, user: UserId, from: int)
    requires InOrder(requests)
    ensures Count(HandleAll(Log(map[], []), requests).admitted, MessageKey(user), from, from + 60) <= 119
  {
    OneCounter(Log(map[], []), requests, user, from, from + MESSAGE_WINDOW);
    TimesAreOrdered(requests, MessageKey(user));
    FewerThanTwice(None, TimesOf(requests, MessageKey(user)), MESSAGE_WINDOW, MESSAGE_LIMIT, from);
  }

  /** Two requests share a counter exactly when they are of one user and both are messages,
      over either service, or of one other bucket, or the same other command. */
  lemma {:induction false} KeysAreSharedExactly(q: Request, r: Request)
    ensures KeyOf(q) == KeyOf(r) <==>
              && q.user == r.user
              && ((IsMessage(q) && IsMessage(r))
                  || (q.Http? && r.Http? && q.bucket == r.bucket)
                  || (q.SocketCommand? && r.SocketCommand? && q.command == r.command))
  {
  }

  predicate IsMessage(r: Request) {
    r.SocketMessage? || (r.Http? && r.bucket == Message)
  }

  /** Messages of one user at these times, each over one of the services; whatever limit and
      window an HTTP request states, those of messages count. */
  function Mixed(user: UserId, http: seq<bool>, times: seq<int>, limit: nat, window: int): seq<Request>
    requires |http| == |times|
    decreases |times|
  {
    if times == [] then []
    else [if http[0] then Http(user, Message, times[0], limit, window) else SocketMessage(user, times[0])]
         + Mixed(user, http[1..], times[1..], limit, window)
  }

  lemma {:induction false} MixedTimes(user: UserId, http: seq<bool>, times: seq<int>, limit: nat, window: int)
    requires |http| == |times|
    ensures TimesOf(Mixed(user, http, times, limit, window), MessageKey(user)) == times
    decreases |times|
  {
    if times != [] { MixedTimes(user, http[1..], times[1..], limit, window); }
  }

  /** And 119 messages a minute can be reached, over either service or both in any mixture. */
  lemma {:induction false} MessagesReachTheBound(user: UserId, http: seq<bool>, limit: nat, window: int)
    requires |http| == |Burst(60, 60)|
    ensures Count(HandleAll(Log(map[], []), Mixed(user, http, Burst(60, 60), limit, window)).admitted, MessageKey(user), 59, 119) == 119
  {
    MixedTimes(user, http, Burst(60, 60), limit, window);
    BoundIsReached(60, 60);
    hide Burst, Mixed, TimesOf, HandleAll, Admitted;
    OneCounter(Log(map[], []), Mixed(user, http, Burst(60, 60), limit, window), user, 59, 119);
  }
}
