/**
 The per-address login limiter (internal/auth/loginlimit.go): a map of buckets
 that forgets idle addresses. It is compared with one bucket per address that is
 never forgotten.
 */
module LoginLimit {
  import opened RateLimit

  /** Seconds without a call after which a sweep forgets an address, and the least time between sweeps. */
  const IP_IDLE := 600.0
  const SWEEP_EVERY := 60.0

  /** One login request; the clock is read on entry and again by the bucket. */
  datatype Request = Request(ip: string, entry: real, taken: real)

  datatype Table = Table(buckets: map<string, Bucket>, lastSweep: real)

  function Swept(t: Table, now: real): Table {
    if now - t.lastSweep > SWEEP_EVERY
    then Table(map ip | ip in t.buckets && now - t.buckets[ip].last <= IP_IDLE :: t.buckets[ip], now)
    else t
  }

  /** The bucket a request finds: the address's own, or a fresh full one. */
  function Found(burst: real, m: map<string, Bucket>, q: Request): Bucket {
    if q.ip in m then m[q.ip] else Bucket(burst, q.entry)
  }

  function Answer(rate: real, burst: real, t: Table, q: Request): (bool, Table) {
    var (r, b) := Take(rate, burst, Found(burst, t.buckets, q), q.taken);
    (r, t.(buckets := t.buckets[q.ip := b]))
  }

  /** The limiter with sweeping. */
  function Serve(rate: real, burst: real, t: Table, q: Request): (bool, Table) {
    Answer(rate, burst, Swept(t, q.entry), q)
  }

  /** The reference: buckets are never forgotten. */
  function Remember(rate: real, burst: real, m: map<string, Bucket>, q: Request): (bool, map<string, Bucket>) {
    var (r, b) := Take(rate, burst, Found(burst, m, q), q.taken);
    (r, m[q.ip := b])
  }

  function SweptAnswers(rate: real, burst: real, t: Table, qs: seq<Request>): seq<bool>
    decreases |qs|
  {
    if qs == [] then []
    else
      var (r, u) := Serve(rate, burst, t, qs[0]);
      [r] + SweptAnswers(rate, burst, u, qs[1..])
  }

  function PlainAnswers(rate: real, burst: real, m: map<string, Bucket>, qs: seq<Request>): seq<bool>
    decreases |qs|
  {
    if qs == [] then []
    else
      var (r, n) := Remember(rate, burst, m, qs[0]);
      [r] + PlainAnswers(rate, burst, n, qs[1..])
  }

  /** Requests handled one after the other from time `clock` on. */
  predicate InOrder(clock: real, qs: seq<Request>)
    decreases |qs|
  {
    qs == [] || (clock <= qs[0].entry <= qs[0].taken && InOrder(qs[0].taken, qs[1..]))
  }

  // ---------------------------------------------------------------- agreement

  /**
   Sweeping is invisible so far: kept buckets are the remembered ones, forgotten
   ones have refilled by now.
   */
  ghost predicate Agrees(rate: real, burst: real, t: Table, m: map<string, Bucket>, clock: real) {
    && t.lastSweep <= clock
    && (forall ip :: ip in t.buckets ==> ip in m && t.buckets[ip] == m[ip])
    && (forall ip :: ip in m ==> m[ip].last <= clock && 0.0 <= m[ip].tokens <= burst)
    && (forall ip :: ip in m && ip !in t.buckets ==> Refilled(rate, burst, m[ip], clock) == burst)
  }

  lemma StaysFull(rate: real, burst: real, b: Bucket, clock: real, now: real)
    requires rate >= 0.0 && clock <= now && Refilled(rate, burst, b, clock) == burst
    ensures Refilled(rate, burst, b, now) == burst
  {
    GainGrows(rate, clock - b.last, now - b.last);
  }

  lemma IdleRefills(rate: real, burst: real, b: Bucket, now: real)
    requires rate >= 0.0 && rate * IP_IDLE >= burst && b.tokens >= 0.0 && now - b.last > IP_IDLE
    ensures Refilled(rate, burst, b, now) == burst
  {
    GainGrows(rate, IP_IDLE, now - b.last);
  }

  lemma SweepAgrees(rate: real, burst: real, t: Table, m: map<string, Bucket>, clock: real, now: real)
    requires rate >= 0.0 && rate * IP_IDLE >= burst && clock <= now && Agrees(rate, burst, t, m, clock)
    ensures Agrees(rate, burst, Swept(t, now), m, now)
  {
    var u := Swept(t, now);
    forall ip | ip in m && ip !in u.buckets
      ensures Refilled(rate, burst, m[ip], now) == burst
    {
      if ip in t.buckets {
        IdleRefills(rate, burst, m[ip], now);
      } else {
        StaysFull(rate, burst, m[ip], clock, now);
      }
    }
  }

  /** One request gets the same answer with and without sweeping, and agreement goes on. */
  lemma ServeAgrees(rate: real, burst: real, t: Table, m: map<string, Bucket>, clock: real, q: Request)
    requires rate >= 0.0 && burst >= 0.0 && rate * IP_IDLE >= burst
    requires clock <= q.entry <= q.taken && Agrees(rate, burst, t, m, clock)
    ensures Serve(rate, burst, t, q).0 == Remember(rate, burst, m, q).0
    ensures Agrees(rate, burst, Serve(rate, burst, t, q).1, Remember(rate, burst, m, q).1, q.taken)
  {
    hide Gain, Swept;
    SweepAgrees(rate, burst, t, m, clock, q.entry);
    var u := Swept(t, q.entry);
    GainGrows(rate, 0.0, q.taken - q.entry);
    GainGrows(rate, 0.0, q.taken - Found(burst, m, q).last);
    if q.ip in m && q.ip !in u.buckets {
      StaysFull(rate, burst, m[q.ip], q.entry, q.taken);
    }
    assert Refilled(rate, burst, Found(burst, u.buckets, q), q.taken) == Refilled(rate, burst, Found(burst, m, q), q.taken);
    forall ip | ip in m && ip !in u.buckets
      ensures Refilled(rate, burst, m[ip], q.taken) == burst
    {
      StaysFull(rate, burst, m[ip], q.entry, q.taken);
    }
    hide Refilled;
  }

  /** With the idle time long enough to refill a bucket, sweeping never changes an answer. */
  lemma {:induction false} SweepingIsInvisible(
      rate: real, burst: real, t: Table, m: map<string, Bucket>, clock: real, qs: seq<Request>)
    requires rate >= 0.0 && burst >= 0.0 && rate * IP_IDLE >= burst
    requires Agrees(rate, burst, t, m, clock) && InOrder(clock, qs)
    ensures SweptAnswers(rate, burst, t, qs) == PlainAnswers(rate, burst, m, qs)
    decreases |qs|
  {
    hide Agrees, Serve, Remember;
    if qs != [] {
      var q := qs[0];
      ServeAgrees(rate, burst, t, m, clock, q);
      SweepingIsInvisible(rate, burst, Serve(rate, burst, t, q).1, Remember(rate, burst, m, q).1, q.taken, qs[1..]);
    }
  }

  // ---------------------------------------------------------------- disagreement

  /** The last sweep of a new limiter: so long ago that the first request, at time 0 or later, sweeps. */
  const NEVER := -61.0

  const START := Table(map[], NEVER)

  /** Some further requests would be answered differently. */
  ghost predicate Differ(rate: real, burst: real, t: Table, m: map<string, Bucket>, clock: real) {
    exists qs :: InOrder(clock, qs) && SweptAnswers(rate, burst, t, qs) != PlainAnswers(rate, burst, m, qs)
  }

  const SOMEONE := "a"

  function At(now: real): Request {
    Request(SOMEONE, now, now)
  }

  lemma DifferNow(rate: real, burst: real, t: Table, m: map<string, Bucket>, clock: real, q: Request)
    requires clock <= q.entry <= q.taken
    requires Serve(rate, burst, t, q).0 != Remember(rate, burst, m, q).0
    ensures Differ(rate, burst, t, m, clock)
  {
    hide Serve, Remember;
    var qs := [q];
    assert InOrder(clock, qs) && SweptAnswers(rate, burst, t, qs)[0] != PlainAnswers(rate, burst, m, qs)[0];
  }

  lemma DifferLater(rate: real, burst: real, t: Table, m: map<string, Bucket>, clock: real, q: Request)
    requires clock <= q.entry <= q.taken
    requires Differ(rate, burst, Serve(rate, burst, t, q).1, Remember(rate, burst, m, q).1, q.taken)
    ensures Differ(rate, burst, t, m, clock)
  {
    hide Serve, Remember;
    var u, n := Serve(rate, burst, t, q).1, Remember(rate, burst, m, q).1;
    var qs :| InOrder(q.taken, qs) && SweptAnswers(rate, burst, u, qs) != PlainAnswers(rate, burst, n, qs);
    var all := [q] + qs;
    assert all[1..] == qs;
    assert SweptAnswers(rate, burst, t, all)[1..] == SweptAnswers(rate, burst, u, qs);
    assert PlainAnswers(rate, burst, m, all)[1..] == PlainAnswers(rate, burst, n, qs);
  }

  /** A table that knows one address only. */
  ghost predicate Single(t: Table, b: Bucket) {
    t.buckets == map[SOMEONE := b] && t.lastSweep <= b.last
  }

  /** The next call of that address meets its bucket, or a full one after the idle time. */
  lemma ServeSingle(rate: real, burst: real, t: Table, b: Bucket, now: real)
    requires Single(t, b) && b.last <= now
    ensures var (r, u) := Serve(rate, burst, t, At(now));
            var f := if now - b.last > IP_IDLE then Bucket(burst, now) else b;
            r == Take(rate, burst, f, now).0 && Single(u, Take(rate, burst, f, now).1)
  {
    hide Refilled;
    var u := Swept(t, now);
    assert now - b.last > IP_IDLE ==> u.buckets == map[];
    assert now - b.last <= IP_IDLE ==> u.buckets == t.buckets;
  }

  lemma RememberSingle(rate: real, burst: real, b: Bucket, now: real)
    ensures var (r, n) := Remember(rate, burst, map[SOMEONE := b], At(now));
            r == Take(rate, burst, b, now).0 && n == map[SOMEONE := Take(rate, burst, b, now).1]
  {
  }

  lemma NoTimeNoGain(rate: real, burst: real, x: real, now: real)
    requires x <= burst
    ensures Refilled(rate, burst, Bucket(x, now), now) == x
  {
  }

  /** The time in which exactly `y` tokens arrive. */
  lemma WaitFor(rate: real, y: real) returns (d: real)
    requires rate > 0.0 && y >= 0.0
    ensures d >= 0.0 && Gain(rate, d) == y
  {
    d := y / rate;
  }

  lemma GainDecides(rate: real, x: real, y: real)
    requires rate >= 0.0 && Gain(rate, x) < Gain(rate, y)
    ensures x < y
  {
    if x >= y {
      GainGrows(rate, y, x);
    }
  }

  /** A time longer than the idle time in which fewer than `room` tokens arrive. */
  lemma JustBeyondIdle(rate: real, room: real) returns (d: real)
    requires rate >= 0.0 && Gain(rate, IP_IDLE) < room
    ensures d > IP_IDLE && Gain(rate, d) < room
  {
    if rate == 0.0 {
      d := IP_IDLE + 1.0;
    } else {
      var half := (Gain(rate, IP_IDLE) + room) / 2.0;
      GainGrows(rate, 0.0, IP_IDLE);
      d := WaitFor(rate, half);
      GainDecides(rate, IP_IDLE, d);
    }
  }

  /** A bucket fuller than the remembered one shows: drain both, then wait until only one has a token. */
  lemma {:induction false} FullerShows(
      rate: real, burst: real, t: Table, x: real, y: real, now: real)
    requires rate > 0.0 && burst >= 1.0 && 0.0 <= y < x <= burst && Single(t, Bucket(x, now))
    ensures Differ(rate, burst, t, map[SOMEONE := Bucket(y, now)], now)
    decreases x.Floor
  {
    var m := map[SOMEONE := Bucket(y, now)];
    if x >= 1.0 {
      NoTimeNoGain(rate, burst, x, now);
      NoTimeNoGain(rate, burst, y, now);
      ServeSingle(rate, burst, t, Bucket(x, now), now);
      RememberSingle(rate, burst, Bucket(y, now), now);
      hide Serve, Remember, Refilled, Differ;
      if y < 1.0 {
        DifferNow(rate, burst, t, m, now, At(now));
      } else {
        FullerShows(rate, burst, Serve(rate, burst, t, At(now)).1, x - 1.0, y - 1.0, now);
        DifferLater(rate, burst, t, m, now, At(now));
      }
    } else {
      var d := WaitFor(rate, 1.0 - x);
      var later := now + d;
      assert later - now == d;
      NoTimeNoGain(rate, burst, burst, later);
      ServeSingle(rate, burst, t, Bucket(x, now), later);
      RememberSingle(rate, burst, Bucket(y, now), later);
      hide Serve, Remember, Gain, Differ;
      DifferNow(rate, burst, t, m, now, At(later));
    }
  }

  /** Forgetting a bucket that has not refilled shows. */
  lemma ForgettingShows(rate: real, burst: real, t: Table, x: real, now: real)
    requires rate >= 0.0 && burst >= 1.0 && 0.0 <= x < 1.0 && x + Gain(rate, IP_IDLE) < burst
    requires Single(t, Bucket(x, now))
    ensures Differ(rate, burst, t, map[SOMEONE := Bucket(x, now)], now)
  {
    var m := map[SOMEONE := Bucket(x, now)];
    var d := JustBeyondIdle(rate, burst - x);
    var later := now + d;
    assert later - now == d;
    GainGrows(rate, 0.0, d);
    NoTimeNoGain(rate, burst, burst, later);
    ServeSingle(rate, burst, t, Bucket(x, now), later);
    RememberSingle(rate, burst, Bucket(x, now), later);
    assert rate == 0.0 ==> Gain(rate, d) == 0.0;
    var y := x + Gain(rate, d);
    hide Serve, Remember, Gain, Differ;
    if y < 1.0 {
      DifferNow(rate, burst, t, m, now, At(later));
    } else {
      FullerShows(rate, burst, Serve(rate, burst, t, At(later)).1, burst - 1.0, y - 1.0, later);
      DifferLater(rate, burst, t, m, now, At(later));
    }
  }

  /** From any common level: drain the bucket, empty it to zero if need be, and let it be forgotten. */
  lemma {:induction false} DrainAndForget(rate: real, burst: real, t: Table, x: real, now: real)
    requires rate >= 0.0 && burst >= 1.0 && 0.0 <= x <= burst && Gain(rate, IP_IDLE) < burst
    requires Single(t, Bucket(x, now))
    ensures Differ(rate, burst, t, map[SOMEONE := Bucket(x, now)], now)
    decreases x.Floor
  {
    var m := map[SOMEONE := Bucket(x, now)];
    if x >= 1.0 {
      NoTimeNoGain(rate, burst, x, now);
      ServeSingle(rate, burst, t, Bucket(x, now), now);
      RememberSingle(rate, burst, Bucket(x, now), now);
      hide Serve, Remember, Refilled, Differ;
      DrainAndForget(rate, burst, Serve(rate, burst, t, At(now)).1, x - 1.0, now);
      DifferLater(rate, burst, t, m, now, At(now));
    } else if x + Gain(rate, IP_IDLE) < burst {
      ForgettingShows(rate, burst, t, x, now);
    } else {
      assert rate > 0.0 by { assert rate == 0.0 ==> Gain(rate, IP_IDLE) == 0.0; }
      var d := WaitFor(rate, 1.0 - x);
      var later := now + d;
      assert later - now == d;
      assert d <= IP_IDLE by {
        if d > IP_IDLE {
          GainGrows(rate, IP_IDLE, d);
          StrictGain(rate, IP_IDLE, d);
        }
      }
      ServeSingle(rate, burst, t, Bucket(x, now), later);
      RememberSingle(rate, burst, Bucket(x, now), later);
      hide Serve, Remember, Gain, Differ;
      ForgettingShows(rate, burst, Serve(rate, burst, t, At(later)).1, 0.0, later);
      DifferLater(rate, burst, t, m, now, At(later));
    }
  }

  lemma StrictGain(rate: real, x: real, y: real)
    requires rate > 0.0 && x < y
    ensures Gain(rate, x) < Gain(rate, y)
  {
  }

  lemma TooShortShows(rate: real, burst: real)
    requires rate >= 0.0 && burst >= 1.0 && rate * IP_IDLE < burst
    ensures Differ(rate, burst, START, map[], 0.0)
  {
    var q := At(0.0);
    NoTimeNoGain(rate, burst, burst, 0.0);
    var u, n := Serve(rate, burst, START, q).1, Remember(rate, burst, map[], q).1;
    assert u.buckets == map[SOMEONE := Bucket(burst - 1.0, 0.0)] == n;
    assert Gain(rate, IP_IDLE) == rate * IP_IDLE;
    hide Gain, Serve, Remember, Differ;
    DrainAndForget(rate, burst, u, burst - 1.0, 0.0);
    DifferLater(rate, burst, START, map[], 0.0, q);
  }

  lemma {:induction false} NothingAdmitted(
      rate: real, burst: real, t: Table, m: map<string, Bucket>, qs: seq<Request>)
    requires burst < 1.0
    ensures SweptAnswers(rate, burst, t, qs) == PlainAnswers(rate, burst, m, qs)
    decreases |qs|
  {
    if qs != [] {
      var q := qs[0];
      assert !Serve(rate, burst, t, q).0 && !Remember(rate, burst, m, q).0;
      hide Serve, Remember;
      NothingAdmitted(rate, burst, Serve(rate, burst, t, q).1, Remember(rate, burst, m, q).1, qs[1..]);
    }
  }

  /**
   When forgetting idle addresses is invisible on every history: exactly when the
   limiter admits nothing at all or a bucket refills within the idle time.
   */
  lemma SweepingInvisibleIff(rate: real, burst: real)
    requires rate >= 0.0 && burst >= 0.0
    ensures !Differ(rate, burst, START, map[], 0.0) <==> burst < 1.0 || rate * 600.0 >= burst
  {
    if burst >= 1.0 && rate * IP_IDLE < burst {
      TooShortShows(rate, burst);
    } else if Differ(rate, burst, START, map[], 0.0) {
      var qs :| InOrder(0.0, qs) && SweptAnswers(rate, burst, START, qs) != PlainAnswers(rate, burst, map[], qs);
      if burst < 1.0 {
        NothingAdmitted(rate, burst, START, map[], qs);
      } else {
        SweepingIsInvisible(rate, burst, START, map[], 0.0, qs);
      }
    }
  }

  // ---------------------------------------------------------------- each address by itself

  /** The calls of one address among all calls answered. */
  function OwnCalls(calls: seq<(string, Call)>, ip: string): seq<Call> {
    if calls == [] then []
    else
      var (a, c) := calls[|calls| - 1];
      OwnCalls(calls[..|calls| - 1], ip) + if a == ip then [c] else []
  }

  /** The requests with their answers. */
  function Answered(qs: seq<Request>, answers: seq<bool>): seq<(string, Call)>
    requires |qs| <= |answers|
  {
    seq(|qs|, k requires 0 <= k < |qs| => (qs[k].ip, Call(qs[k].taken, answers[k])))
  }

  /** Every bucket is the counter of its own address's calls; an address without a bucket has made none. */
  ghost predicate Separate(rate: real, burst: real, m: map<string, Bucket>, past: seq<(string, Call)>, clock: real) {
    forall ip :: if ip in m then Tracks(rate, burst, OwnCalls(past, ip), m[ip]) && m[ip].last <= clock
                 else OwnCalls(past, ip) == []
  }

  lemma FoundTracks(rate: real, burst: real, m: map<string, Bucket>, past: seq<(string, Call)>, clock: real, q: Request)
    requires Separate(rate, burst, m, past, clock) && clock <= q.entry <= q.taken
    ensures Tracks(rate, burst, OwnCalls(past, q.ip), Found(burst, m, q)) && Found(burst, m, q).last <= q.taken
  {
    hide Slack;
  }

  lemma StaysSeparate(rate: real, burst: real, m: map<string, Bucket>, past: seq<(string, Call)>, clock: real, q: Request)
    requires rate >= 0.0 && Separate(rate, burst, m, past, clock) && clock <= q.entry <= q.taken
    ensures var (r, n) := Remember(rate, burst, m, q);
            Separate(rate, burst, n, past + [(q.ip, Call(q.taken, r))], q.taken)
  {
    hide Tracks, Take;
    FoundTracks(rate, burst, m, past, clock, q);
    TracksAfterCall(rate, burst, OwnCalls(past, q.ip), Found(burst, m, q), q.taken);
    var (r, b) := Take(rate, burst, Found(burst, m, q), q.taken);
    TakenLast(rate, burst, Found(burst, m, q), q.taken);
    var n, now := m[q.ip := b], past + [(q.ip, Call(q.taken, r))];
    forall ip
      ensures if ip in n then Tracks(rate, burst, OwnCalls(now, ip), n[ip]) && n[ip].last <= q.taken
              else OwnCalls(now, ip) == []
    {
      OneMoreCall(past, q.ip, Call(q.taken, r), ip);
    }
  }

  lemma OneMoreCall(past: seq<(string, Call)>, a: string, c: Call, ip: string)
    ensures OwnCalls(past + [(a, c)], ip) == if a == ip then OwnCalls(past, ip) + [c] else OwnCalls(past, ip)
  {
    assert (past + [(a, c)])[..|past|] == past;
  }

  lemma TakenLast(rate: real, burst: real, b: Bucket, now: real)
    ensures Take(rate, burst, b, now).1.last == now
  {
  }

  lemma {:induction false} AnswersByWindows(rate: real, burst: real, m: map<string, Bucket>, past: seq<(string, Call)>,
                                           clock: real, qs: seq<Request>, k: nat)
    requires rate >= 0.0 && Separate(rate, burst, m, past, clock) && InOrder(clock, qs) && k < |qs|
    ensures var answers := PlainAnswers(rate, burst, m, qs);
            && |answers| == |qs|
            && (answers[k] <==> WindowsAllow(rate, burst, OwnCalls(past + Answered(qs[..k], answers), qs[k].ip), qs[k].taken))
    decreases |qs|
  {
    hide Separate, WindowsAllow, Tracks, Refilled, OwnCalls;
    var q, answers := qs[0], PlainAnswers(rate, burst, m, qs);
    AnswerCount(rate, burst, m, qs);
    var (r, n) := Remember(rate, burst, m, q);
    if k == 0 {
      assert past + Answered(qs[..0], answers) == past;
      FoundTracks(rate, burst, m, past, clock, q);
      CounterDecides(rate, burst, OwnCalls(past, q.ip), Found(burst, m, q), q.taken);
    } else {
      StaysSeparate(rate, burst, m, past, clock, q);
      var first := (q.ip, Call(q.taken, r));
      AnswersByWindows(rate, burst, n, past + [first], q.taken, qs[1..], k - 1);
      var later := PlainAnswers(rate, burst, n, qs[1..]);
      assert answers[1..] == later;
      assert Answered(qs[..k], answers) == [first] + Answered(qs[1..][..k - 1], later);
      assert past + ([first] + Answered(qs[1..][..k - 1], later)) == past + [first] + Answered(qs[1..][..k - 1], later);
    }
    hide Take;
  }

  lemma {:induction false} AnswerCount(rate: real, burst: real, m: map<string, Bucket>, qs: seq<Request>)
    ensures |PlainAnswers(rate, burst, m, qs)| == |qs|
    decreases |qs|
  {
    hide Remember;
    if qs != [] {
      AnswerCount(rate, burst, Remember(rate, burst, m, qs[0]).1, qs[1..]);
    }
  }

  /**
   The addresses do not share an allowance: with the idle time long enough, a new
   limiter answers each request by the sliding-window rule over the earlier calls of
   its own address.
   */
  lemma OwnCallsDecide(rate: real, burst: real, qs: seq<Request>, k: nat)
    requires rate >= 0.0 && burst >= 0.0 && rate * IP_IDLE >= burst && InOrder(0.0, qs) && k < |qs|
    ensures var answers := SweptAnswers(rate, burst, START, qs);
            && |answers| == |qs|
            && (answers[k] <==> WindowsAllow(rate, burst, OwnCalls(Answered(qs[..k], answers), qs[k].ip), qs[k].taken))
  {
    SweepingIsInvisible(rate, burst, START, map[], 0.0, qs);
    AnswersByWindows(rate, burst, map[], [], 0.0, qs, k);
    var answers := PlainAnswers(rate, burst, map[], qs);
    assert [] + Answered(qs[..k], answers) == Answered(qs[..k], answers);
    hide WindowsAllow;
  }

  // ---------------------------------------------------------------- what is retained

  function TableAfter(rate: real, burst: real, t: Table, qs: seq<Request>): Table
    decreases |qs|
  {
    if qs == [] then t
    else Serve(rate, burst, TableAfter(rate, burst, t, qs[..|qs| - 1]), qs[|qs| - 1]).1
  }

  lemma {:induction false} InOrderFront(clock: real, qs: seq<Request>, n: nat)
    requires InOrder(clock, qs) && n <= |qs|
    ensures InOrder(clock, qs[..n])
    ensures n < |qs| ==> qs[n].entry >= if n == 0 then clock else qs[n - 1].taken
    ensures forall k :: 0 <= k < |qs| ==> qs[k].entry <= qs[k].taken
    decreases |qs|
  {
    if qs != [] {
      InOrderFront(qs[0].taken, qs[1..], if n == 0 then 0 else n - 1);
      if n > 0 {
        assert qs[..n][0] == qs[0] && qs[..n][1..] == qs[1..][..n - 1];
      }
    }
  }

  /** After any requests, every address kept was used within the idle time plus the sweep interval. */
  lemma {:induction false} KeptAreRecent(rate: real, burst: real, qs: seq<Request>)
    requires InOrder(0.0, qs)
    ensures var t := TableAfter(rate, burst, START, qs);
            && (forall ip :: ip in t.buckets ==> t.lastSweep - t.buckets[ip].last <= IP_IDLE)
            && if qs == [] then t == START
               else
                 var now := qs[|qs| - 1].entry;
                 && t.lastSweep <= now <= t.lastSweep + 60.0
                 && forall ip :: ip in t.buckets ==> now - t.buckets[ip].last <= 660.0
  {
    hide Refilled;
    if qs != [] {
      var n := |qs| - 1;
      InOrderFront(0.0, qs, n);
      KeptAreRecent(rate, burst, qs[..n]);
      if n > 0 {
        assert qs[..n][n - 1] == qs[n - 1];
      }
    }
  }

  // ---------------------------------------------------------------- the limiter itself

  class IPLimiter {
    const rate: real
    const burst: real
    var m: map<string, Limiter>
    var lastSweep: real

    ghost predicate Valid()
      reads this, m.Values
    {
      && rate >= 0.0
      && (forall ip :: ip in m ==> m[ip].Valid() && m[ip].rate == rate && m[ip].burst == burst)
      && (forall a, b :: a in m && b in m && a != b ==> m[a] != m[b])
    }

    ghost function Value(): Table
      reads this, m.Values
    {
      Table(map ip | ip in m :: m[ip].Value(), lastSweep)
    }

    constructor (rate: real, burst: real)
      requires rate >= 0.0
      ensures Valid() && Value() == START
      ensures this.rate == rate && this.burst == burst
    {
      this.rate, this.burst := rate, burst;
      m, lastSweep := map[], NEVER;
    }

    /** Forgets the addresses idle for too long. */
    method Sweep(now: real)
      requires Valid()
      modifies this`m, this`lastSweep
      ensures m == map ip | ip in old(m) && now - old(m)[ip].last <= IP_IDLE :: old(m)[ip]
      ensures lastSweep == now
    {
      hide Limiter.Valid;
      lastSweep := now;
      var all := m;
      var rest := m.Keys;
      while rest != {}
        invariant rest <= all.Keys && lastSweep == now
        invariant forall ip :: ip in m <==> ip in all && (ip in rest || now - all[ip].last <= IP_IDLE)
        invariant forall ip :: ip in m ==> m[ip] == all[ip]
        decreases rest
      {
        var ip :| ip in rest;
        rest := rest - {ip};
        if now - all[ip].last > IP_IDLE {
          m := m - {ip};
        }
      }
    }

    method SweepIfDue(now: real)
      requires Valid()
      modifies this`m, this`lastSweep
      ensures Valid() && m.Values <= old(m.Values)
      ensures Value() == Swept(old(Value()), now)
    {
      hide Limiter.Valid;
      if now - lastSweep > SWEEP_EVERY {
        Sweep(now);
      }
    }

    /** The bucket of an address, created full when it has none. */
    method Lookup(ip: string, entry: real) returns (b: Limiter)
      requires Valid()
      modifies this`m
      ensures Valid() && ip in m && b == m[ip] && fresh(m.Values - old(m.Values))
      ensures b.Value() == if ip in old(m) then old(m[ip].Value()) else Bucket(burst, entry)
      ensures Value() == old(Value()).(buckets := old(Value()).buckets[ip := b.Value()])
    {
      hide Limiter.Valid, RuleFollowed, Tracks;
      if ip !in m {
        b := new Limiter(rate, burst, entry);
        m := m[ip := b];
      }
      b := m[ip];
    }

    method TakeFrom(ip: string, b: Limiter, taken: real) returns (r: bool)
      requires Valid() && ip in m && m[ip] == b && b.last <= taken
      modifies b
      ensures Valid()
      ensures (r, b.Value()) == Take(rate, burst, old(b.Value()), taken)
      ensures Value() == old(Value()).(buckets := old(Value()).buckets[ip := b.Value()])
    {
      hide RuleFollowed, Tracks, WindowsAllow, Take;
      r := b.Allow(taken);
    }

    method AnswerFromTable(ip: string, entry: real, taken: real) returns (r: bool)
      requires Valid() && entry <= taken && forall a :: a in m ==> m[a].last <= entry
      modifies this`m, m.Values
      ensures Valid() && fresh(m.Values - old(m.Values))
      ensures (r, Value()) == Answer(rate, burst, old(Value()), Request(ip, entry, taken))
    {
      hide Limiter.Valid, Take;
      ghost var u := Value();
      var b := Lookup(ip, entry);
      assert b.Value() == Found(burst, u.buckets, Request(ip, entry, taken));
      r := TakeFrom(ip, b, taken);
      assert Value().buckets == u.buckets[ip := b.Value()];
    }

    /** One login attempt, answered as the pure limiter would. */
    method Allow(ip: string, entry: real, taken: real) returns (r: bool)
      requires Valid() && entry <= taken && forall a :: a in m ==> m[a].last <= entry
      modifies this, m.Values
      ensures Valid() && fresh(m.Values - old(m.Values))
      ensures (r, Value()) == Serve(rate, burst, old(Value()), Request(ip, entry, taken))
    {
      hide Limiter.Valid, Swept, Answer;
      ghost var t := Value();
      SweepIfDue(entry);
      assert forall a :: a in m ==> m[a].last <= entry by {
        SweptKeeps(t, entry);
        assert forall a :: a in t.buckets ==> t.buckets[a].last <= entry;
        assert forall a :: a in m ==> Value().buckets[a].last == m[a].last;
      }
      r := AnswerFromTable(ip, entry, taken);
    }
  }

  lemma SweptKeeps(t: Table, now: real)
    ensures forall a :: a in Swept(t, now).buckets ==> a in t.buckets && Swept(t, now).buckets[a] == t.buckets[a]
  {
  }
}
