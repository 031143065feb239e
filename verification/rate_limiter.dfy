/** Token-bucket rate limiter (internal/api/middleware/rate_limiter.go).

    Instants are integer nanoseconds of a clock that never runs backwards, and the
    refill uses exact arithmetic where the program uses float64. A credit of TOKEN
    units is worth one token: a client earns `rate` units each nanosecond. */
module RateLimiting {
  import opened Options

  const TOKEN: int := 60_000_000_000     // nanoseconds in the minute that `rate` is per
  const CLEANUP: int := 300_000_000_000  // a visitor idle for longer than this is evicted

  /** The two fields of a visitor. */
  datatype Bucket = Bucket(tokens: int, lastSeen: int)

  datatype Verdict = Verdict(ok: bool, bucket: Bucket)

  function Min(a: int, b: int): int { if a <= b then a else b }

  /** Go's int(...) truncates toward zero. */
  function Truncate(credit: int): int
  {
    if credit >= 0 then credit / TOKEN else -(-credit / TOKEN)
  }

  function Refill(b: Bucket, now: int, rate: int, burst: int): Bucket
  {
    var add := Truncate((now - b.lastSeen) * rate);
    if add > 0 then Bucket(Min(b.tokens + add, burst), now) else b
  }

  /** What one atomic call of `allow` answers and leaves behind for its client. */
  function Serve(known: Option<Bucket>, now: int, rate: int, burst: int): Verdict
  {
    var b := Refill(if known.None? then Bucket(burst, now) else known.value, now, rate, burst);
    if b.tokens > 0 then Verdict(true, b.(tokens := b.tokens - 1)) else Verdict(false, b)
  }

  predicate Stale(b: Bucket, now: int) { now - b.lastSeen > CLEANUP }

  // ---------------------------------------------------------------- the program

  class Visitor {
    var tokens: int
    var lastSeen: int

    constructor (tokens: int, lastSeen: int)
      ensures this.tokens == tokens && this.lastSeen == lastSeen
    {
      this.tokens, this.lastSeen := tokens, lastSeen;
    }
  }

  class RateLimiter {
    var visitors: map<string, Visitor>
    const rate: int
    const burst: int

    /** No two clients share a visitor object. */
    ghost predicate Valid()
      reads this
    {
      forall p, q :: p in visitors && q in visitors && p != q ==> visitors[p] != visitors[q]
    }

    ghost function View(): map<string, Bucket>
      reads this, visitors.Values
    {
      map ip | ip in visitors :: Bucket(visitors[ip].tokens, visitors[ip].lastSeen)
    }

    constructor (rate: int, burst: int)
      ensures Valid() && View() == map[]
      ensures this.rate == rate && this.burst == burst
    {
      this.visitors := map[];
      this.rate, this.burst := rate, burst;
    }

    method Allow(ip: string, now: int) returns (ok: bool)
      requires Valid()
      modifies this, visitors.Values
      ensures Valid() && fresh(visitors.Values - old(visitors.Values))
      ensures var v := Serve(Lookup(old(View()), ip), now, rate, burst);
              ok == v.ok && View() == old(View())[ip := v.bucket]
    {
      if ip !in visitors {
        var created := new Visitor(burst, now);
        visitors := visitors[ip := created];
      }
      ok := Take(visitors[ip], now);
    }

    /** The part of `allow` that runs under the visitor's own lock. */
    method Take(visitor: Visitor, now: int) returns (ok: bool)
      modifies visitor
      ensures var v := Serve(Some(Bucket(old(visitor.tokens), old(visitor.lastSeen))), now, rate, burst);
              ok == v.ok && Bucket(visitor.tokens, visitor.lastSeen) == v.bucket
    {
      var tokensToAdd := Truncate((now - visitor.lastSeen) * rate);
      if tokensToAdd > 0 {
        visitor.tokens := visitor.tokens + tokensToAdd;
        if visitor.tokens > burst {
          visitor.tokens := burst;
        }
        visitor.lastSeen := now;
      }
      ok := visitor.tokens > 0;
      if ok {
        visitor.tokens := visitor.tokens - 1;
      }
    }

    method CleanupVisitors(now: int)
      requires Valid()
      modifies this
      ensures Valid() && visitors.Values <= old(visitors.Values)
      ensures View() == Sweep(old(View()), now)
    {
      var pending := visitors.Keys;
      while pending != {}
        invariant Valid() && visitors.Values <= old(visitors.Values)
        invariant pending <= visitors.Keys <= old(visitors).Keys
        invariant forall ip :: ip in visitors ==> visitors[ip] == old(visitors)[ip]
        invariant forall ip :: ip in old(visitors) && ip !in pending ==>
                    (ip in visitors <==> !Stale(old(View())[ip], now))
        decreases pending
      {
        var ip :| ip in pending;
        if now - visitors[ip].lastSeen > CLEANUP {
          visitors := visitors - {ip};
        }
        pending := pending - {ip};
      }
    }
  }

  function Lookup(state: map<string, Bucket>, ip: string): Option<Bucket>
  {
    if ip in state then Some(state[ip]) else None
  }

  function Sweep(state: map<string, Bucket>, now: int): map<string, Bucket>
  {
    map ip | ip in state && !Stale(state[ip], now) :: state[ip]
  }

  // ------------------------------------------------- runs of calls and cleanup ticks

  datatype Event = Request(ip: string, now: int) | Tick(now: int)

  ghost predicate TimeOrdered(events: seq<Event>)
  {
    && (forall i :: 0 <= i < |events| ==> 0 <= events[i].now)
    && (forall i, j :: 0 <= i < j < |events| ==> events[i].now <= events[j].now)
  }

  /** The visitors table after a run; with `evict` off, ticks do nothing. */
  function Table(events: seq<Event>, evict: bool, rate: int, burst: int): map<string, Bucket>
  {
    if events == [] then map[]
    else
      var before := Table(Front(events), evict, rate, burst);
      match Last(events)
      case Request(ip, now) => before[ip := Serve(Lookup(before, ip), now, rate, burst).bucket]
      case Tick(now) => if evict then Sweep(before, now) else before
  }

  /** The answer to the last event of a run (ticks answer false). */
  predicate Answer(events: seq<Event>, evict: bool, rate: int, burst: int)
    requires events != []
  {
    match Last(events)
    case Request(ip, now) =>
      Serve(Lookup(Table(Front(events), evict, rate, burst), ip), now, rate, burst).ok
    case Tick(_) => false
  }

  /** How many requests of `ip` a run admits. */
  function Admitted(events: seq<Event>, ip: string, evict: bool, rate: int, burst: int): nat
  {
    if events == [] then 0
    else
      Admitted(Front(events), ip, evict, rate, burst) +
      (if Last(events).Request? && Last(events).ip == ip && Answer(events, evict, rate, burst) then 1 else 0)
  }

  function Front<T>(s: seq<T>): seq<T> requires s != [] { s[..|s| - 1] }
  function Last<T>(s: seq<T>): T requires s != [] { s[|s| - 1] }

  // ----------------------------------------------------------- the real-valued bucket

  /** A bucket whose level, in credit units, grows continuously up to burst tokens
      and which admits a request whenever it holds at least one token. */
  datatype Ideal = Ideal(level: int, seen: int, admitted: nat)

  function Speed(rate: int): int { if rate > 0 then rate else 0 }

  function IdealServe(i: Ideal, now: int, rate: int, burst: int): Ideal
  {
    var level := Min(burst * TOKEN, i.level + Speed(rate) * (now - i.seen));
    if level >= TOKEN then Ideal(level - TOKEN, now, i.admitted + 1) else Ideal(level, now, i.admitted)
  }

  function IdealRun(events: seq<Event>, ip: string, rate: int, burst: int): Ideal
  {
    if events == [] then Ideal(burst * TOKEN, 0, 0)
    else
      var before := IdealRun(Front(events), ip, rate, burst);
      var last := Last(events);
      if last.Request? && last.ip == ip then IdealServe(before, last.now, rate, burst) else before
  }

  // ------------------------------------------------------------------------- proofs

  /** The tokens in hand plus the credit earned since lastSeen. */
  function Worth(b: Bucket, at: int, rate: int): int
  {
    b.tokens * TOKEN + Speed(rate) * (at - b.lastSeen)
  }

  /** What every visitor satisfies between calls, for a positive burst. */
  ghost predicate Settled(b: Bucket, at: int, rate: int, burst: int)
  {
    0 <= b.tokens < burst && b.lastSeen <= at && Speed(rate) * (at - b.lastSeen) < TOKEN
  }

  lemma EarnedSplits(speed: int, a: int, b: int, c: int)
    ensures speed * (c - a) == speed * (b - a) + speed * (c - b)
  {}

  lemma EarnedSign(speed: int, span: int)
    requires span >= 0
    ensures speed >= 0 ==> speed * span >= 0
    ensures speed <= 0 ==> speed * span <= 0
  {}

  /** One call on a known visitor: its worth never exceeds the full bucket, grows no
      faster than the clock, and pays for the admission. */
  lemma ServeWorth(b: Bucket, seen: int, now: int, rate: int, burst: int)
    requires Settled(b, seen, rate, burst) && seen <= now
    ensures var v := Serve(Some(b), now, rate, burst);
            var paid := Worth(v.bucket, now, rate) + (if v.ok then TOKEN else 0);
            && Settled(v.bucket, now, rate, burst)
            && (v.ok || v.bucket.tokens == 0)
            && paid <= burst * TOKEN
            && paid <= Worth(b, seen, rate) + Speed(rate) * (now - seen)
  {
    EarnedSplits(Speed(rate), b.lastSeen, seen, now);
    EarnedSign(rate, now - b.lastSeen);
    EarnedSign(Speed(rate), now - seen);
  }

  lemma ServeNew(now: int, rate: int, burst: int)
    requires burst >= 1
    ensures Serve(None, now, rate, burst) == Verdict(true, Bucket(burst - 1, now))
    ensures Settled(Bucket(burst - 1, now), now, rate, burst)
  {}

  /** The last instant at which `ip` called. */
  function LastCall(events: seq<Event>, ip: string): int
  {
    if events == [] then 0
    else if Last(events).Request? && Last(events).ip == ip then Last(events).now
    else LastCall(Front(events), ip)
  }

  lemma {:induction false} LastCallIsPast(events: seq<Event>, ip: string, now: int)
    requires Until(events, now)
    ensures LastCall(events, ip) <= now
  {
    if events != [] {
      LastCallIsPast(Front(events), ip, now);
    }
  }

  /** Between calls every visitor holds at most burst - 1 tokens and less than one token
      of credit, and what it has spent was admitted; evictions change nothing about it. */
  lemma {:induction false} VisitorsSettled(events: seq<Event>, ip: string, evict: bool, rate: int, burst: int)
    requires TimeOrdered(events) && burst >= 1
    ensures var t := Table(events, evict, rate, burst);
            ip in t ==> && Settled(t[ip], LastCall(events, ip), rate, burst)
                        && t[ip].tokens + Admitted(events, ip, evict, rate, burst) >= burst
  {
    if events != [] {
      var before, last := Front(events), Last(events);
      VisitorsSettled(before, ip, evict, rate, burst);
      if last.Request? && last.ip == ip {
        var t := Table(before, evict, rate, burst);
        if ip in t {
          LastCallIsPast(before, ip, last.now);
          ServeWorth(t[ip], LastCall(before, ip), last.now, rate, burst);
          RefillAdds(t[ip], last.now, rate, burst);
        } else {
          ServeNew(last.now, rate, burst);
        }
      }
    }
  }

  lemma RefillAdds(b: Bucket, now: int, rate: int, burst: int)
    requires b.tokens < burst
    ensures Refill(b, now, rate, burst).tokens >= b.tokens
  {}

  lemma ServeNoBurst(known: Option<Bucket>, now: int, rate: int, burst: int)
    requires burst <= 0 && (known.Some? ==> known.value.tokens == burst)
    ensures !Serve(known, now, rate, burst).ok
    ensures Serve(known, now, rate, burst).bucket.tokens == burst
  {}

  lemma {:induction false} NoBurstNoAdmission(events: seq<Event>, ip: string, evict: bool, rate: int, burst: int)
    requires burst <= 0
    ensures forall p :: p in Table(events, evict, rate, burst) ==>
              Table(events, evict, rate, burst)[p].tokens == burst
    ensures Admitted(events, ip, evict, rate, burst) == 0
    ensures events != [] ==> !Answer(events, evict, rate, burst)
  {
    if events != [] {
      var before, last := Front(events), Last(events);
      NoBurstNoAdmission(before, ip, evict, rate, burst);
      var t := Table(before, evict, rate, burst);
      if last.Request? {
        ServeNoBurst(Lookup(t, last.ip), last.now, rate, burst);
      }
    }
  }

  /** One call seen by the limiter (`a` admissions so far) and by the ideal bucket. */
  lemma CoverageServe(b: Bucket, ideal: Ideal, a: nat, now: int, rate: int, burst: int)
    requires Settled(b, ideal.seen, rate, burst) && ideal.seen <= now && a <= ideal.admitted
    requires Worth(b, ideal.seen, rate) <= ideal.level + (ideal.admitted - a) * TOKEN
    ensures var v := Serve(Some(b), now, rate, burst);
            var a' := a + (if v.ok then 1 else 0);
            var ideal' := IdealServe(ideal, now, rate, burst);
            && a' <= ideal'.admitted
            && Worth(v.bucket, now, rate) <= ideal'.level + (ideal'.admitted - a') * TOKEN
  {
    ServeWorth(b, ideal.seen, now, rate, burst);
  }

  /** The simulation behind domination: what the limiter still owes is covered by the
      ideal bucket's level and the admissions by which the limiter is behind. */
  lemma {:induction false} Coverage(events: seq<Event>, ip: string, rate: int, burst: int)
    requires TimeOrdered(events) && burst >= 1
    ensures var t := Table(events, false, rate, burst);
            var a := Admitted(events, ip, false, rate, burst);
            var ideal := IdealRun(events, ip, rate, burst);
            && a <= ideal.admitted
            && ideal.seen == LastCall(events, ip)
            && if ip in t then Worth(t[ip], ideal.seen, rate) <= ideal.level + (ideal.admitted - a) * TOKEN
               else a == 0 && ideal == Ideal(burst * TOKEN, 0, 0)
  {
    if events != [] {
      var before, last := Front(events), Last(events);
      Coverage(before, ip, rate, burst);
      VisitorsSettled(before, ip, false, rate, burst);
      if last.Request? && last.ip == ip {
        LastCallIsPast(before, ip, last.now);
        var t := Table(before, false, rate, burst);
        if ip in t {
          var a := Admitted(before, ip, false, rate, burst);
          CoverageServe(t[ip], IdealRun(before, ip, rate, burst), a, last.now, rate, burst);
        } else {
          EarnedSign(Speed(rate), last.now);
          ServeNew(last.now, rate, burst);
        }
      }
    }
  }

  /** Ideal-bucket domination without eviction. */
  lemma DominatedWithoutEviction(events: seq<Event>, ip: string, rate: int, burst: int)
    requires TimeOrdered(events)
    ensures Admitted(events, ip, false, rate, burst) <= IdealRun(events, ip, rate, burst).admitted
  {
    if burst >= 1 {
      Coverage(events, ip, rate, burst);
    } else {
      NoBurstNoAdmission(events, ip, false, rate, burst);
    }
  }

  // Window bound ------------------------------------------------------------------

  function Window(pre: seq<Event>, win: seq<Event>, ip: string, evict: bool, rate: int, burst: int): int
  {
    Admitted(pre + win, ip, evict, rate, burst) - Admitted(pre, ip, evict, rate, burst)
  }

  ghost predicate Within(win: seq<Event>, start: int, span: int)
  {
    span >= 0 && forall e :: e in win ==> start <= e.now <= start + span
  }

  /** What a full bucket holds and a window of this length earns. */
  function Allowance(span: int, rate: int, burst: int): int
  {
    (if burst >= 0 then burst else 0) * TOKEN + Speed(rate) * span
  }

  lemma WindowServe(b: Bucket, seen: int, now: int, start: int, spent: int, rate: int, burst: int)
    requires Settled(b, seen, rate, burst) && start <= seen <= now
    requires spent * TOKEN + Worth(b, seen, rate) <= burst * TOKEN + Speed(rate) * (seen - start)
    ensures var v := Serve(Some(b), now, rate, burst);
            (if v.ok then spent + 1 else spent) * TOKEN + Worth(v.bucket, now, rate)
              <= burst * TOKEN + Speed(rate) * (now - start)
  {
    ServeWorth(b, seen, now, rate, burst);
    EarnedSplits(Speed(rate), start, seen, now);
  }

  predicate CalledIn(win: seq<Event>, ip: string)
  {
    win != [] && ((Last(win).Request? && Last(win).ip == ip) || CalledIn(Front(win), ip))
  }

  lemma ExtendWindow(pre: seq<Event>, win: seq<Event>)
    requires win != []
    ensures pre + win != [] && Front(pre + win) == pre + Front(win) && Last(pre + win) == Last(win)
  {}

  lemma {:induction false} LastCallInWindow(pre: seq<Event>, win: seq<Event>, ip: string, start: int, end: int)
    requires CalledIn(win, ip)
    requires forall e :: e in win ==> start <= e.now <= end
    ensures start <= LastCall(pre + win, ip) <= end
  {
    ExtendWindow(pre, win);
    assert Last(win) in win;
    if !(Last(win).Request? && Last(win).ip == ip) {
      LastCallInWindow(pre, Front(win), ip, start, end);
    }
  }

  /** Spent plus remaining worth is at most a full bucket plus what the window earned. */
  lemma {:induction false} WindowPotential(pre: seq<Event>, win: seq<Event>, ip: string, start: int, end: int,
                                           rate: int, burst: int)
    requires TimeOrdered(pre + win) && burst >= 1
    requires forall e :: e in win ==> start <= e.now <= end
    ensures var t := Table(pre + win, false, rate, burst);
            var spent := Window(pre, win, ip, false, rate, burst);
            var seen := LastCall(pre + win, ip);
            if CalledIn(win, ip) then
              ip in t && spent * TOKEN + Worth(t[ip], seen, rate) <= burst * TOKEN + Speed(rate) * (seen - start)
            else spent == 0
  {
    if win == [] {
      assert pre + win == pre;
    } else {
      var w, last := Front(win), Last(win);
      ExtendWindow(pre, win);
      WindowPotential(pre, w, ip, start, end, rate, burst);
      if last.Request? && last.ip == ip {
        var t := Table(pre + w, false, rate, burst);
        var spent := Window(pre, w, ip, false, rate, burst);
        if CalledIn(w, ip) {
          LastCallInWindow(pre, w, ip, start, end);
        }
        WindowCall(pre + w, last.now, start, spent, CalledIn(w, ip), ip, rate, burst);
      }
    }
  }

  lemma WindowCall(before: seq<Event>, now: int, start: int, spent: int, called: bool, ip: string, rate: int,
                   burst: int)
    requires Until(before, now) && burst >= 1 && start <= now
    requires if called then
               var t := Table(before, false, rate, burst);
               var seen := LastCall(before, ip);
               start <= seen && ip in t
               && spent * TOKEN + Worth(t[ip], seen, rate) <= burst * TOKEN + Speed(rate) * (seen - start)
             else spent == 0
    ensures var v := Serve(Lookup(Table(before, false, rate, burst), ip), now, rate, burst);
            (if v.ok then spent + 1 else spent) * TOKEN + Worth(v.bucket, now, rate)
              <= burst * TOKEN + Speed(rate) * (now - start)
  {
    var t := Table(before, false, rate, burst);
    if ip in t {
      var seen := LastCall(before, ip);
      VisitorsSettled(before, ip, false, rate, burst);
      LastCallIsPast(before, ip, now);
      if called {
        WindowServe(t[ip], seen, now, start, spent, rate, burst);
      } else {
        FirstInWindow(t[ip], seen, now, start, rate, burst);
      }
    } else {
      EarnedSign(Speed(rate), now - start);
      ServeNew(now, rate, burst);
    }
  }

  lemma FirstInWindow(b: Bucket, seen: int, now: int, start: int, rate: int, burst: int)
    requires Settled(b, seen, rate, burst) && seen <= now && start <= now
    ensures var v := Serve(Some(b), now, rate, burst);
            (if v.ok then TOKEN else 0) + Worth(v.bucket, now, rate) <= burst * TOKEN + Speed(rate) * (now - start)
  {
    ServeWorth(b, seen, now, rate, burst);
    EarnedSign(Speed(rate), now - start);
  }

  lemma WindowWithoutEviction(pre: seq<Event>, win: seq<Event>, ip: string, start: int, span: int, rate: int,
                              burst: int)
    requires TimeOrdered(pre + win) && Within(win, start, span)
    ensures Window(pre, win, ip, false, rate, burst) * TOKEN <= Allowance(span, rate, burst)
  {
    EarnedSign(Speed(rate), span);
    if burst >= 1 {
      WindowPotential(pre, win, ip, start, start + span, rate, burst);
      if CalledIn(win, ip) {
        var seen := LastCall(pre + win, ip);
        LastCallInWindow(pre, win, ip, start, start + span);
        VisitorsSettled(pre + win, ip, false, rate, burst);
        EarnedSplits(Speed(rate), start, seen, start + span);
        EarnedSign(Speed(rate), start + span - seen);
        EarnedSign(Speed(rate), seen - Table(pre + win, false, rate, burst)[ip].lastSeen);
      }
    } else {
      NoBurstNoAdmission(pre + win, ip, false, rate, burst);
      NoBurstNoAdmission(pre, ip, false, rate, burst);
    }
  }

  // Eviction ----------------------------------------------------------------------

  /** A visitor that may be evicted has always earned a full bucket back. */
  predicate EvictionIsFair(rate: int, burst: int)
  {
    burst <= 0 || (CLEANUP + 1) * rate >= burst * TOKEN
  }

  lemma {:induction false} EvictedTable(events: seq<Event>, ip: string, clock: int, rate: int, burst: int)
    requires Until(events, clock) && burst >= 1 && EvictionIsFair(rate, burst)
    ensures var e := Table(events, true, rate, burst);
            var f := Table(events, false, rate, burst);
            && (ip in e ==> ip in f && e[ip] == f[ip])
            && (ip in f && ip !in e ==> Stale(f[ip], clock))
    ensures events != [] && Last(events).Request? && Last(events).ip == ip ==>
              Answer(events, true, rate, burst) == Answer(events, false, rate, burst)
  {
    if events != [] {
      var before, last := Front(events), Last(events);
      EvictedTable(before, ip, last.now, rate, burst);
      VisitorsSettled(before, ip, false, rate, burst);
      if last.Request? && last.ip == ip {
        var e, f := Table(before, true, rate, burst), Table(before, false, rate, burst);
        if ip in f && ip !in e {
          EvictedServe(f[ip], last.now, rate, burst);
        }
      }
    }
  }

  lemma EvictedServe(b: Bucket, now: int, rate: int, burst: int)
    requires burst >= 1 && EvictionIsFair(rate, burst)
    requires 0 <= b.tokens && Stale(b, now)
    ensures Serve(Some(b), now, rate, burst) == Serve(None, now, rate, burst)
  {
    var earned := (now - b.lastSeen) * rate;
    assert rate >= 1;
    assert earned >= (CLEANUP + 1) * rate by {
      EarnedSplits(rate, 0, CLEANUP + 1, now - b.lastSeen);
      EarnedSign(rate, now - b.lastSeen - (CLEANUP + 1));
    }
    assert Truncate(earned) >= burst;
  }

  /** Under a fair setting no client can tell whether visitors are ever evicted. */
  lemma {:induction false} EvictionUnobservable(events: seq<Event>, ip: string, rate: int, burst: int)
    requires TimeOrdered(events) && EvictionIsFair(rate, burst)
    ensures events != [] ==> Answer(events, true, rate, burst) == Answer(events, false, rate, burst)
    ensures Admitted(events, ip, true, rate, burst) == Admitted(events, ip, false, rate, burst)
  {
    if events != [] {
      var last := Last(events);
      EvictionUnobservable(Front(events), ip, rate, burst);
      if burst <= 0 {
        NoBurstNoAdmission(events, ip, true, rate, burst);
        NoBurstNoAdmission(events, ip, false, rate, burst);
      } else if last.Request? {
        EvictedTable(events, last.ip, last.now, rate, burst);
      }
    }
  }

  /** `k` calls of one client at one instant. */
  function Volley(ip: string, now: int, k: nat): seq<Event>
  {
    if k == 0 then [] else Volley(ip, now, k - 1) + [Request(ip, now)]
  }

  ghost predicate Until(events: seq<Event>, now: int)
  {
    TimeOrdered(events) && 0 <= now && forall i :: 0 <= i < |events| ==> events[i].now <= now
  }

  lemma AppendOrdered(events: seq<Event>, e: Event, clock: int)
    requires Until(events, clock) && clock <= e.now
    ensures Until(events + [e], e.now)
  {}

  lemma {:induction false} VolleyOrdered(pre: seq<Event>, ip: string, now: int, k: nat)
    requires Until(pre, now)
    ensures Until(pre + Volley(ip, now, k), now)
  {
    if k == 0 {
      assert pre + [] == pre;
    } else {
      VolleyOrdered(pre, ip, now, k - 1);
      AppendOrdered(pre + Volley(ip, now, k - 1), Request(ip, now), now);
      assert pre + Volley(ip, now, k) == (pre + Volley(ip, now, k - 1)) + [Request(ip, now)];
    }
  }

  lemma RefillSettles(b: Bucket, now: int, rate: int, burst: int)
    ensures Truncate((now - Refill(b, now, rate, burst).lastSeen) * rate) <= 0
  {}

  lemma ServeSettled(b: Bucket, now: int, rate: int, burst: int)
    requires Truncate((now - b.lastSeen) * rate) <= 0
    ensures Serve(Some(b), now, rate, burst)
         == if b.tokens > 0 then Verdict(true, b.(tokens := b.tokens - 1)) else Verdict(false, b)
  {}

  /** The bucket a call of `ip` at `now` would find after its refill. */
  function Found(t: map<string, Bucket>, ip: string, now: int, rate: int, burst: int): Bucket
  {
    Refill(if ip in t then t[ip] else Bucket(burst, now), now, rate, burst)
  }

  function Drained(b: Bucket, k: nat): Bucket
  {
    b.(tokens := if b.tokens >= k then b.tokens - k else Min(b.tokens, 0))
  }

  /** A volley drains a bucket one token at a time: its k-th call is admitted iff the
      bucket held k tokens when the volley began. */
  lemma {:induction false} VolleyDrains(pre: seq<Event>, ip: string, now: int, k: nat, evict: bool, rate: int,
                                        burst: int)
    requires k >= 1
    ensures var first := Found(Table(pre, evict, rate, burst), ip, now, rate, burst);
            var events := pre + Volley(ip, now, k);
            var after := Table(events, evict, rate, burst);
            && events != []
            && Answer(events, evict, rate, burst) == (first.tokens >= k)
            && ip in after && after[ip] == Drained(first, k)
  {
    var t := Table(pre, evict, rate, burst);
    var first := Found(t, ip, now, rate, burst);
    var events := pre + Volley(ip, now, k);
    assert Front(events) == pre + Volley(ip, now, k - 1) && Last(events) == Request(ip, now);
    if k == 1 {
      assert Front(events) == pre;
    } else {
      VolleyDrains(pre, ip, now, k - 1, evict, rate, burst);
      RefillSettles(if ip in t then t[ip] else Bucket(burst, now), now, rate, burst);
      ServeSettled(Drained(first, k - 1), now, rate, burst);
    }
  }

  /** The run that shows an unfair setting: spend the whole bucket, be evicted at the
      first instant possible, spend the whole bucket again. */
  function Exploit(ip: string, burst: nat): seq<Event>
  {
    Volley(ip, 0, burst) + [Tick(CLEANUP + 1)] + Volley(ip, CLEANUP + 1, burst)
  }

  lemma SpentThenEvicted(ip: string, evict: bool, rate: int, burst: int)
    requires !EvictionIsFair(rate, burst)
    ensures var t := Table(Volley(ip, 0, burst) + [Tick(CLEANUP + 1)], evict, rate, burst);
            var found := Found(t, ip, CLEANUP + 1, rate, burst);
            if evict then found.tokens == burst else found.tokens < burst
  {
    var first := Volley(ip, 0, burst);
    var pre := first + [Tick(CLEANUP + 1)];
    assert [] + first == first;
    assert Front(pre) == first && Last(pre) == Tick(CLEANUP + 1);
    VolleyDrains([], ip, 0, burst, evict, rate, burst);
    var spent := Table(first, evict, rate, burst)[ip];
    assert spent == Bucket(0, 0);
    UnfairRefill(rate, burst);
    FreshRefill(CLEANUP + 1, rate, burst);
  }

  lemma FreshRefill(now: int, rate: int, burst: int)
    ensures Refill(Bucket(burst, now), now, rate, burst) == Bucket(burst, now)
  {}

  lemma UnfairRefill(rate: int, burst: int)
    requires !EvictionIsFair(rate, burst)
    ensures Refill(Bucket(0, 0), CLEANUP + 1, rate, burst).tokens < burst
  {}

  lemma ExploitOrdered(ip: string, burst: nat)
    ensures Until(Exploit(ip, burst), CLEANUP + 1)
  {
    var first := Volley(ip, 0, burst);
    VolleyOrdered([], ip, 0, burst);
    assert [] + first == first;
    AppendOrdered(first, Tick(CLEANUP + 1), 0);
    VolleyOrdered(first + [Tick(CLEANUP + 1)], ip, CLEANUP + 1, burst);
  }

  lemma ExploitAnswer(ip: string, evict: bool, rate: int, burst: int)
    requires !EvictionIsFair(rate, burst)
    ensures Exploit(ip, burst) != [] && Answer(Exploit(ip, burst), evict, rate, burst) == evict
  {
    SpentThenEvicted(ip, evict, rate, burst);
    VolleyDrains(Volley(ip, 0, burst) + [Tick(CLEANUP + 1)], ip, CLEANUP + 1, burst, evict, rate, burst);
  }

  lemma UnfairEvictionShows(ip: string, rate: int, burst: int)
    requires !EvictionIsFair(rate, burst)
    ensures TimeOrdered(Exploit(ip, burst)) && Exploit(ip, burst) != []
    ensures Answer(Exploit(ip, burst), true, rate, burst)
    ensures !Answer(Exploit(ip, burst), false, rate, burst)
  {
    ExploitOrdered(ip, burst);
    ExploitAnswer(ip, true, rate, burst);
    ExploitAnswer(ip, false, rate, burst);
  }

  ghost predicate Unobservable(rate: int, burst: int)
  {
    forall events :: TimeOrdered(events) && events != [] ==>
      Answer(events, true, rate, burst) == Answer(events, false, rate, burst)
  }

  /** Eviction is unobservable exactly when the setting is fair. */
  lemma EvictionTheorem(rate: int, burst: int)
    ensures Unobservable(rate, burst) <==> EvictionIsFair(rate, burst)
    ensures EvictionIsFair(rate, burst) <==> burst <= 0 || 300_000_000_001 * rate >= 60_000_000_000 * burst
    ensures 5 * rate >= burst ==> EvictionIsFair(rate, burst)
  {
    if EvictionIsFair(rate, burst) {
      forall events | TimeOrdered(events) && events != []
        ensures Answer(events, true, rate, burst) == Answer(events, false, rate, burst)
      {
        EvictionUnobservable(events, "", rate, burst);
      }
    } else {
      UnfairEvictionShows("", rate, burst);
    }
  }

  // What eviction does to the two bounds ----------------------------------------------

  lemma DominatedUnderFairEviction(events: seq<Event>, ip: string, rate: int, burst: int)
    requires TimeOrdered(events) && EvictionIsFair(rate, burst)
    ensures Admitted(events, ip, true, rate, burst) <= IdealRun(events, ip, rate, burst).admitted
  {
    EvictionUnobservable(events, ip, rate, burst);
    DominatedWithoutEviction(events, ip, rate, burst);
  }

  lemma WindowUnderFairEviction(pre: seq<Event>, win: seq<Event>, ip: string, start: int, span: int, rate: int,
                                burst: int)
    requires TimeOrdered(pre + win) && Within(win, start, span) && EvictionIsFair(rate, burst)
    ensures Window(pre, win, ip, true, rate, burst) * TOKEN <= Allowance(span, rate, burst)
  {
    assert TimeOrdered((pre + win)[..|pre|]) && (pre + win)[..|pre|] == pre;
    EvictionUnobservable(pre, ip, rate, burst);
    EvictionUnobservable(pre + win, ip, rate, burst);
    WindowWithoutEviction(pre, win, ip, start, span, rate, burst);
  }

  /** A volley on a bucket with at least k tokens is admitted in full. */
  lemma {:induction false} VolleyAdmits(pre: seq<Event>, ip: string, now: int, k: nat, evict: bool, rate: int,
                                        burst: int)
    requires Found(Table(pre, evict, rate, burst), ip, now, rate, burst).tokens >= k
    ensures Admitted(pre + Volley(ip, now, k), ip, evict, rate, burst) == Admitted(pre, ip, evict, rate, burst) + k
  {
    var events := pre + Volley(ip, now, k);
    if k == 0 {
      assert events == pre;
    } else {
      VolleyAdmits(pre, ip, now, k - 1, evict, rate, burst);
      VolleyDrains(pre, ip, now, k, evict, rate, burst);
      assert Front(events) == pre + Volley(ip, now, k - 1) && Last(events) == Request(ip, now);
    }
  }

  /** Under an unfair setting the run that shows it is admitted twice the burst. */
  lemma ExploitAdmitsTwice(ip: string, rate: int, burst: int)
    requires !EvictionIsFair(rate, burst)
    ensures Admitted(Exploit(ip, burst), ip, true, rate, burst) == 2 * burst
  {
    var first := Volley(ip, 0, burst);
    var pre := first + [Tick(CLEANUP + 1)];
    FreshRefill(0, rate, burst);
    VolleyAdmits([], ip, 0, burst, true, rate, burst);
    assert [] + first == first;
    assert Front(pre) == first && Last(pre) == Tick(CLEANUP + 1);
    SpentThenEvicted(ip, true, rate, burst);
    VolleyAdmits(pre, ip, CLEANUP + 1, burst, true, rate, burst);
  }

  /** The ideal bucket admits no more than it held at first and has earned since. */
  lemma {:induction false} IdealPays(events: seq<Event>, ip: string, clock: int, rate: int, burst: int)
    requires Until(events, clock) && burst >= 0
    ensures var i := IdealRun(events, ip, rate, burst);
            && 0 <= i.level <= burst * TOKEN && 0 <= i.seen <= clock
            && i.admitted * TOKEN + i.level <= burst * TOKEN + Speed(rate) * i.seen
  {
    if events != [] {
      var before, last := Front(events), Last(events);
      IdealPays(before, ip, last.now, rate, burst);
      var i := IdealRun(before, ip, rate, burst);
      EarnedSplits(Speed(rate), 0, i.seen, last.now);
      EarnedSign(Speed(rate), last.now - i.seen);
    }
  }

  /** An unfair setting leaves two bursts above what one full bucket can earn. */
  lemma UnfairAllowance(rate: int, burst: int)
    requires !EvictionIsFair(rate, burst)
    ensures Allowance(CLEANUP + 1, rate, burst) < 2 * burst * TOKEN
  {}

  lemma ExploitBeatsIdeal(ip: string, rate: int, burst: int)
    requires !EvictionIsFair(rate, burst)
    ensures TimeOrdered(Exploit(ip, burst))
    ensures Admitted(Exploit(ip, burst), ip, true, rate, burst) > IdealRun(Exploit(ip, burst), ip, rate, burst).admitted
  {
    var i := IdealRun(Exploit(ip, burst), ip, rate, burst);
    ExploitOrdered(ip, burst);
    ExploitAdmitsTwice(ip, rate, burst);
    IdealPays(Exploit(ip, burst), ip, CLEANUP + 1, rate, burst);
    UnfairAllowance(rate, burst);
    EarnedSplits(Speed(rate), 0, i.seen, CLEANUP + 1);
    EarnedSign(Speed(rate), CLEANUP + 1 - i.seen);
  }

  lemma ExploitBreaksWindow(ip: string, rate: int, burst: int)
    requires !EvictionIsFair(rate, burst)
    ensures [] + Exploit(ip, burst) == Exploit(ip, burst) && TimeOrdered(Exploit(ip, burst))
    ensures Within(Exploit(ip, burst), 0, CLEANUP + 1)
    ensures Window([], Exploit(ip, burst), ip, true, rate, burst) * TOKEN > Allowance(CLEANUP + 1, rate, burst)
  {
    assert [] + Exploit(ip, burst) == Exploit(ip, burst);
    ExploitOrdered(ip, burst);
    ExploitAdmitsTwice(ip, rate, burst);
    assert Window([], Exploit(ip, burst), ip, true, rate, burst) == 2 * burst;
    UnfairAllowance(rate, burst);
  }

  ghost predicate Dominated(rate: int, burst: int)
  {
    forall events, ip :: TimeOrdered(events) ==>
      Admitted(events, ip, true, rate, burst) <= IdealRun(events, ip, rate, burst).admitted
  }

  ghost predicate WindowsBounded(rate: int, burst: int)
  {
    forall pre, win, ip, start, span :: TimeOrdered(pre + win) && Within(win, start, span) ==>
      Window(pre, win, ip, true, rate, burst) * TOKEN <= Allowance(span, rate, burst)
  }

  /** Main result: the limiter never admits more than the real-valued bucket, on every
      run of calls and cleanup ticks, exactly when eviction is fair. */
  lemma IdealBucketDominates(rate: int, burst: int)
    ensures Dominated(rate, burst) <==> EvictionIsFair(rate, burst)
  {
    if EvictionIsFair(rate, burst) {
      forall events, ip | TimeOrdered(events)
        ensures Admitted(events, ip, true, rate, burst) <= IdealRun(events, ip, rate, burst).admitted
      {
        DominatedUnderFairEviction(events, ip, rate, burst);
      }
    } else {
      ExploitBeatsIdeal("", rate, burst);
    }
  }

  /** Main result: in any window of any run one client gets at most burst plus
      rate * span / (one minute) admissions, exactly when eviction is fair. */
  lemma WindowBound(rate: int, burst: int)
    ensures WindowsBounded(rate, burst) <==> EvictionIsFair(rate, burst)
  {
    if EvictionIsFair(rate, burst) {
      forall pre, win, ip, start, span | TimeOrdered(pre + win) && Within(win, start, span)
        ensures Window(pre, win, ip, true, rate, burst) * TOKEN <= Allowance(span, rate, burst)
      {
        WindowUnderFairEviction(pre, win, ip, start, span, rate, burst);
      }
    } else {
      ExploitBreaksWindow("", rate, burst);
    }
  }

  // Not too strict ----------------------------------------------------------------

  lemma ServeAfterPause(b: Bucket, seen: int, now: int, rate: int, burst: int)
    requires Settled(b, seen, rate, burst) && seen <= now && (now - seen) * rate >= TOKEN
    ensures Serve(Some(b), now, rate, burst).ok
  {
    EarnedSign(-rate, now - seen);
    assert rate >= 0;
    EarnedSplits(rate, b.lastSeen, seen, now);
    EarnedSign(rate, seen - b.lastSeen);
    assert (now - b.lastSeen) * rate >= TOKEN;
  }

  /** The last instant at which a call of `ip` was admitted. */
  function LastAdmission(events: seq<Event>, ip: string, evict: bool, rate: int, burst: int): int
  {
    if events == [] then 0
    else if Last(events).Request? && Last(events).ip == ip && Answer(events, evict, rate, burst) then Last(events).now
    else LastAdmission(Front(events), ip, evict, rate, burst)
  }

  lemma {:induction false} LastAdmissionIsPast(events: seq<Event>, ip: string, evict: bool, rate: int, burst: int,
                                               now: int)
    requires Until(events, now)
    ensures LastAdmission(events, ip, evict, rate, burst) <= now
  {
    if events != [] {
      LastAdmissionIsPast(Front(events), ip, evict, rate, burst, now);
    }
  }

  /** Credit is counted at the latest from the last admission: rejected calls do not
      move lastSeen. */
  lemma {:induction false} CreditSinceAdmission(events: seq<Event>, ip: string, evict: bool, rate: int, burst: int)
    requires TimeOrdered(events) && burst >= 1
    ensures var t := Table(events, evict, rate, burst);
            ip in t ==> t[ip].lastSeen <= LastAdmission(events, ip, evict, rate, burst)
  {
    if events != [] {
      var before, last := Front(events), Last(events);
      CreditSinceAdmission(before, ip, evict, rate, burst);
      VisitorsSettled(before, ip, evict, rate, burst);
      if last.Request? && last.ip == ip {
        LastAdmissionIsPast(before, ip, evict, rate, burst, last.now);
        if ip !in Table(before, evict, rate, burst) {
          ServeNew(last.now, rate, burst);
        }
      }
    }
  }

  /** Main result: under every setting, evicting or not, a client is turned away only
      after it was admitted at least `burst` times, and never when as long as one token
      takes has passed since its last call, or since its last admission, however often
      it has called meanwhile. */
  lemma NoEarlyRejection(events: seq<Event>, ip: string, now: int, evict: bool, rate: int, burst: int)
    requires TimeOrdered(events + [Request(ip, now)]) && burst >= 1
    requires !Answer(events + [Request(ip, now)], evict, rate, burst)
    ensures Admitted(events, ip, evict, rate, burst) >= burst
    ensures (now - LastCall(events, ip)) * rate < TOKEN
    ensures (now - LastAdmission(events, ip, evict, rate, burst)) * rate < TOKEN
  {
    var run := events + [Request(ip, now)];
    assert Front(run) == events && Last(run) == Request(ip, now);
    assert TimeOrdered(run[..|events|]) && run[..|events|] == events;
    VisitorsSettled(events, ip, evict, rate, burst);
    var t := Table(events, evict, rate, burst);
    if ip !in t {
      ServeNew(now, rate, burst);
      assert false;
    } else {
      assert forall i :: 0 <= i < |events| ==> events[i] == run[i];
      LastCallIsPast(events, ip, now);
      RejectedIsEmpty(t[ip], LastCall(events, ip), now, rate, burst);
      CreditSinceAdmission(events, ip, evict, rate, burst);
      LastAdmissionIsPast(events, ip, evict, rate, burst, now);
      RejectedSoon(t[ip], LastAdmission(events, ip, evict, rate, burst), now, rate, burst);
    }
  }

  lemma RejectedSoon(b: Bucket, admitted: int, now: int, rate: int, burst: int)
    requires 0 <= b.tokens && b.lastSeen <= admitted <= now && burst >= 1 && !Serve(Some(b), now, rate, burst).ok
    ensures (now - admitted) * rate < TOKEN
  {
    EarnedSplits(rate, b.lastSeen, admitted, now);
    EarnedSign(rate, admitted - b.lastSeen);
    EarnedSign(rate, now - admitted);
  }

  lemma RejectedIsEmpty(b: Bucket, seen: int, now: int, rate: int, burst: int)
    requires Settled(b, seen, rate, burst) && seen <= now
    requires !Serve(Some(b), now, rate, burst).ok
    ensures b.tokens == 0 && (now - seen) * rate < TOKEN
  {
    if (now - seen) * rate >= TOKEN {
      ServeAfterPause(b, seen, now, rate, burst);
    }
  }
}
