/** The per-address token bucket in front of the REST API. */
module RateLimiter {

  const CAPACITY := 100

  /** Whole tokens earned in `elapsed` nanoseconds at 100 per minute, that is 5 per
      3 seconds, truncated toward zero: the fraction is lost. */
  function Refill(elapsed: int): (n: int)
    ensures elapsed >= 0 ==> 3_000_000_000 * n <= 5 * elapsed < 3_000_000_000 * (n + 1)
  {
    if elapsed >= 0 then 5 * elapsed / 3_000_000_000 else -(5 * -elapsed / 3_000_000_000)
  }

  class RateBucket {
    var tokens: int
    var lastSeen: int

    constructor (tokens: int, lastSeen: int)
      ensures this.tokens == tokens && this.lastSeen == lastSeen
    {
      this.tokens, this.lastSeen := tokens, lastSeen;
    }
  }

  /** A bucket as a value. */
  datatype Bucket = Bucket(tokens: int, lastSeen: int)

  type Visitors = map<string, Bucket>

  function Min(a: int, b: int): int { if a < b then a else b }

  /** One call: the bucket afterwards and whether the call was let through. */
  function Take(v: Visitors, ip: string, now: int): (Visitors, bool)
  {
    if ip !in v then (v[ip := Bucket(CAPACITY - 1, now)], true)
    else
      var tokens := Min(CAPACITY, v[ip].tokens + Refill(now - v[ip].lastSeen));
      if tokens <= 0 then (v[ip := Bucket(tokens, now)], false) else (v[ip := Bucket(tokens - 1, now)], true)
  }

  class IpRateLimiter {
    var visitors: map<string, RateBucket>
    ghost var View: Visitors

    /** No two addresses share a bucket. */
    ghost predicate Valid()
      reads this, visitors.Values
    {
      && View.Keys == visitors.Keys
      && (forall ip :: ip in visitors ==> View[ip] == Bucket(visitors[ip].tokens, visitors[ip].lastSeen))
      && (forall p, q :: p in visitors && q in visitors && p != q ==> visitors[p] != visitors[q])
    }

    constructor ()
      ensures Valid() && View == map[]
    {
      visitors, View := map[], map[];
    }

    method Allow(ip: string, now: int) returns (ok: bool)
      requires Valid()
      modifies this, visitors.Values
      ensures Valid() && (View, ok) == Take(old(View), ip, now)
    {
      if ip !in visitors {
        var fresh' := new RateBucket(CAPACITY - 1, now);
        visitors := visitors[ip := fresh'];
        View := View[ip := Bucket(CAPACITY - 1, now)];
        return true;
      }
      var b := visitors[ip];
      b.tokens := b.tokens + Refill(now - b.lastSeen);
      if b.tokens > CAPACITY {
        b.tokens := CAPACITY;
      }
      b.lastSeen := now;
      if b.tokens <= 0 {
        View := View[ip := Bucket(b.tokens, now)];
        return false;
      }
      b.tokens := b.tokens - 1;
      View := View[ip := Bucket(b.tokens, now)];
      assert forall p :: p in visitors && p != ip ==> visitors[p] != b;
      return true;
    }
  }

  /** A call to the API from an address at a time. */
  datatype Visit = Visit(ip: string, at: int)

  ghost predicate InOrder(visits: seq<Visit>) {
    forall i, j :: 0 <= i < j < |visits| ==> visits[i].at <= visits[j].at
  }

  /** The tables and verdicts of a sequence of calls from an empty table. */
  ghost predicate Trace(visits: seq<Visit>, oks: seq<bool>, tables: seq<Visitors>) {
    && InOrder(visits) && |oks| == |visits| && |tables| == |visits| + 1 && tables[0] == map[]
    && (forall i :: 0 <= i < |visits| ==> Stepped(visits, oks, tables, i))
  }

  ghost predicate Stepped(visits: seq<Visit>, oks: seq<bool>, tables: seq<Visitors>, i: nat)
    requires i < |visits| && |oks| == |visits| && |tables| == |visits| + 1
  {
    (tables[i + 1], oks[i]) == Take(tables[i], visits[i].ip, visits[i].at)
  }

  /** Every sequence of calls has exactly one trace. */
  ghost function Run(visits: seq<Visit>): (r: (seq<Visitors>, seq<bool>))
    requires InOrder(visits)
    ensures Trace(visits, r.1, r.0)
  {
    if visits == [] then ([map[]], [])
    else
      var n := |visits| - 1;
      var (tables, oks) := Run(visits[..n]);
      var (v, ok) := Take(tables[n], visits[n].ip, visits[n].at);
      TraceGrows(visits, oks, tables);
      (tables + [v], oks + [ok])
  }

  lemma TraceGrows(visits: seq<Visit>, oks: seq<bool>, tables: seq<Visitors>)
    requires visits != [] && InOrder(visits) && Trace(visits[..|visits| - 1], oks, tables)
    ensures var n := |visits| - 1;
      var (v, ok) := Take(tables[n], visits[n].ip, visits[n].at);
      Trace(visits, oks + [ok], tables + [v])
  {
    var n := |visits| - 1;
    var (v, ok) := Take(tables[n], visits[n].ip, visits[n].at);
    forall i | 0 <= i < |visits|
      ensures Stepped(visits, oks + [ok], tables + [v], i)
    {
      if i < n {
        assert Stepped(visits[..n], oks, tables, i);
      }
    }
  }

  /** Tokens never leave 0..100, and a bucket was last seen at some earlier call. */
  lemma {:induction false} TokensBounded(visits: seq<Visit>, oks: seq<bool>, tables: seq<Visitors>, j: nat, ip: string)
    requires Trace(visits, oks, tables) && j <= |visits| && ip in tables[j]
    ensures 0 <= tables[j][ip].tokens <= 100
    ensures j > 0 && tables[j][ip].lastSeen <= visits[j - 1].at
  {
    assert Stepped(visits, oks, tables, j - 1);
    if ip in tables[j - 1] {
      TokensBounded(visits, oks, tables, j - 1, ip);
    }
  }

  /** Calls of `ip` let through among `visits[i..j]`. */
  function Allowed(visits: seq<Visit>, oks: seq<bool>, ip: string, i: nat, j: nat): nat
    requires i <= j <= |visits| <= |oks|
    decreases j
  {
    if i == j then 0
    else Allowed(visits, oks, ip, i, j - 1) + if visits[j - 1].ip == ip && oks[j - 1] then 1 else 0
  }

  /** The latest call of `ip` before position `n`, or -1. */
  function LastOf(visits: seq<Visit>, ip: string, n: nat): (k: int)
    requires n <= |visits|
    ensures -1 <= k < n
    ensures k >= 0 ==> visits[k].ip == ip
    ensures forall i :: k < i < n ==> visits[i].ip != ip
  {
    if n == 0 then -1
    else if visits[n - 1].ip == ip then n - 1
    else LastOf(visits, ip, n - 1)
  }

  /** Whole tokens earned in the gap before call `k` of its address: none on the first. */
  function Earned(visits: seq<Visit>, k: nat): int
    requires k < |visits|
  {
    var last := LastOf(visits, visits[k].ip, k);
    if last < 0 then 0 else Refill(visits[k].at - visits[last].at)
  }

  /** Whole tokens earned gap by gap between call `i` of `ip` and position `n`. */
  function Gain(visits: seq<Visit>, ip: string, i: nat, n: nat): int
    requires i < n <= |visits|
  {
    if n == i + 1 then 0
    else Gain(visits, ip, i, n - 1) + if visits[n - 1].ip == ip then Earned(visits, n - 1) else 0
  }

  /** An address has a bucket once it has called, last touched by its latest call. */
  lemma {:induction false} LastCall(visits: seq<Visit>, oks: seq<bool>, tables: seq<Visitors>, ip: string, n: nat)
    requires Trace(visits, oks, tables) && n <= |visits|
    ensures ip in tables[n] <==> LastOf(visits, ip, n) >= 0
    ensures ip in tables[n] ==> tables[n][ip].lastSeen == visits[LastOf(visits, ip, n)].at
  {
    if n > 0 {
      LastCall(visits, oks, tables, ip, n - 1);
      assert Stepped(visits, oks, tables, n - 1);
    }
  }

  /** What is left of 100 tokens at call `i`, had none been discarded at the cap since. */
  function Room(visits: seq<Visit>, oks: seq<bool>, ip: string, i: nat, n: nat): int
    requires i < n <= |visits| <= |oks|
  {
    CAPACITY + Gain(visits, ip, i, n) - Allowed(visits, oks, ip, i, n)
  }

  /** The bucket holds the least room left by any call so far. */
  ghost predicate Tight(visits: seq<Visit>, oks: seq<bool>, ip: string, n: nat, tokens: int)
    requires n <= |visits| <= |oks|
  {
    && (forall i :: 0 <= i < n && visits[i].ip == ip ==> tokens <= Room(visits, oks, ip, i, n))
    && (exists i :: 0 <= i < n && visits[i].ip == ip && tokens == Room(visits, oks, ip, i, n))
  }

  /** A call of another address moves nothing. */
  lemma OtherCallTight(visits: seq<Visit>, oks: seq<bool>, ip: string, n: nat, tokens: int)
    requires n < |visits| <= |oks| && visits[n].ip != ip && Tight(visits, oks, ip, n, tokens)
    ensures Tight(visits, oks, ip, n + 1, tokens)
  {
    var m := n + 1;
    assert forall i :: 0 <= i < n ==> Room(visits, oks, ip, i, m) == Room(visits, oks, ip, i, n);
    var i :| 0 <= i < n && visits[i].ip == ip && tokens == Room(visits, oks, ip, i, n);
    assert Room(visits, oks, ip, i, m) == tokens;
  }

  /** A call of the address: capped refill, then one token if there is one. */
  lemma OwnCallTight(visits: seq<Visit>, oks: seq<bool>, ip: string, n: nat, tokens: int)
    requires n < |visits| <= |oks| && visits[n].ip == ip && Tight(visits, oks, ip, n, tokens)
    ensures var full := Min(CAPACITY, tokens + Earned(visits, n));
      Tight(visits, oks, ip, n + 1, if oks[n] then full - 1 else full)
  {
    var m, spent := n + 1, if oks[n] then 1 else 0;
    var full := Min(CAPACITY, tokens + Earned(visits, n));
    forall i | 0 <= i < n
      ensures Room(visits, oks, ip, i, m) == Room(visits, oks, ip, i, n) + Earned(visits, n) - spent
    {
    }
    assert Allowed(visits, oks, ip, n, n) == 0;
    assert Room(visits, oks, ip, n, m) == CAPACITY - spent;
    if full == CAPACITY {
      assert full - spent == Room(visits, oks, ip, n, m);
    } else {
      var i :| 0 <= i < n && visits[i].ip == ip && tokens == Room(visits, oks, ip, i, n);
      assert full - spent == Room(visits, oks, ip, i, m);
    }
  }

  lemma FirstCallTight(visits: seq<Visit>, oks: seq<bool>, ip: string, n: nat)
    requires n < |visits| <= |oks| && visits[n].ip == ip && LastOf(visits, ip, n) < 0 && oks[n]
    ensures Tight(visits, oks, ip, n + 1, CAPACITY - 1)
  {
    assert Allowed(visits, oks, ip, n, n) == 0;
    assert Room(visits, oks, ip, n, n + 1) == CAPACITY - 1;
  }

  /** At every point the tokens of an address are what its own calls and gaps leave. */
  lemma {:induction false} AlwaysTight(visits: seq<Visit>, oks: seq<bool>, tables: seq<Visitors>, ip: string, n: nat)
    requires Trace(visits, oks, tables) && n <= |visits|
    ensures ip in tables[n] ==> Tight(visits, oks, ip, n, tables[n][ip].tokens)
  {
    if n > 0 {
      var m := n - 1;
      AlwaysTight(visits, oks, tables, ip, m);
      LastCall(visits, oks, tables, ip, m);
      assert Stepped(visits, oks, tables, m);
      if visits[m].ip != ip {
        if ip in tables[m] { OtherCallTight(visits, oks, ip, m, tables[m][ip].tokens); }
      } else if ip in tables[m] {
        OwnCallTight(visits, oks, ip, m, tables[m][ip].tokens);
      } else {
        FirstCallTight(visits, oks, ip, m);
      }
    }
  }

  /** Fewer than 100 plus the gain since call `i` were let through before call `j`. */
  ghost predicate WithinGain(visits: seq<Visit>, oks: seq<bool>, ip: string, i: nat, j: nat)
    requires i <= j < |visits| <= |oks|
  {
    Allowed(visits, oks, ip, i, j) < 100 + Gain(visits, ip, i, j + 1)
  }

  /** The room before call `j` spends anything, in terms of the room after it. */
  lemma RoomAt(visits: seq<Visit>, oks: seq<bool>, ip: string, i: nat, j: nat)
    requires i <= j < |visits| <= |oks| && visits[j].ip == ip
    ensures WithinGain(visits, oks, ip, i, j) <==> Room(visits, oks, ip, i, j + 1) + (if oks[j] then 1 else 0) > 0
  {
  }

  lemma VerdictInTrace(visits: seq<Visit>, oks: seq<bool>, tables: seq<Visitors>, ip: string, j: nat)
    requires Trace(visits, oks, tables) && j < |visits| && visits[j].ip == ip
    ensures oks[j] <==> forall i :: 0 <= i <= j && visits[i].ip == ip ==> WithinGain(visits, oks, ip, i, j)
  {
    assert Stepped(visits, oks, tables, j);
    AlwaysTight(visits, oks, tables, ip, j + 1);
    var tokens, n := tables[j + 1][ip].tokens, j + 1;
    forall i | 0 <= i <= j && visits[i].ip == ip
      ensures oks[j] ==> WithinGain(visits, oks, ip, i, j)
    {
      RoomAt(visits, oks, ip, i, j);
      TokensBounded(visits, oks, tables, n, ip);
      assert tokens <= Room(visits, oks, ip, i, n);
    }
    if !oks[j] {
      var i :| 0 <= i < n && visits[i].ip == ip && tokens == Room(visits, oks, ip, i, n);
      RoomAt(visits, oks, ip, i, j);
    }
  }

  /** The exact verdict: a call is let through if and only if, since every earlier call
      of its address, fewer calls were let through than 100 plus the whole tokens
      earned gap by gap, however calls of other addresses come in between. */
  lemma ExactVerdict(visits: seq<Visit>, ip: string, j: nat)
    requires InOrder(visits) && j < |visits| && visits[j].ip == ip
    ensures Run(visits).1[j] <==>
      forall i :: 0 <= i <= j && visits[i].ip == ip ==> WithinGain(visits, Run(visits).1, ip, i, j)
  {
    var (tables, oks) := Run(visits);
    VerdictInTrace(visits, oks, tables, ip, j);
  }

  lemma RefillAdds(a: int, b: int)
    requires a >= 0 && b >= 0
    ensures Refill(a) + Refill(b) <= Refill(a + b)
  {
  }

  /** Gap by gap no more is earned than over the whole time. */
  lemma {:induction false} GainBounded(visits: seq<Visit>, ip: string, i: nat, n: nat)
    requires InOrder(visits) && i < n <= |visits| && visits[i].ip == ip
    ensures LastOf(visits, ip, n) >= i
    ensures 0 <= Gain(visits, ip, i, n) <= Refill(visits[LastOf(visits, ip, n)].at - visits[i].at)
  {
    if n > i + 1 {
      GainBounded(visits, ip, i, n - 1);
      if visits[n - 1].ip == ip {
        var last := LastOf(visits, ip, n - 1);
        RefillAdds(visits[last].at - visits[i].at, visits[n - 1].at - visits[last].at);
      }
    }
  }

  /** By the verdicts alone, the calls let through stay within 100 plus the gain. */
  lemma {:induction false} AllowedWithinGain(visits: seq<Visit>, oks: seq<bool>, tables: seq<Visitors>, ip: string, i: nat, n: nat)
    requires Trace(visits, oks, tables) && i < n <= |visits| && visits[i].ip == ip
    ensures Allowed(visits, oks, ip, i, n) <= CAPACITY + Gain(visits, ip, i, n)
  {
    var m := n - 1;
    if visits[m].ip == ip {
      VerdictInTrace(visits, oks, tables, ip, m);
      assert oks[m] ==> WithinGain(visits, oks, ip, i, m);
    }
    if m > i {
      AllowedWithinGain(visits, oks, tables, ip, i, m);
      GainBounded(visits, ip, i, n);
      GainGrows(visits, ip, i, m);
    } else {
      assert Allowed(visits, oks, ip, i, i) == 0;
    }
  }

  lemma GainGrows(visits: seq<Visit>, ip: string, i: nat, n: nat)
    requires InOrder(visits) && i < n < |visits| && visits[i].ip == ip
    ensures Gain(visits, ip, i, n) <= Gain(visits, ip, i, n + 1)
  {
  }

  /** Tokens left plus calls let through since visit `i` never exceed the capacity
      plus what the elapsed time earned. */
  lemma Budget(visits: seq<Visit>, oks: seq<bool>, tables: seq<Visitors>, ip: string, i: nat, j: nat)
    requires Trace(visits, oks, tables) && i < j <= |visits| && visits[i].ip == ip
    ensures ip in tables[j] && visits[i].at <= tables[j][ip].lastSeen
    ensures tables[j][ip].tokens + Allowed(visits, oks, ip, i, j) <= CAPACITY + Refill(tables[j][ip].lastSeen - visits[i].at)
  {
    AlwaysTight(visits, oks, tables, ip, j);
    LastCall(visits, oks, tables, ip, j);
    GainBounded(visits, ip, i, j);
    assert tables[j][ip].tokens <= Room(visits, oks, ip, i, j);
  }

  /** Between any two calls of an address, both included, at most 100 plus
      floor(5t/3) are let through, t being the seconds between them, however calls
      of other addresses come in between. */
  lemma BucketBound(visits: seq<Visit>, ip: string, i: nat, j: nat)
    requires InOrder(visits) && i <= j < |visits| && visits[i].ip == ip && visits[j].ip == ip
    ensures Allowed(visits, Run(visits).1, ip, i, j + 1) <= 100 + 5 * (visits[j].at - visits[i].at) / 3_000_000_000
  {
    var (tables, oks) := Run(visits);
    AllowedWithinGain(visits, oks, tables, ip, i, j + 1);
    GainBounded(visits, ip, i, j + 1);
  }

  /** A refused call came less than 600 ms after the previous one of its address, so an
      address that always waits that long is never refused. */
  lemma RefusedCameSoon(visits: seq<Visit>, ip: string, j: nat)
    requires InOrder(visits) && j < |visits| && visits[j].ip == ip && !Run(visits).1[j]
    ensures LastOf(visits, ip, j) >= 0 && visits[j].at - visits[LastOf(visits, ip, j)].at < 600_000_000
  {
    var (tables, oks) := Run(visits);
    LastCall(visits, oks, tables, ip, j);
    assert Stepped(visits, oks, tables, j);
    TokensBounded(visits, oks, tables, j, ip);
  }

  /** Calls of `ip` among the first `n`. */
  function CallsOf(visits: seq<Visit>, ip: string, n: nat): nat
    requires n <= |visits|
  {
    if n == 0 then 0 else CallsOf(visits, ip, n - 1) + if visits[n - 1].ip == ip then 1 else 0
  }

  /** Consecutive calls of `ip` come less than 600 ms apart. */
  ghost predicate Dense(visits: seq<Visit>, ip: string) {
    forall j :: 0 <= j < |visits| && visits[j].ip == ip && LastOf(visits, ip, j) >= 0 ==>
      visits[j].at - visits[LastOf(visits, ip, j)].at < 600_000_000
  }

  /** A gap under 600 ms earns no whole token, and its fraction is forgotten. */
  lemma {:induction false} DenseGainsNothing(visits: seq<Visit>, ip: string, i: nat, n: nat)
    requires InOrder(visits) && Dense(visits, ip) && i < n <= |visits|
    ensures Gain(visits, ip, i, n) == 0
  {
    if n > i + 1 {
      DenseGainsNothing(visits, ip, i, n - 1);
      if visits[n - 1].ip == ip && LastOf(visits, ip, n - 1) >= 0 {
        assert visits[LastOf(visits, ip, n - 1)].at <= visits[n - 1].at;
      }
    }
  }

  /** Counting from the first call of the address is counting from the start. */
  lemma {:induction false} AllowedFrom(visits: seq<Visit>, oks: seq<bool>, ip: string, i: nat, n: nat)
    requires i <= n <= |visits| <= |oks|
    ensures Allowed(visits, oks, ip, 0, n) == Allowed(visits, oks, ip, 0, i) + Allowed(visits, oks, ip, i, n)
    decreases n
  {
    if n > i {
      AllowedFrom(visits, oks, ip, i, n - 1);
    }
  }

  lemma {:induction false} FirstCallOf(visits: seq<Visit>, ip: string, n: nat) returns (i: nat)
    requires n < |visits| && visits[n].ip == ip
    ensures i <= n && visits[i].ip == ip && CallsOf(visits, ip, i) == 0
    decreases n
  {
    var last := LastOf(visits, ip, n);
    if last >= 0 {
      i := FirstCallOf(visits, ip, last);
    } else {
      i := n;
      NoCallsYet(visits, ip, n);
    }
  }

  lemma {:induction false} NoCallsYet(visits: seq<Visit>, ip: string, n: nat)
    requires n <= |visits| && LastOf(visits, ip, n) < 0
    ensures CallsOf(visits, ip, n) == 0
  {
    if n > 0 {
      NoCallsYet(visits, ip, n - 1);
    }
  }

  lemma {:induction false} AllowedAtMostCalls(visits: seq<Visit>, oks: seq<bool>, ip: string, n: nat)
    requires n <= |visits| <= |oks|
    ensures Allowed(visits, oks, ip, 0, n) <= CallsOf(visits, ip, n)
  {
    if n > 0 {
      AllowedAtMostCalls(visits, oks, ip, n - 1);
    }
  }

  /** With nothing gained, a call is let through while fewer than 100 have been. */
  lemma DenseVerdict(visits: seq<Visit>, oks: seq<bool>, tables: seq<Visitors>, ip: string, j: nat)
    requires Trace(visits, oks, tables) && Dense(visits, ip) && j < |visits| && visits[j].ip == ip
    ensures oks[j] <==> Allowed(visits, oks, ip, 0, j) < CAPACITY
  {
    VerdictInTrace(visits, oks, tables, ip, j);
    forall i | 0 <= i <= j
      ensures WithinGain(visits, oks, ip, i, j) <==> Allowed(visits, oks, ip, i, j) < CAPACITY
      ensures Allowed(visits, oks, ip, i, j) <= Allowed(visits, oks, ip, 0, j)
    {
      DenseGainsNothing(visits, ip, i, j + 1);
      AllowedFrom(visits, oks, ip, i, j);
    }
    var i := FirstCallOf(visits, ip, j);
    AllowedFrom(visits, oks, ip, i, j);
    AllowedAtMostCalls(visits, oks, ip, i);
  }

  lemma {:induction false} DenseAllowed(visits: seq<Visit>, oks: seq<bool>, tables: seq<Visitors>, ip: string, n: nat)
    requires Trace(visits, oks, tables) && Dense(visits, ip) && n <= |visits|
    ensures Allowed(visits, oks, ip, 0, n) == Min(CAPACITY, CallsOf(visits, ip, n))
  {
    if n > 0 {
      DenseAllowed(visits, oks, tables, ip, n - 1);
      if visits[n - 1].ip == ip {
        DenseVerdict(visits, oks, tables, ip, n - 1);
      }
    }
  }

  /** Under dense traffic exactly the first 100 calls of a new address are let
      through and every later one is refused, however long the traffic lasts. */
  lemma DenseTraffic(visits: seq<Visit>, ip: string, j: nat)
    requires InOrder(visits) && Dense(visits, ip) && j < |visits| && visits[j].ip == ip
    ensures Run(visits).1[j] <==> CallsOf(visits, ip, j) < 100
  {
    var (tables, oks) := Run(visits);
    DenseVerdict(visits, oks, tables, ip, j);
    DenseAllowed(visits, oks, tables, ip, j);
  }

  /** An address that waits 300 and 900 ms in turn: 100 calls in every minute. */
  function Alternating(ip: string, n: nat): seq<Visit> {
    seq(n, k => Visit(ip, 600_000_000 * k - if k % 2 == 0 then 0 else 300_000_000))
  }

  lemma {:induction false} AlternatingTokens(visits: seq<Visit>, oks: seq<bool>, tables: seq<Visitors>, ip: string, n: nat)
    requires visits == Alternating(ip, 200) && Trace(visits, oks, tables) && 0 < n < 200
    ensures ip in tables[n] && tables[n][ip] == Bucket(99 - n / 2, visits[n - 1].at)
  {
    assert Stepped(visits, oks, tables, n - 1);
    if n > 1 {
      AlternatingTokens(visits, oks, tables, ip, n - 1);
      AlternatingGap(visits[n - 1].at - visits[n - 2].at, n - 1);
    }
  }

  lemma AlternatingGap(gap: int, k: nat)
    requires gap == if k % 2 == 0 then 900_000_000 else 300_000_000
    ensures Refill(gap) == if k % 2 == 0 then 1 else 0
  {
  }

  /** "100 per minute" is refused: no half-open minute holds more than 100 of these
      calls, and the 200th does not get through, because the half token earned in each
      gap of 900 ms and in each of 300 ms is forgotten. */
  lemma SteadyHundredIsRefused(ip: string)
    ensures var visits := Alternating(ip, 200);
      && InOrder(visits)
      && (forall i, j :: 0 <= i < j < 200 && visits[j].at - visits[i].at < 60_000_000_000 ==> j - i < 100)
      && !Run(visits).1[199]
  {
    var visits := Alternating(ip, 200);
    var (tables, oks) := Run(visits);
    AlternatingTokens(visits, oks, tables, ip, 199);
    assert Stepped(visits, oks, tables, 199);
    AlternatingGap(visits[199].at - visits[198].at, 199);
  }
}
