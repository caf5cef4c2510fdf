/** Vocabulary of the dashboard: sessions and failed logins. Times are integer
    nanoseconds. */
module DashTypes {
  const SESSION_DURATION := 28_800_000_000_000
  const WINDOW := 60_000_000_000
  const MAX_LOGINS := 5

  datatype Session = Session(token: string, createdAt: int, expiresAt: int, remoteIP: string)

  predicate Expired(s: Session, now: int) {
    now > s.expiresAt
  }

  /** The token would be accepted at time `now`. */
  predicate Accepts(table: map<string, Session>, token: string, now: int) {
    token in table && !Expired(table[token], now)
  }

  /** The attempts after the cutoff, in order. */
  function Prune(attempts: seq<int>, cutoff: int): (r: seq<int>)
    ensures forall a :: a in r ==> a > cutoff
  {
    if attempts == [] then []
    else
      var last := attempts[|attempts| - 1];
      Prune(attempts[..|attempts| - 1], cutoff) + if last > cutoff then [last] else []
  }

  /** How many attempts came after the cutoff. */
  function CountAfter(attempts: seq<int>, cutoff: int): nat {
    if attempts == [] then 0
    else
      var n := |attempts| - 1;
      CountAfter(attempts[..n], cutoff) + if attempts[n] > cutoff then 1 else 0
  }

  lemma {:induction false} PruneCounts(attempts: seq<int>, cutoff: int)
    ensures |Prune(attempts, cutoff)| == CountAfter(attempts, cutoff)
  {
    if attempts != [] {
      PruneCounts(attempts[..|attempts| - 1], cutoff);
    }
  }

  function AttemptsOf(m: map<string, seq<int>>, ip: string): seq<int> {
    if ip in m then m[ip] else []
  }

  /** Every list pruned but those of the addresses in `rest`, and the empty ones dropped. */
  function PartlyCleaned(m: map<string, seq<int>>, cutoff: int, rest: set<string>): map<string, seq<int>> {
    map ip | ip in m && (ip in rest || Prune(m[ip], cutoff) != []) :: if ip in rest then m[ip] else Prune(m[ip], cutoff)
  }

  lemma CleanedByOne(m: map<string, seq<int>>, cutoff: int, rest: set<string>, ip: string)
    requires ip in m && ip in rest
    ensures PartlyCleaned(m, cutoff, rest)[ip] == m[ip]
    ensures var part := PartlyCleaned(m, cutoff, rest);
      PartlyCleaned(m, cutoff, rest - {ip}) == if Prune(m[ip], cutoff) == [] then part - {ip} else part[ip := Prune(m[ip], cutoff)]
  {
  }

  lemma CleaningEnds(m: map<string, seq<int>>, cutoff: int)
    ensures PartlyCleaned(m, cutoff, m.Keys) == m && PartlyCleaned(m, cutoff, {}) == Cleaned(m, cutoff)
  {
  }

  function Cleaned(m: map<string, seq<int>>, cutoff: int): map<string, seq<int>> {
    map ip | ip in m && Prune(m[ip], cutoff) != [] :: Prune(m[ip], cutoff)
  }
}

/** The login limiter with logins running at the same time. */
module LoginLimiter {
  import opened DashTypes

  /** The limiter, the logins past the check that have not yet recorded or left, and
      the full list of failures per address, which the code does not keep. */
  datatype State = State(attempts: map<string, seq<int>>, flying: map<nat, string>, failures: map<string, seq<int>>)

  /** A login checks, then fails or leaves; a cleanup round uses a clock reading taken earlier. */
  datatype Event =
    | Check(at: int, id: nat, ip: string)
    | Fail(at: int, id: nat)
    | Leave(at: int, id: nat)
    | Clean(at: int, read: int)

  predicate Enabled(s: State, e: Event) {
    match e
    case Check(_, id, _) => id !in s.flying
    case Fail(_, id) => id in s.flying
    case Leave(_, id) => id in s.flying
    case Clean(at, read) => read <= at
  }

  function Next(s: State, e: Event): State
    requires Enabled(s, e)
  {
    match e
    case Check(at, id, ip) =>
      var recent := Prune(AttemptsOf(s.attempts, ip), at - WINDOW);
      s.(attempts := s.attempts[ip := recent], flying := if |recent| < MAX_LOGINS then s.flying[id := ip] else s.flying)
    case Fail(at, id) =>
      var ip := s.flying[id];
      State(s.attempts[ip := AttemptsOf(s.attempts, ip) + [at]], s.flying - {id}, s.failures[ip := AttemptsOf(s.failures, ip) + [at]])
    case Leave(_, id) => s.(flying := s.flying - {id})
    case Clean(_, read) => s.(attempts := Cleaned(s.attempts, read - WINDOW))
  }

  /** `attempts` is what the limiter stores after the event, if the event can happen. */
  predicate Refines(s: State, e: Event, attempts: map<string, seq<int>>) {
    Enabled(s, e) ==> Next(s, e).attempts == attempts
  }

  ghost predicate Stepped(evs: seq<Event>, states: seq<State>, i: nat)
    requires i < |evs| && |states| == |evs| + 1
  {
    Enabled(states[i], evs[i]) && states[i + 1] == Next(states[i], evs[i]) && (i > 0 ==> evs[i - 1].at <= evs[i].at)
  }

  /** A run from an empty limiter, in time order. */
  ghost predicate Trace(evs: seq<Event>, states: seq<State>) {
    && |states| == |evs| + 1 && states[0] == State(map[], map[], map[])
    && (forall i :: 0 <= i < |evs| ==> Stepped(evs, states, i))
  }

  function Max(a: int, b: int): int { if a > b then a else b }

  lemma {:induction false} PruneTwice(s: seq<int>, c: int, d: int)
    ensures Prune(Prune(s, c), d) == Prune(s, Max(c, d))
  {
    if s != [] {
      var front, last := s[..|s| - 1], s[|s| - 1];
      PruneTwice(front, c, d);
      if last > c {
        PruneAppend(Prune(front, c), last, d);
      } else {
        assert Prune(s, c) == Prune(front, c);
      }
    }
  }

  lemma PruneAppend(s: seq<int>, x: int, c: int)
    ensures Prune(s + [x], c) == Prune(s, c) + if x > c then [x] else []
  {
    assert (s + [x])[..|s|] == s;
  }

  /** The stored attempts are the full history after a cutoff at least a window old. */
  ghost predicate Complete(s: State, ip: string, cutoff: int) {
    AttemptsOf(s.attempts, ip) == Prune(AttemptsOf(s.failures, ip), cutoff)
  }

  lemma CheckHistory(s: State, e: Event, ip: string, c: int)
    requires e.Check? && Enabled(s, e) && Complete(s, ip, c) && c <= e.at - WINDOW
    ensures Complete(Next(s, e), ip, if e.ip == ip then e.at - WINDOW else c)
  {
    PruneTwice(AttemptsOf(s.failures, ip), c, e.at - WINDOW);
  }

  lemma FailHistory(s: State, e: Event, ip: string, c: int)
    requires e.Fail? && Enabled(s, e) && Complete(s, ip, c) && c <= e.at - WINDOW
    ensures Complete(Next(s, e), ip, c)
  {
    PruneAppend(AttemptsOf(s.failures, ip), e.at, c);
  }

  lemma CleanHistory(s: State, e: Event, ip: string, c: int)
    requires e.Clean? && Enabled(s, e) && Complete(s, ip, c)
    ensures Complete(Next(s, e), ip, Max(c, e.read - WINDOW))
  {
    PruneTwice(AttemptsOf(s.failures, ip), c, e.read - WINDOW);
  }

  lemma HistoryStep(s: State, e: Event, ip: string, c: int) returns (cutoff: int)
    requires Enabled(s, e) && Complete(s, ip, c) && c <= e.at - WINDOW
    ensures Complete(Next(s, e), ip, cutoff) && cutoff <= e.at - WINDOW
  {
    match e
    case Check(at, _, p) =>
      cutoff := if p == ip then at - WINDOW else c;
      CheckHistory(s, e, ip, c);
    case Fail(_, _) =>
      cutoff := c;
      FailHistory(s, e, ip, c);
    case Leave(_, _) =>
      cutoff := c;
    case Clean(_, read) =>
      cutoff := Max(c, read - WINDOW);
      CleanHistory(s, e, ip, c);
  }

  lemma {:induction false} StoredIsHistory(evs: seq<Event>, states: seq<State>, ip: string, n: nat) returns (cutoff: int)
    requires Trace(evs, states) && n <= |evs|
    ensures Complete(states[n], ip, cutoff)
    ensures n > 0 ==> cutoff <= evs[n - 1].at - WINDOW
    ensures n == 0 ==> AttemptsOf(states[n].failures, ip) == []
  {
    if n == 0 {
      return 0;
    }
    var c := StoredIsHistory(evs, states, ip, n - 1);
    assert Stepped(evs, states, n - 1);
    if n == 1 {
      c := evs[0].at - WINDOW;
    }
    cutoff := HistoryStep(states[n - 1], evs[n - 1], ip, c);
  }

  /** Failures in the half-open window of 60 seconds from `from`. */
  function InWindow(failures: seq<int>, from: int): nat {
    if failures == [] then 0
    else
      var last := failures[|failures| - 1];
      InWindow(failures[..|failures| - 1], from) + if from <= last < from + 60_000_000_000 then 1 else 0
  }

  lemma {:induction false} WindowSeen(failures: seq<int>, from: int, cutoff: int)
    requires cutoff < from
    ensures InWindow(failures, from) <= |Prune(failures, cutoff)|
  {
    if failures != [] {
      WindowSeen(failures[..|failures| - 1], from, cutoff);
    }
  }

  lemma InWindowAppend(s: seq<int>, x: int, from: int)
    ensures InWindow(s + [x], from) == InWindow(s, from) + if from <= x < from + WINDOW then 1 else 0
  {
    assert (s + [x])[..|s|] == s;
  }

  /** One more failure, in exactly the windows that hold `now`. */
  ghost predicate OneMore(before: seq<int>, after: seq<int>, now: int) {
    forall from :: InWindow(after, from) == InWindow(before, from) + (if from <= now < from + WINDOW then 1 else 0)
  }

  lemma OneMoreRecorded(before: seq<int>, now: int)
    ensures OneMore(before, before + [now], now)
  {
    forall from
      ensures InWindow(before + [now], from) == InWindow(before, from) + (if from <= now < from + WINDOW then 1 else 0)
    {
      InWindowAppend(before, now, from);
    }
  }

  /** The logins of an address between check and record. */
  function FlyingOf(s: State, ip: string): set<nat> {
    set id | id in s.flying && s.flying[id] == ip
  }

  /** A check lets a login through exactly when the full history of its address shows
      fewer than five failures in the past 60 seconds. */
  lemma CheckSeesHistory(evs: seq<Event>, states: seq<State>, n: nat)
    requires Trace(evs, states) && n < |evs| && evs[n].Check?
    ensures evs[n].id in states[n + 1].flying <==> CountAfter(AttemptsOf(states[n].failures, evs[n].ip), evs[n].at - 60_000_000_000) < 5
  {
    PruneCounts(AttemptsOf(states[n].failures, evs[n].ip), evs[n].at - 60_000_000_000);
    assert Stepped(evs, states, n);
    var c := StoredIsHistory(evs, states, evs[n].ip, n);
    if n > 0 {
      PruneTwice(AttemptsOf(states[n].failures, evs[n].ip), c, evs[n].at - WINDOW);
    }
  }

  /** Failures so far in the window plus logins still in flight. */
  function Load(s: State, ip: string, from: int): nat {
    InWindow(AttemptsOf(s.failures, ip), from) + |FlyingOf(s, ip)|
  }

  /** Failing or leaving moves a login out of flight; nothing but a passed check adds to the load. */
  lemma LoadStep(s: State, e: Event, ip: string, from: int)
    requires Enabled(s, e)
    requires e.Check? && e.ip == ip ==> Next(s, e).flying == s.flying
    ensures Load(Next(s, e), ip, from) <= Load(s, ip, from)
    ensures e.at >= from + WINDOW ==> InWindow(AttemptsOf(Next(s, e).failures, ip), from) == InWindow(AttemptsOf(s.failures, ip), from)
  {
    match e
    case Check(_, _, _) => assert FlyingOf(Next(s, e), ip) == FlyingOf(s, ip);
    case Fail(_, _) => FailLoad(s, e, ip, from);
    case Leave(_, id) => assert FlyingOf(Next(s, e), ip) == FlyingOf(s, ip) - {id};
    case Clean(_, _) => assert FlyingOf(Next(s, e), ip) == FlyingOf(s, ip);
  }

  lemma FailLoad(s: State, e: Event, ip: string, from: int)
    requires e.Fail? && Enabled(s, e)
    ensures Load(Next(s, e), ip, from) <= Load(s, ip, from)
    ensures e.at >= from + WINDOW ==> InWindow(AttemptsOf(Next(s, e).failures, ip), from) == InWindow(AttemptsOf(s.failures, ip), from)
  {
    if s.flying[e.id] == ip {
      assert FlyingOf(Next(s, e), ip) == FlyingOf(s, ip) - {e.id};
      InWindowAppend(AttemptsOf(s.failures, ip), e.at, from);
    } else {
      assert FlyingOf(Next(s, e), ip) == FlyingOf(s, ip);
    }
  }

  /** The load stays within 4 + k until the window has passed. */
  lemma {:induction false} WindowBudget(evs: seq<Event>, states: seq<State>, ip: string, k: nat, from: int, n: nat)
    requires Trace(evs, states) && n <= |evs|
    requires forall i :: 0 <= i <= |evs| ==> |FlyingOf(states[i], ip)| <= k
    ensures InWindow(AttemptsOf(states[n].failures, ip), from) <= 4 + k
    ensures n == 0 || evs[n - 1].at < from + WINDOW ==> Load(states[n], ip, from) <= 4 + k
  {
    if n == 0 {
      assert FlyingOf(states[0], ip) == {};
    } else {
      WindowBudget(evs, states, ip, k, from, n - 1);
      assert Stepped(evs, states, n - 1);
      var s, e := states[n - 1], evs[n - 1];
      if e.Check? && e.ip == ip && states[n].flying != s.flying {
        CheckSeesHistory(evs, states, n - 1);
        PruneCounts(AttemptsOf(s.failures, ip), e.at - WINDOW);
        if e.at < from + WINDOW {
          WindowSeen(AttemptsOf(s.failures, ip), from, e.at - WINDOW);
        }
      } else {
        LoadStep(s, e, ip, from);
      }
    }
  }

  /** If at most k logins of an address are ever between check and record, no window
      of 60 seconds holds more than 4 + k of its recorded failures, whatever pruning
      and cleanup ran. One at a time that is five. */
  lemma LoginBound(evs: seq<Event>, states: seq<State>, ip: string, k: nat, from: int)
    requires Trace(evs, states)
    requires forall i :: 0 <= i <= |evs| ==> |FlyingOf(states[i], ip)| <= k
    ensures InWindow(AttemptsOf(states[|evs|].failures, ip), from) <= 4 + k
  {
    WindowBudget(evs, states, ip, k, from, |evs|);
  }

  /** A run whose events all happen at time `t`, never with more than `k` logins of
      the address in flight. */
  ghost predicate Burst(evs: seq<Event>, states: seq<State>, ip: string, k: nat, t: int) {
    && Trace(evs, states)
    && (forall i :: 0 <= i < |evs| ==> evs[i].at == t)
    && (forall i :: 0 <= i <= |evs| ==> |FlyingOf(states[i], ip)| <= k)
  }

  function Repeat(t: int, n: nat): seq<int> {
    if n == 0 then [] else Repeat(t, n - 1) + [t]
  }

  lemma {:induction false} RepeatIsRecent(t: int, n: nat)
    ensures Prune(Repeat(t, n), t - WINDOW) == Repeat(t, n) && |Repeat(t, n)| == n && InWindow(Repeat(t, n), t) == n
  {
    if n > 0 {
      RepeatIsRecent(t, n - 1);
      PruneAppend(Repeat(t, n - 1), t, t - WINDOW);
      InWindowAppend(Repeat(t, n - 1), t, t);
    }
  }

  /** `f` failures recorded at `t`, and logins `lo` to `hi` in flight. */
  ghost predicate Holding(s: State, ip: string, t: int, f: nat, lo: nat, hi: nat) {
    && AttemptsOf(s.attempts, ip) == AttemptsOf(s.failures, ip) == Repeat(t, f)
    && (forall id :: id in s.flying <==> lo <= id < hi)
    && (forall id :: id in s.flying ==> s.flying[id] == ip)
  }

  lemma {:induction false} FlyingRange(s: State, ip: string, t: int, f: nat, lo: nat, hi: nat)
    requires lo <= hi && Holding(s, ip, t, f, lo, hi)
    ensures |FlyingOf(s, ip)| == hi - lo
    decreases hi - lo
  {
    if lo == hi {
      assert FlyingOf(s, ip) == {};
    } else {
      var s' := s.(flying := s.flying - {lo});
      FlyingRange(s', ip, t, f, lo + 1, hi);
      assert FlyingOf(s, ip) == FlyingOf(s', ip) + {lo};
    }
  }

  lemma Extend(evs: seq<Event>, states: seq<State>, e: Event, ip: string, k: nat, t: int)
    requires Burst(evs, states, ip, k, t) && e.at == t && Enabled(states[|evs|], e)
    requires |FlyingOf(Next(states[|evs|], e), ip)| <= k
    ensures Burst(evs + [e], states + [Next(states[|evs|], e)], ip, k, t)
  {
    var evs', states' := evs + [e], states + [Next(states[|evs|], e)];
    forall i | 0 <= i < |evs'|
      ensures Stepped(evs', states', i)
    {
      if i < |evs| {
        assert Stepped(evs, states, i);
      }
    }
  }

  /** One more login gets past the check. */
  lemma Enter(evs: seq<Event>, states: seq<State>, ip: string, k: nat, t: int, f: nat, hi: nat) returns (evs': seq<Event>, states': seq<State>)
    requires Burst(evs, states, ip, k, t) && Holding(states[|evs|], ip, t, f, 0, hi) && f <= 4 && hi < k
    ensures Burst(evs', states', ip, k, t) && Holding(states'[|evs'|], ip, t, f, 0, hi + 1)
  {
    var e := Check(t, hi, ip);
    RepeatIsRecent(t, f);
    FlyingRange(Next(states[|evs|], e), ip, t, f, 0, hi + 1);
    Extend(evs, states, e, ip, k, t);
    evs', states' := evs + [e], states + [Next(states[|evs|], e)];
  }

  /** The earliest login in flight fails. */
  lemma Miss(evs: seq<Event>, states: seq<State>, ip: string, k: nat, t: int, f: nat, lo: nat, hi: nat) returns (evs': seq<Event>, states': seq<State>)
    requires Burst(evs, states, ip, k, t) && Holding(states[|evs|], ip, t, f, lo, hi) && lo < hi && hi - lo <= k
    ensures Burst(evs', states', ip, k, t) && Holding(states'[|evs'|], ip, t, f + 1, lo + 1, hi)
  {
    var e := Fail(t, lo);
    FlyingRange(Next(states[|evs|], e), ip, t, f + 1, lo + 1, hi);
    Extend(evs, states, e, ip, k, t);
    evs', states' := evs + [e], states + [Next(states[|evs|], e)];
  }

  /** Four failures one at a time. */
  lemma {:induction false} FailInTurn(ip: string, k: nat, t: int, f: nat) returns (evs: seq<Event>, states: seq<State>)
    requires k >= 1 && f <= 4
    ensures Burst(evs, states, ip, k, t) && Holding(states[|evs|], ip, t, f, 0, 0)
  {
    if f == 0 {
      evs, states := [], [State(map[], map[], map[])];
      FlyingRange(states[0], ip, t, 0, 0, 0);
    } else {
      evs, states := FailInTurn(ip, k, t, f - 1);
      evs, states := Enter(evs, states, ip, k, t, f - 1, 0);
      evs, states := Miss(evs, states, ip, k, t, f - 1, 0, 1);
    }
  }

  lemma {:induction false} EnterTogether(ip: string, k: nat, t: int, n: nat) returns (evs: seq<Event>, states: seq<State>)
    requires 1 <= k && n <= k
    ensures Burst(evs, states, ip, k, t) && Holding(states[|evs|], ip, t, 4, 0, n)
  {
    if n == 0 {
      evs, states := FailInTurn(ip, k, t, 4);
    } else {
      evs, states := EnterTogether(ip, k, t, n - 1);
      evs, states := Enter(evs, states, ip, k, t, 4, n - 1);
    }
  }

  lemma {:induction false} FailTogether(ip: string, k: nat, t: int, n: nat) returns (evs: seq<Event>, states: seq<State>)
    requires 1 <= k && n <= k
    ensures Burst(evs, states, ip, k, t) && Holding(states[|evs|], ip, t, 4 + n, n, k)
  {
    if n == 0 {
      evs, states := EnterTogether(ip, k, t, k);
    } else {
      evs, states := FailTogether(ip, k, t, n - 1);
      evs, states := Miss(evs, states, ip, k, t, 4 + n - 1, n - 1, k);
    }
  }

  /** The bound is reached for every k: four failures in turn, then k logins that all
      pass the check before any of them records its failure. */
  lemma LoginBoundIsTight(ip: string, k: nat, t: int) returns (evs: seq<Event>, states: seq<State>)
    requires k >= 1
    ensures Trace(evs, states) && forall i :: 0 <= i <= |evs| ==> |FlyingOf(states[i], ip)| <= k
    ensures InWindow(AttemptsOf(states[|evs|].failures, ip), t) == 4 + k
  {
    evs, states := FailTogether(ip, k, t, k);
    RepeatIsRecent(t, 4 + k);
  }
}

/** Sessions with validation, logout and cleanup running at the same time. */
module SessionHistory {
  import opened KeyTypes
  import opened DashTypes

  /** The session table, and the tokens whose expiry a validation or a cleanup round
      has seen and which it may delete at any later time. */
  datatype State = State(table: map<string, Session>, doomed: set<string>)

  datatype Event =
    | Create(at: int, token: string, ip: string)
    | Logout(at: int, token: string)
    | Validate(at: int, token: string)
    | Visit(at: int, token: string, read: int)
    | Delete(at: int, token: string)

  predicate Enabled(s: State, e: Event) {
    match e
    case Visit(at, token, read) => read <= at
    case Delete(_, token) => token in s.doomed
    case _ => true
  }

  function Answer(s: State, token: string, now: int): bool {
    Accepts(s.table, token, now)
  }

  function Doom(s: State, token: string, now: int): State {
    if token in s.table && Expired(s.table[token], now) then s.(doomed := s.doomed + {token}) else s
  }

  function Next(s: State, e: Event): State {
    match e
    case Create(at, token, ip) => s.(table := s.table[token := Session(token, at, at + SESSION_DURATION, ip)])
    case Logout(_, token) => s.(table := s.table - {token})
    case Validate(at, token) => Doom(s, token, at)
    case Visit(_, token, read) => Doom(s, token, read)
    case Delete(_, token) => s.(table := s.table - {token})
  }

  /** The state after a sequence of events, if each of them can happen in turn. */
  function After(s: State, evs: seq<Event>): (r: Option<State>) {
    if evs == [] then Some(s)
    else
      var n := |evs| - 1;
      match After(s, evs[..n])
      case None => None
      case Some(mid) => if Enabled(mid, evs[n]) then Some(Next(mid, evs[n])) else None
  }

  /** The events can happen in turn, and leave `table`. */
  predicate Leads(s: State, evs: seq<Event>, table: map<string, Session>) {
    After(s, evs).Some? && After(s, evs).value.table == table
  }

  lemma LeadsOn(s: State, evs: seq<Event>, table: map<string, Session>, e: Event)
    requires Leads(s, evs, table) && Enabled(After(s, evs).value, e)
    ensures Leads(s, evs + [e], Next(After(s, evs).value, e).table)
  {
    assert (evs + [e])[..|evs|] == evs;
  }

  /** Looking at an expired token and then deleting it is two events. */
  lemma LeadsToDelete(s: State, evs: seq<Event>, table: map<string, Session>, look: Event)
    requires Leads(s, evs, table) && (look.Validate? || (look.Visit? && look.read <= look.at))
    requires var now := if look.Validate? then look.at else look.read; look.token in table && Expired(table[look.token], now)
    ensures Leads(s, evs + [look, Delete(look.at, look.token)], table - {look.token})
  {
    LeadsOn(s, evs, table, look);
    LeadsOn(s, evs + [look], table, Delete(look.at, look.token));
    assert evs + [look] + [Delete(look.at, look.token)] == evs + [look, Delete(look.at, look.token)];
  }

  ghost predicate Stepped(evs: seq<Event>, states: seq<State>, i: nat)
    requires i < |evs| && |states| == |evs| + 1
  {
    Enabled(states[i], evs[i]) && states[i + 1] == Next(states[i], evs[i]) && (i > 0 ==> evs[i - 1].at <= evs[i].at)
  }

  /** A run from an empty table, in time order, with tokens that are never reused. */
  ghost predicate Trace(evs: seq<Event>, states: seq<State>) {
    && |states| == |evs| + 1 && states[0] == State(map[], {})
    && (forall i :: 0 <= i < |evs| ==> Stepped(evs, states, i))
    && (forall i, j :: 0 <= i < j < |evs| && evs[i].Create? && evs[j].Create? ==> evs[i].token != evs[j].token)
  }

  /** Event `j` created the token and nothing before `n` logged it out again. */
  ghost predicate Open(evs: seq<Event>, token: string, j: int, n: nat)
    requires n <= |evs|
  {
    && 0 <= j < n && evs[j].Create? && evs[j].token == token
    && (forall k :: j < k < n ==> !(evs[k].Logout? && evs[k].token == token))
  }

  /** By the events alone: created, within its eight hours, and not logged out since. */
  ghost predicate ValidByHistory(evs: seq<Event>, token: string, n: nat, now: int)
    requires n <= |evs|
  {
    exists j :: Open(evs, token, j, n) && now <= evs[j].at + 28_800_000_000_000
  }

  /** What the table says about a token: present only while open, absent only when
      logged out or expired, doomed only when expired. */
  ghost predicate Agrees(evs: seq<Event>, s: State, token: string, n: nat)
    requires n <= |evs|
  {
    && (token in s.table ==> exists j :: Open(evs, token, j, n) && s.table[token].expiresAt == evs[j].at + SESSION_DURATION)
    && (forall j :: Open(evs, token, j, n) && token !in s.table ==> evs[n - 1].at > evs[j].at + SESSION_DURATION)
    && (token in s.doomed ==> exists j :: 0 <= j < n && Creates(evs, token, j) && evs[n - 1].at > evs[j].at + SESSION_DURATION)
  }

  predicate Creates(evs: seq<Event>, token: string, j: int) {
    0 <= j < |evs| && evs[j].Create? && evs[j].token == token
  }

  lemma {:induction false} TableAgrees(evs: seq<Event>, states: seq<State>, token: string, n: nat)
    requires Trace(evs, states) && n <= |evs|
    ensures Agrees(evs, states[n], token, n)
  {
    if n > 0 {
      TableAgrees(evs, states, token, n - 1);
      assert Stepped(evs, states, n - 1);
      if evs[n - 1].token == token {
        TokenStep(evs, states[n - 1], token, n - 1);
      } else {
        OtherStep(evs, states[n - 1], token, n - 1);
      }
    }
  }

  lemma OpenGrows(evs: seq<Event>, token: string, n: nat)
    requires n < |evs|
    ensures forall j :: Open(evs, token, j, n + 1) && j < n ==> Open(evs, token, j, n)
    ensures !(evs[n].Logout? && evs[n].token == token) ==> forall j :: Open(evs, token, j, n) ==> Open(evs, token, j, n + 1)
    ensures Open(evs, token, n, n + 1) <==> Creates(evs, token, n)
  {
  }

  lemma OtherStep(evs: seq<Event>, s: State, token: string, n: nat)
    requires n < |evs| && evs[n].token != token && Agrees(evs, s, token, n)
    requires n > 0 ==> evs[n - 1].at <= evs[n].at
    ensures Agrees(evs, Next(s, evs[n]), token, n + 1)
  {
    OpenGrows(evs, token, n);
  }

  lemma TokenStep(evs: seq<Event>, s: State, token: string, n: nat)
    requires n < |evs| && evs[n].token == token && Agrees(evs, s, token, n) && Enabled(s, evs[n])
    requires n > 0 ==> evs[n - 1].at <= evs[n].at
    requires forall i, j :: 0 <= i < j < |evs| && evs[i].Create? && evs[j].Create? ==> evs[i].token != evs[j].token
    ensures Agrees(evs, Next(s, evs[n]), token, n + 1)
  {
    OpenGrows(evs, token, n);
    var e, s' := evs[n], Next(s, evs[n]);
    if e.Create? {
      assert Open(evs, token, n, n + 1) && s'.table[token].expiresAt == e.at + SESSION_DURATION;
      assert token !in s.doomed;
    } else if e.Validate? || e.Visit? {
      if token in s'.doomed && token !in s.doomed {
        var j :| Open(evs, token, j, n) && s.table[token].expiresAt == evs[j].at + SESSION_DURATION;
        assert Creates(evs, token, j);
      }
    } else if e.Delete? {
      var j :| 0 <= j < n && Creates(evs, token, j) && evs[n - 1].at > evs[j].at + SESSION_DURATION;
      var m := n + 1;
      assert forall k :: Open(evs, token, k, m) ==> k == j;
    }
  }

  /** Lazy deletion and cleanup never change an answer: a token is accepted exactly
      when its history says so. */
  lemma SessionsRefineHistory(evs: seq<Event>, states: seq<State>, n: nat)
    requires Trace(evs, states) && n < |evs| && evs[n].Validate?
    ensures Answer(states[n], evs[n].token, evs[n].at) <==> ValidByHistory(evs, evs[n].token, n, evs[n].at)
  {
    var token, s := evs[n].token, states[n];
    TableAgrees(evs, states, token, n);
    assert Stepped(evs, states, n);
    if token in s.table {
      var j :| Open(evs, token, j, n) && s.table[token].expiresAt == evs[j].at + SESSION_DURATION;
      assert forall k :: Open(evs, token, k, n) ==> k == j;
    }
  }
}

/** Dashboard sessions and the login rate limiter as one mutable object, each method
    tied to the events of the two histories above. */
module DashboardAuth {
  import opened DashTypes
  import L = LoginLimiter
  import S = SessionHistory

  method Recent(attempts: seq<int>, cutoff: int) returns (recent: seq<int>)
    ensures recent == Prune(attempts, cutoff)
  {
    recent := [];
    for i := 0 to |attempts|
      invariant recent == Prune(attempts[..i], cutoff)
    {
      assert attempts[..i + 1][..i] == attempts[..i];
      if attempts[i] > cutoff {
        recent := recent + [attempts[i]];
      }
    }
    assert attempts[..|attempts|] == attempts;
  }

  /** The two tables give the same answers about every token but one. */
  ghost predicate SameOtherwise(before: map<string, Session>, after: map<string, Session>, token: string) {
    forall t, now :: t != token ==> (Accepts(after, t, now) <==> Accepts(before, t, now))
  }

  class DashAuth {
    var sessions: map<string, Session>
    var loginAttempts: map<string, seq<int>>

    constructor ()
      ensures sessions == map[] && loginAttempts == map[]
    {
      sessions, loginAttempts := map[], map[];
    }

    /** From now on the token is accepted for eight hours, and other tokens as before. */
    method CreateSession(ip: string, token: string, now: int)
      modifies this`sessions
      ensures forall t :: Accepts(sessions, token, t) <==> t <= now + 28_800_000_000_000
      ensures SameOtherwise(old(sessions), sessions, token)
      ensures forall s: S.State :: s.table == old(sessions) ==> S.Next(s, S.Create(now, token, ip)).table == sessions
    {
      sessions := sessions[token := Session(token, now, now + SESSION_DURATION, ip)];
    }

    /** What a validation is in terms of events: a look, and a deletion if it is too late. */
    function ValidationEvents(token: string, now: int): seq<S.Event>
      reads this`sessions
    {
      if token in sessions && Expired(sessions[token], now) then [S.Validate(now, token), S.Delete(now, token)] else [S.Validate(now, token)]
    }

    /** Answers, and drops the session if it has expired. */
    method ValidSession(token: string, now: int) returns (ok: bool)
      modifies this`sessions
      ensures ok <==> Accepts(old(sessions), token, now)
      ensures sessions == if token in old(sessions) && Expired(old(sessions)[token], now) then old(sessions) - {token} else old(sessions)
      ensures forall s: S.State :: s.table == old(sessions) ==>
        ok == S.Answer(s, token, now) && S.Leads(s, old(ValidationEvents(token, now)), sessions)
    {
      ghost var events := ValidationEvents(token, now);
      ghost var table := sessions;
      ghost var after := if token in sessions && Expired(sessions[token], now) then sessions - {token} else sessions;
      forall s: S.State | s.table == table
        ensures S.Leads(s, events, after)
      {
        assert S.Leads(s, [], table);
        S.LeadsOn(s, [], table, S.Validate(now, token));
        assert [] + [S.Validate(now, token)] == [S.Validate(now, token)];
        if token in table && Expired(table[token], now) {
          S.LeadsToDelete(s, [], table, S.Validate(now, token));
          assert [] + events == events;
        }
      }
      if token !in sessions {
        return false;
      }
      if Expired(sessions[token], now) {
        sessions := sessions - {token};
        return false;
      }
      return true;
    }

    /** The token is never accepted again, and other tokens as before. */
    method Logout(token: string)
      modifies this`sessions
      ensures forall t :: !Accepts(sessions, token, t)
      ensures SameOtherwise(old(sessions), sessions, token)
      ensures forall s: S.State, at :: s.table == old(sessions) ==> S.Next(s, S.Logout(at, token)).table == sessions
    {
      sessions := sessions - {token};
    }

    /** A login passes exactly when fewer than five stored failures are a minute old or
        younger. */
    method AllowLogin(ip: string, now: int) returns (ok: bool)
      modifies this`loginAttempts
      ensures loginAttempts == old(loginAttempts)[ip := Prune(AttemptsOf(old(loginAttempts), ip), now - WINDOW)]
      ensures ok <==> CountAfter(AttemptsOf(old(loginAttempts), ip), now - 60_000_000_000) < 5
      ensures forall s: L.State, id :: s.attempts == old(loginAttempts) && id !in s.flying ==>
        var s' := L.Next(s, L.Check(now, id, ip)); s'.attempts == loginAttempts && (ok <==> id in s'.flying)
    {
      var recent := Recent(AttemptsOf(loginAttempts, ip), now - WINDOW);
      loginAttempts := loginAttempts[ip := recent];
      ok := |recent| < MAX_LOGINS;
      PruneCounts(old(AttemptsOf(loginAttempts, ip)), now - WINDOW);
    }

    /** One more failure of this address in every window around `now`, and no other change. */
    method RecordFailedLogin(ip: string, now: int)
      modifies this`loginAttempts
      ensures L.OneMore(old(AttemptsOf(loginAttempts, ip)), AttemptsOf(loginAttempts, ip), now)
      ensures loginAttempts == old(loginAttempts)[ip := old(AttemptsOf(loginAttempts, ip)) + [now]]
      ensures forall s: L.State, id :: s.attempts == old(loginAttempts) && id in s.flying && s.flying[id] == ip ==>
        L.Refines(s, L.Fail(now, id), loginAttempts)
    {
      L.OneMoreRecorded(AttemptsOf(loginAttempts, ip), now);
      loginAttempts := loginAttempts[ip := AttemptsOf(loginAttempts, ip) + [now]];
    }

    /** Visits every session and deletes the expired ones. */
    method CleanSessions(now: int) returns (ghost evs: seq<S.Event>)
      modifies this`sessions
      ensures sessions == map t | t in old(sessions) && !Expired(old(sessions)[t], now) :: old(sessions)[t]
      ensures forall e :: e in evs ==> e.Delete? || (e.Visit? && e.read == now)
      ensures forall s: S.State :: s.table == old(sessions) ==> S.Leads(s, evs, sessions)
    {
      evs := [];
      var rest := sessions.Keys;
      while rest != {}
        invariant rest <= old(sessions).Keys
        invariant sessions == map t | t in old(sessions) && (t in rest || !Expired(old(sessions)[t], now)) :: old(sessions)[t]
        invariant forall e :: e in evs ==> e.Delete? || (e.Visit? && e.read == now)
        invariant forall s: S.State :: s.table == old(sessions) ==> S.Leads(s, evs, sessions)
        decreases |rest|
      {
        var t :| t in rest;
        rest := rest - {t};
        if Expired(sessions[t], now) {
          forall s: S.State | s.table == old(sessions)
            ensures S.Leads(s, evs + [S.Visit(now, t, now), S.Delete(now, t)], sessions - {t})
          {
            S.LeadsToDelete(s, evs, sessions, S.Visit(now, t, now));
          }
          evs := evs + [S.Visit(now, t, now), S.Delete(now, t)];
          sessions := sessions - {t};
        }
      }
    }

    /** Prunes every address and forgets those with nothing left. */
    method CleanAttempts(now: int)
      modifies this`loginAttempts
      ensures loginAttempts == Cleaned(old(loginAttempts), now - WINDOW)
    {
      CleaningEnds(loginAttempts, now - WINDOW);
      var rest := loginAttempts.Keys;
      while rest != {}
        invariant rest <= old(loginAttempts).Keys
        invariant loginAttempts == PartlyCleaned(old(loginAttempts), now - WINDOW, rest)
        decreases |rest|
      {
        var ip :| ip in rest;
        CleanedByOne(old(loginAttempts), now - WINDOW, rest, ip);
        rest := rest - {ip};
        var recent := Recent(loginAttempts[ip], now - WINDOW);
        if |recent| == 0 {
          loginAttempts := loginAttempts - {ip};
        } else {
          loginAttempts := loginAttempts[ip := recent];
        }
      }
    }

    /** One round of the cleanup loop; both halves use the clock reading at its start. */
    method Cleanup(now: int) returns (ghost evs: seq<S.Event>)
      modifies this
      ensures sessions == map t | t in old(sessions) && !Expired(old(sessions)[t], now) :: old(sessions)[t]
      ensures loginAttempts == Cleaned(old(loginAttempts), now - WINDOW)
      ensures forall ip :: ip in loginAttempts ==> loginAttempts[ip] != [] && forall a :: a in loginAttempts[ip] ==> a > now - 60_000_000_000
      ensures forall t, at :: now <= at ==> (Accepts(sessions, t, at) <==> Accepts(old(sessions), t, at))
      ensures forall s: S.State :: s.table == old(sessions) ==> S.Leads(s, evs, sessions)
      ensures forall s: L.State, at :: s.attempts == old(loginAttempts) ==> L.Refines(s, L.Clean(at, now), loginAttempts)
    {
      evs := CleanSessions(now);
      CleanAttempts(now);
    }

    /** The checks of a login in the order the handler makes them: the limit at
        `checkedAt`, then the body, then the key; a failure is recorded or a session
        opened at `at`. */
    method HandleLogin(ip: string, keyGiven: bool, keyMatches: bool, token: string, checkedAt: int, at: int) returns (admitted: bool)
      modifies this
      ensures var recent := Prune(AttemptsOf(old(loginAttempts), ip), checkedAt - WINDOW);
        && (admitted <==> CountAfter(AttemptsOf(old(loginAttempts), ip), checkedAt - 60_000_000_000) < 5 && keyGiven && keyMatches)
        && loginAttempts == old(loginAttempts)[ip := if |recent| < MAX_LOGINS && keyGiven && !keyMatches then recent + [at] else recent]
      ensures if admitted
        then (forall t :: Accepts(sessions, token, t) <==> t <= at + 28_800_000_000_000) && SameOtherwise(old(sessions), sessions, token)
        else sessions == old(sessions)
      ensures forall s: L.State, id :: s.attempts == old(loginAttempts) && id !in s.flying ==>
        var checked := L.Next(s, L.Check(checkedAt, id, ip));
        if id !in checked.flying then !admitted && loginAttempts == checked.attempts
        else L.Refines(checked, if keyGiven && !keyMatches then L.Fail(at, id) else L.Leave(at, id), loginAttempts)
    {
      PruneCounts(AttemptsOf(loginAttempts, ip), checkedAt - WINDOW);
      var ok := AllowLogin(ip, checkedAt);
      if !ok || !keyGiven {
        return false;
      }
      if !keyMatches {
        RecordFailedLogin(ip, at);
        return false;
      }
      CreateSession(ip, token, at);
      return true;
    }
  }
}
