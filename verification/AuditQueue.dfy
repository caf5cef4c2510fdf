/** The asynchronous audit log: a bounded channel that drops when full, one writer,
    and a close that waits for the writer to drain it. */
module AuditQueue {
  import opened KeyTypes

  const CAPACITY := 256

  /** An audit record; no timestamp means the zero time. */
  datatype Entry = Entry(timestamp: Option<int>, source: string, operation: string, clientId: string,
                         objectUid: string, objectName: string, status: string, message: string, remoteAddr: string)

  /** A missing time is filled in; a given one, and everything else, is kept. */
  function Stamped(entry: Entry, now: int): (r: Entry)
    ensures r.timestamp == Some(match entry.timestamp case Some(t) => t case None => now)
    ensures forall t :: r.(timestamp := t) == entry.(timestamp := t)
  {
    if entry.timestamp.None? then entry.(timestamp := Some(now)) else entry
  }

  /** The logger at one moment. `handed` lists the inserts attempted, in order. */
  datatype State = State(ch: seq<Entry>, hand: Option<Entry>, handed: seq<Entry>, closed: bool, done: bool)

  const INITIAL := State([], None, [], false, false)

  datatype Event =
    | Log(entry: Entry, now: int)
    | Take
    | Insert
    | CloseChannel
    | Finish

  /** What the runtime lets happen next; logging to or closing a closed channel panics. */
  predicate Enabled(s: State, e: Event) {
    match e
    case Log(_, _) => !s.closed
    case Take => !s.done && s.hand.None? && s.ch != []
    case Insert => s.hand.Some?
    case CloseChannel => !s.closed
    case Finish => !s.done && s.closed && s.ch == [] && s.hand.None?
  }

  function Next(s: State, e: Event): State
    requires Enabled(s, e)
  {
    match e
    case Log(entry, now) => if |s.ch| < CAPACITY then s.(ch := s.ch + [Stamped(entry, now)]) else s
    case Take => s.(ch := s.ch[1..], hand := Some(s.ch[0]))
    case Insert => s.(hand := None, handed := s.handed + [s.hand.value])
    case CloseChannel => s.(closed := true)
    case Finish => s.(done := true)
  }

  /** The state after a sequence of events, if each of them can happen in turn. */
  function After(s: State, evs: seq<Event>): Option<State> {
    if evs == [] then Some(s)
    else
      var n := |evs| - 1;
      match After(s, evs[..n])
      case None => None
      case Some(mid) => if Enabled(mid, evs[n]) then Some(Next(mid, evs[n])) else None
  }

  lemma AfterSnoc(s: State, evs: seq<Event>, e: Event)
    ensures After(s, evs + [e]) ==
      match After(s, evs)
      case None => None
      case Some(mid) => if Enabled(mid, e) then Some(Next(mid, e)) else None
  {
    assert (evs + [e])[..|evs|] == evs;
  }

  lemma AfterOneMore(s: State, evs: seq<Event>, e: Event)
    requires After(s, evs).Some? && Enabled(After(s, evs).value, e)
    ensures After(s, evs + [e]) == Some(Next(After(s, evs).value, e))
  {
    AfterSnoc(s, evs, e);
  }

  /** One turn of the writer's loop. */
  lemma AfterTurn(s: State, evs: seq<Event>)
    requires After(s, evs).Some?
    requires var m := After(s, evs).value; m.ch != [] && m.hand.None? && !m.done
    ensures var m := After(s, evs).value;
      After(s, evs + [Event.Take, Event.Insert]) == Some(m.(ch := m.ch[1..], handed := m.handed + [m.ch[0]]))
  {
    AfterOneMore(s, evs, Event.Take);
    AfterOneMore(s, evs + [Event.Take], Event.Insert);
    assert evs + [Event.Take] + [Event.Insert] == evs + [Event.Take, Event.Insert];
  }

  lemma {:induction false} AfterBoth(s: State, first: seq<Event>, second: seq<Event>)
    requires After(s, first).Some?
    ensures After(s, first + second) == After(After(s, first).value, second)
  {
    if second == [] {
      assert first + second == first;
    } else {
      var n := |second| - 1;
      AfterBoth(s, first, second[..n]);
      assert first + second == (first + second[..n]) + [second[n]] && second == second[..n] + [second[n]];
      AfterSnoc(s, first + second[..n], second[n]);
      AfterSnoc(After(s, first).value, second[..n], second[n]);
    }
  }

  /** The logger as an object; each method is one action, or the events it returns. */
  class Logger {
    var ch: seq<Entry>
    var hand: Option<Entry>
    var handed: seq<Entry>
    var closed: bool
    var done: bool

    ghost function Value(): State
      reads this
    {
      State(ch, hand, handed, closed, done)
    }

    constructor ()
      ensures Value() == INITIAL
    {
      ch, hand, handed, closed, done := [], None, [], false, false;
    }

    method Log(entry: Entry, now: int) returns (dropped: bool)
      requires !closed
      modifies this`ch
      ensures Value() == Next(old(Value()), Event.Log(entry, now))
      ensures dropped <==> |old(ch)| >= 256
    {
      var e := entry;
      if e.timestamp.None? {
        e := e.(timestamp := Some(now));
      }
      if |ch| < CAPACITY {
        ch := ch + [e];
        dropped := false;
      } else {
        dropped := true;
      }
    }

    /** The writer loop once the channel is closed: it hands over everything left, in order. */
    method Drain() returns (ghost evs: seq<Event>)
      requires closed && !done
      modifies this
      ensures After(old(Value()), evs) == Some(Value())
      ensures handed == old(handed) + Held(old(hand)) + old(ch)
      ensures ch == [] && hand == None && closed && done
    {
      evs := [];
      if hand.Some? {
        AfterOneMore(old(Value()), evs, Event.Insert);
        evs := evs + [Event.Insert];
        handed := handed + [hand.value];
        hand := None;
      }
      while |ch| > 0
        invariant hand == None && closed && !done
        invariant handed + ch == old(handed) + Held(old(hand)) + old(ch)
        invariant After(old(Value()), evs) == Some(Value())
        decreases |ch|
      {
        AfterTurn(old(Value()), evs);
        evs := evs + [Event.Take, Event.Insert];
        hand := Some(ch[0]);
        ch := ch[1..];
        handed := handed + [hand.value];
        hand := None;
      }
      AfterOneMore(old(Value()), evs, Event.Finish);
      evs := evs + [Event.Finish];
      done := true;
    }

    /** Close the channel and wait for the writer. */
    method Close() returns (ghost evs: seq<Event>)
      requires !closed && !done
      modifies this
      ensures After(old(Value()), evs) == Some(Value())
      ensures handed == old(handed) + Held(old(hand)) + old(ch)
      ensures ch == [] && hand == None && closed && done
    {
      closed := true;
      AfterOneMore(old(Value()), [], Event.CloseChannel);
      assert [] + [Event.CloseChannel] == [Event.CloseChannel];
      var drained := Drain();
      evs := [Event.CloseChannel] + drained;
      AfterBoth(old(Value()), [Event.CloseChannel], drained);
    }
  }

  function Held(hand: Option<Entry>): seq<Entry> {
    if hand.Some? then [hand.value] else []
  }

  ghost predicate Stepped(evs: seq<Event>, states: seq<State>, i: nat)
    requires i < |evs| && |states| == |evs| + 1
  {
    Enabled(states[i], evs[i]) && states[i + 1] == Next(states[i], evs[i])
  }

  /** Any interleaving of loggers, the writer and the closer. */
  ghost predicate Trace(evs: seq<Event>, states: seq<State>) {
    && |states| == |evs| + 1 && states[0] == INITIAL
    && (forall i :: 0 <= i < |evs| ==> Stepped(evs, states, i))
  }

  /** The entries submitted by the first `n` events. */
  function Submitted(evs: seq<Event>, n: nat): seq<Entry>
    requires n <= |evs|
  {
    if n == 0 then []
    else Submitted(evs, n - 1) + if evs[n - 1].Log? then [Stamped(evs[n - 1].entry, evs[n - 1].now)] else []
  }

  /** Event `i` was a Log that found the channel full. */
  predicate Drops(evs: seq<Event>, states: seq<State>, i: nat)
    requires i < |evs| && |states| == |evs| + 1
  {
    evs[i].Log? && states[i + 1].ch == states[i].ch
  }

  function Dropped(evs: seq<Event>, states: seq<State>, n: nat): nat
    requires n <= |evs| && |states| == |evs| + 1
  {
    if n == 0 then 0 else Dropped(evs, states, n - 1) + if Drops(evs, states, n - 1) then 1 else 0
  }

  /** The elements of `a` occur in `b` at the increasing positions `at`. */
  ghost predicate Picks(at: seq<nat>, a: seq<Entry>, b: seq<Entry>) {
    && |at| == |a|
    && (forall i :: 0 <= i < |at| ==> at[i] < |b| && b[at[i]] == a[i])
    && (forall i, j :: 0 <= i < j < |at| ==> at[i] < at[j])
  }

  /** `a` is `b` with some elements left out. */
  ghost predicate Subsequence(a: seq<Entry>, b: seq<Entry>) {
    exists at: seq<nat> :: Picks(at, a, b)
  }

  lemma SubsequenceExtends(a: seq<Entry>, b: seq<Entry>, x: Entry)
    requires Subsequence(a, b)
    ensures Subsequence(a, b + [x]) && Subsequence(a + [x], b + [x])
  {
    var at: seq<nat> :| Picks(at, a, b);
    assert Picks(at, a, b + [x]);
    assert Picks(at + [|b|], a + [x], b + [x]);
  }

  lemma SubsequencePrefix(a: seq<Entry>, b: seq<Entry>, k: nat)
    requires Subsequence(a, b) && k <= |a|
    ensures Subsequence(a[..k], b)
  {
    var at: seq<nat> :| Picks(at, a, b);
    assert Picks(at[..k], a[..k], b);
  }

  /** The entries whose Log was not dropped, by the events alone. */
  function Kept(evs: seq<Event>, states: seq<State>, n: nat): seq<Entry>
    requires n <= |evs| && |states| == |evs| + 1
  {
    if n == 0 then []
    else
      Kept(evs, states, n - 1) +
      if evs[n - 1].Log? && !Drops(evs, states, n - 1) then [Stamped(evs[n - 1].entry, evs[n - 1].now)] else []
  }

  /** Everything the logger holds or has handed over, oldest first. */
  function Accepted(s: State): seq<Entry> {
    s.handed + Held(s.hand) + s.ch
  }

  ghost predicate Balanced(evs: seq<Event>, states: seq<State>, n: nat)
    requires n <= |evs| && |states| == |evs| + 1
  {
    var s := states[n];
    && |s.ch| <= 256
    && (s.done ==> s.closed && s.ch == [] && s.hand.None?)
    && |Submitted(evs, n)| == Dropped(evs, states, n) + |s.ch| + |Held(s.hand)| + |s.handed|
    && Subsequence(Accepted(s), Submitted(evs, n))
  }

  lemma LogBalanced(evs: seq<Event>, states: seq<State>, n: nat)
    requires n < |evs| && |states| == |evs| + 1 && Stepped(evs, states, n) && Balanced(evs, states, n) && evs[n].Log?
    ensures Balanced(evs, states, n + 1)
  {
    var s, s', x := states[n], states[n + 1], Stamped(evs[n].entry, evs[n].now);
    SubsequenceExtends(Accepted(s), Submitted(evs, n), x);
    if |s.ch| < CAPACITY {
      assert Accepted(s') == Accepted(s) + [x];
      assert |s'.ch| != |s.ch|;
    }
  }

  lemma OtherBalanced(evs: seq<Event>, states: seq<State>, n: nat)
    requires n < |evs| && |states| == |evs| + 1 && Stepped(evs, states, n) && Balanced(evs, states, n) && !evs[n].Log?
    ensures Balanced(evs, states, n + 1)
  {
    assert Accepted(states[n + 1]) == Accepted(states[n]);
    assert Submitted(evs, n + 1) == Submitted(evs, n);
  }

  /** At every point: submitted = dropped + queued + in hand + handed over; the
      channel holds at most 256; and what was accepted keeps the submission order. */
  lemma {:induction false} Conservation(evs: seq<Event>, states: seq<State>, n: nat)
    requires Trace(evs, states) && n <= |evs|
    ensures Balanced(evs, states, n)
  {
    if n == 0 {
      assert Picks([], Accepted(states[0]), Submitted(evs, 0));
    } else {
      Conservation(evs, states, n - 1);
      assert Stepped(evs, states, n - 1);
      if evs[n - 1].Log? {
        LogBalanced(evs, states, n - 1);
      } else {
        OtherBalanced(evs, states, n - 1);
      }
    }
  }

  /** An entry is dropped exactly when 256 are queued. */
  lemma DropsOnlyWhenFull(evs: seq<Event>, states: seq<State>, i: nat)
    requires Trace(evs, states) && i < |evs| && evs[i].Log?
    ensures Drops(evs, states, i) <==> |states[i].ch| == 256
  {
    Conservation(evs, states, i);
    assert Stepped(evs, states, i);
  }

  /** Inserts happen in submission order, each entry at most once, and no accepted
      entry is skipped. */
  lemma InsertsInOrder(evs: seq<Event>, states: seq<State>, n: nat)
    requires Trace(evs, states) && n <= |evs|
    ensures Subsequence(states[n].handed, Submitted(evs, n))
    ensures states[n].handed <= Kept(evs, states, n)
  {
    Conservation(evs, states, n);
    AcceptedIsKept(evs, states, n);
    var s := states[n];
    SubsequencePrefix(Accepted(s), Submitted(evs, n), |s.handed|);
    assert Accepted(s)[..|s.handed|] == s.handed;
  }

  /** Only a Log that finds room adds to what the logger answers for. */
  lemma NextAccepted(s: State, e: Event)
    requires Enabled(s, e)
    ensures Accepted(Next(s, e)) == Accepted(s) + if e.Log? && |s.ch| < CAPACITY then [Stamped(e.entry, e.now)] else []
  {
    if e.Log? && |s.ch| < CAPACITY {
      assert Accepted(Next(s, e)) == s.handed + Held(s.hand) + (s.ch + [Stamped(e.entry, e.now)]);
    } else if e.Take? {
      assert s.ch == [s.ch[0]] + s.ch[1..];
    }
  }

  /** At every point the logger holds or has handed over exactly the entries whose Log
      was not dropped, in that order. */
  lemma {:induction false} AcceptedIsKept(evs: seq<Event>, states: seq<State>, n: nat)
    requires Trace(evs, states) && n <= |evs|
    ensures Accepted(states[n]) == Kept(evs, states, n)
  {
    if n > 0 {
      AcceptedIsKept(evs, states, n - 1);
      assert Stepped(evs, states, n - 1);
      NextAccepted(states[n - 1], evs[n - 1]);
      Conservation(evs, states, n - 1);
      if evs[n - 1].Log? {
        DropsOnlyWhenFull(evs, states, n - 1);
      }
    }
  }

  /** Once the writer has finished, the inserts are exactly the entries whose Log was
      not dropped, each once and in order. */
  lemma CloseLosesNothing(evs: seq<Event>, states: seq<State>, n: nat)
    requires Trace(evs, states) && n <= |evs| && states[n].done
    ensures states[n].handed == Kept(evs, states, n)
    ensures |states[n].handed| + Dropped(evs, states, n) == |Submitted(evs, n)|
  {
    Conservation(evs, states, n);
    AcceptedIsKept(evs, states, n);
  }
}
