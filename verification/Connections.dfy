/** The connection server: a counting semaphore, a tracker, and handlers that clean
    up behind themselves on every way out. */
module Connections {

  const MAX_CONNECTIONS := 1000

  class ConnectionInfo {
    var id: string
    var clientCN: string
    var remoteAddr: string
    var connectedAt: int
    var operations: nat
    var lastOp: string
    var lastOpAt: int

    constructor (id: string, clientCN: string, remoteAddr: string, now: int)
      ensures Snapshot() == Info(id, clientCN, remoteAddr, now, 0, "", 0)
    {
      this.id, this.clientCN, this.remoteAddr, this.connectedAt := id, clientCN, remoteAddr, now;
      operations, lastOp, lastOpAt := 0, "", 0;
    }

    function Snapshot(): Info
      reads this
    {
      Info(id, clientCN, remoteAddr, connectedAt, operations, lastOp, lastOpAt)
    }
  }

  datatype Info = Info(id: string, clientCN: string, remoteAddr: string, connectedAt: int, operations: nat, lastOp: string, lastOpAt: int)

  type Tracked = map<string, Info>

  function Added(t: Tracked, id: string, clientCN: string, remoteAddr: string, now: int): Tracked {
    t[id := Info(id, clientCN, remoteAddr, now, 0, "", 0)]
  }

  function Record(t: Tracked, id: string, op: string, now: int): Tracked {
    if id !in t then t
    else t[id := t[id].(operations := t[id].operations + 1, lastOp := op, lastOpAt := now)]
  }

  /** Where a handler is: before its handshake is done, serving under a connection id,
      or on its way out with the slot still to be given back. */
  datatype Phase = Starting | Serving(id: string) | Leaving

  /** The semaphore slots taken, the running handlers, and the tracker. */
  datatype State = State(slots: nat, handlers: map<nat, Phase>, tracker: Tracked)

  const INITIAL := State(0, map[], map[])

  /** `Exit` stands for an end of stream, a timeout, an oversize message, a failed
      write or a recovered panic: every one runs the deferred Remove. A panic before
      the connection is added counts as a failed handshake. */
  datatype Event =
    | Accept(h: nat)
    | HandshakeFails(h: nat)
    | HandshakeDone(h: nat, id: string, clientCN: string, remoteAddr: string, now: int)
    | Operate(h: nat, op: string, now: int)
    | Exit(h: nat)
    | Release(h: nat)

  predicate Enabled(s: State, e: Event) {
    match e
    case Accept(h) => h !in s.handlers
    case HandshakeFails(h) => h in s.handlers && s.handlers[h].Starting?
    case HandshakeDone(h, _, _, _, _) => h in s.handlers && s.handlers[h].Starting?
    case Operate(h, _, _) => h in s.handlers && s.handlers[h].Serving?
    case Exit(h) => h in s.handlers && s.handlers[h].Serving?
    case Release(h) => h in s.handlers && s.handlers[h].Leaving? && s.slots > 0
  }

  /** An accepted connection takes a slot, which its handler gives back when it is done;
      one that finds no free slot is closed at once. */
  function Next(s: State, e: Event): State
    requires Enabled(s, e)
  {
    match e
    case Accept(h) => if s.slots < MAX_CONNECTIONS then s.(slots := s.slots + 1, handlers := s.handlers[h := Starting]) else s
    case HandshakeFails(h) => s.(handlers := s.handlers[h := Leaving])
    case HandshakeDone(h, id, clientCN, remoteAddr, now) =>
      s.(handlers := s.handlers[h := Serving(id)], tracker := Added(s.tracker, id, clientCN, remoteAddr, now))
    case Operate(h, op, now) => s.(tracker := Record(s.tracker, s.handlers[h].id, op, now))
    case Exit(h) => s.(handlers := s.handlers[h := Leaving], tracker := s.tracker - {s.handlers[h].id})
    case Release(h) => s.(slots := s.slots - 1, handlers := s.handlers - {h})
  }

  ghost predicate Stepped(evs: seq<Event>, states: seq<State>, i: nat)
    requires i < |evs| && |states| == |evs| + 1
  {
    Enabled(states[i], evs[i]) && states[i + 1] == Next(states[i], evs[i])
  }

  ghost predicate Trace(evs: seq<Event>, states: seq<State>) {
    && |states| == |evs| + 1 && states[0] == INITIAL
    && (forall i :: 0 <= i < |evs| ==> Stepped(evs, states, i))
  }

  /** The ids of the handlers being served. */
  ghost function ServedIds(s: State): set<string> {
    set h | h in s.handlers && s.handlers[h].Serving? :: s.handlers[h].id
  }

  ghost predicate Accounted(s: State) {
    s.slots == |s.handlers| && s.slots <= MAX_CONNECTIONS && s.tracker.Keys <= ServedIds(s)
  }

  lemma HandlersCount(handlers: map<nat, Phase>, h: nat, p: Phase)
    ensures |handlers[h := p]| == if h in handlers then |handlers| else |handlers| + 1
    ensures h in handlers ==> |handlers - {h}| == |handlers| - 1
  {
    assert |handlers| == |handlers.Keys|;
    assert handlers[h := p].Keys == handlers.Keys + {h} && |handlers[h := p]| == |handlers[h := p].Keys|;
    assert (handlers - {h}).Keys == handlers.Keys - {h} && |handlers - {h}| == |(handlers - {h}).Keys|;
  }

  /** Slots are taken and given back with the handlers that hold them. */
  lemma SlotsBalanced(s: State, e: Event)
    requires Accounted(s) && Enabled(s, e)
    ensures var s' := Next(s, e); s'.slots == |s'.handlers| && s'.slots <= MAX_CONNECTIONS
  {
    match e
    case Accept(h) => HandlersCount(s.handlers, h, Starting);
    case HandshakeFails(h) => HandlersCount(s.handlers, h, Leaving);
    case HandshakeDone(h, id, _, _, _) => HandlersCount(s.handlers, h, Serving(id));
    case Operate(_, _, _) =>
    case Exit(h) => HandlersCount(s.handlers, h, Leaving);
    case Release(h) => HandlersCount(s.handlers, h, Leaving);
  }

  lemma StepAccounted(s: State, e: Event)
    requires Accounted(s) && Enabled(s, e)
    ensures Accounted(Next(s, e))
  {
    SlotsBalanced(s, e);
    var s' := Next(s, e);
    forall id | id in s'.tracker
      ensures id in ServedIds(s')
    {
      if id in s.tracker {
        var h :| h in s.handlers && s.handlers[h].Serving? && s.handlers[h].id == id;
        assert h in s'.handlers && s'.handlers[h] == s.handlers[h];
      } else {
        assert s'.handlers[e.h] == Serving(id);
      }
    }
  }

  lemma {:induction false} AlwaysAccounted(evs: seq<Event>, states: seq<State>, n: nat)
    requires Trace(evs, states) && n <= |evs|
    ensures Accounted(states[n])
  {
    if n == 0 {
      assert states[0].tracker.Keys == {} && |states[0].handlers| == 0;
    } else {
      AlwaysAccounted(evs, states, n - 1);
      assert Stepped(evs, states, n - 1);
      StepAccounted(states[n - 1], evs[n - 1]);
    }
  }

  /** Distinct ids need distinct handlers. */
  lemma {:induction false} FewerIdsThanHandlers(handlers: map<nat, Phase>)
    ensures |ServedIds(State(0, handlers, map[]))| <= |handlers|
    decreases |handlers|
  {
    var ids := ServedIds(State(0, handlers, map[]));
    if handlers.Keys != {} {
      var h :| h in handlers.Keys;
      var rest := handlers - {h};
      assert rest.Keys == handlers.Keys - {h};
      FewerIdsThanHandlers(rest);
      var ids' := ServedIds(State(0, rest, map[]));
      var mine := if handlers[h].Serving? then {handlers[h].id} else {};
      forall id | id in ids
        ensures id in ids' + mine
      {
        var g :| g in handlers && handlers[g].Serving? && handlers[g].id == id;
        if g != h {
          assert g in rest && rest[g] == handlers[g];
        }
      }
      SubsetSize(ids, ids' + mine);
    } else {
      assert ids == {};
    }
  }

  lemma {:induction false} SubsetSize<T>(a: set<T>, b: set<T>)
    requires a <= b
    ensures |a| <= |b|
  {
    assert b == a + (b - a);
  }

  /** The slots taken are the running handlers, at most 1000, and the tracker never
      counts more connections than that; it is empty as soon as no handler is serving,
      and when every handler is gone every slot is free. */
  lemma ConnectionAccounting(evs: seq<Event>, states: seq<State>, n: nat)
    requires Trace(evs, states) && n <= |evs|
    ensures var s := states[n];
      && |s.tracker| <= s.slots == |s.handlers| <= 1000
      && ((forall h :: h in s.handlers ==> !s.handlers[h].Serving?) ==> s.tracker == map[])
      && (s.handlers == map[] ==> s.slots == 0 && s.tracker == map[])
  {
    AlwaysAccounted(evs, states, n);
    var s := states[n];
    FewerIdsThanHandlers(s.handlers);
    assert ServedIds(s) == ServedIds(State(0, s.handlers, map[]));
    SubsetSize(s.tracker.Keys, ServedIds(s));
    assert |s.tracker| == |s.tracker.Keys|;
    if forall h :: h in s.handlers ==> !s.handlers[h].Serving? {
      assert ServedIds(s) == {};
      assert s.tracker.Keys == {};
    }
  }

  /** A connection gets a handler if and only if fewer than 1000 are running. */
  lemma AcceptedIffFree(evs: seq<Event>, states: seq<State>, n: nat)
    requires Trace(evs, states) && n < |evs| && evs[n].Accept?
    ensures evs[n].h in states[n + 1].handlers <==> |states[n].handlers| < 1000
    ensures |states[n].handlers| >= 1000 ==> states[n + 1] == states[n]
  {
    AlwaysAccounted(evs, states, n);
    assert Stepped(evs, states, n);
  }

  /** A handler on its way out can always give its slot back: the receive on the
      semaphore never blocks. */
  lemma ReleaseNeverBlocks(evs: seq<Event>, states: seq<State>, n: nat, h: nat)
    requires Trace(evs, states) && n <= |evs| && h in states[n].handlers && states[n].handlers[h].Leaving?
    ensures Enabled(states[n], Release(h))
  {
    AlwaysAccounted(evs, states, n);
    assert h in states[n].handlers.Keys;
    assert |states[n].handlers.Keys| == |states[n].handlers|;
  }

  /** Connection ids are never reused. */
  ghost predicate DistinctIds(evs: seq<Event>) {
    forall i, j :: 0 <= i < j < |evs| && evs[i].HandshakeDone? && evs[j].HandshakeDone? ==> evs[i].id != evs[j].id
  }

  predicate ServesAs(s: State, h: nat, id: string) {
    h in s.handlers && s.handlers[h] == Serving(id)
  }

  /** No two handlers serve under one id, and the tracker lists exactly the served ids. */
  ghost predicate Exact(s: State) {
    && (forall g, h, id :: ServesAs(s, g, id) && ServesAs(s, h, id) ==> g == h)
    && (forall h, id :: ServesAs(s, h, id) ==> id in s.tracker)
    && (forall id :: id in s.tracker ==> exists h :: ServesAs(s, h, id))
  }

  lemma ExactStep(s: State, e: Event)
    requires Exact(s) && Enabled(s, e)
    requires e.HandshakeDone? ==> e.id !in s.tracker
    ensures Exact(Next(s, e))
    ensures forall id :: id in Next(s, e).tracker ==> id in s.tracker || (e.HandshakeDone? && e.id == id)
  {
    var s' := Next(s, e);
    forall h, id | ServesAs(s', h, id)
      ensures ServesAs(s, h, id) || (e.HandshakeDone? && e.h == h && e.id == id)
      ensures id in s'.tracker
    {
      if e.Exit? {
        assert ServesAs(s, e.h, s.handlers[e.h].id);
      }
    }
    forall id | id in s'.tracker
      ensures exists h :: ServesAs(s', h, id)
    {
      if id in s.tracker {
        var h :| ServesAs(s, h, id);
        assert ServesAs(s', h, id);
      } else {
        assert ServesAs(s', e.h, id);
      }
    }
  }

  ghost predicate Shaken(evs: seq<Event>, id: string, n: nat)
    requires n <= |evs|
  {
    exists i :: 0 <= i < n && evs[i].HandshakeDone? && evs[i].id == id
  }

  lemma {:induction false} TrackerExact(evs: seq<Event>, states: seq<State>, n: nat)
    requires Trace(evs, states) && DistinctIds(evs) && n <= |evs|
    ensures Exact(states[n])
    ensures forall id :: id in states[n].tracker ==> Shaken(evs, id, n)
  {
    if n > 0 {
      TrackerExact(evs, states, n - 1);
      assert Stepped(evs, states, n - 1);
      assert evs[n - 1].HandshakeDone? ==> !Shaken(evs, evs[n - 1].id, n - 1);
      ExactStep(states[n - 1], evs[n - 1]);
      assert forall id :: Shaken(evs, id, n - 1) ==> Shaken(evs, id, n);
    }
  }

  /** With unique connection ids the tracker lists exactly the connections being served. */
  lemma TrackerListsServed(evs: seq<Event>, states: seq<State>, n: nat)
    requires Trace(evs, states) && DistinctIds(evs) && n <= |evs|
    ensures states[n].tracker.Keys == ServedIds(states[n])
  {
    TrackerExact(evs, states, n);
    var s := states[n];
    assert forall h :: h in s.handlers && s.handlers[h].Serving? ==> ServesAs(s, h, s.handlers[h].id);
    forall id | id in s.tracker
      ensures id in ServedIds(s)
    {
      var h :| ServesAs(s, h, id);
      assert s.handlers[h].id == id;
    }
  }

  /** Event `k` is an operation of the connection. */
  predicate OperatesOn(evs: seq<Event>, states: seq<State>, id: string, k: nat)
    requires k < |evs| && |states| == |evs| + 1
  {
    evs[k].Operate? && ServesAs(states[k], evs[k].h, id)
  }

  /** Operations of the connection among the first `n` events. */
  function OperationsOf(evs: seq<Event>, states: seq<State>, id: string, n: nat): nat
    requires n <= |evs| && |states| == |evs| + 1
  {
    if n == 0 then 0 else OperationsOf(evs, states, id, n - 1) + if OperatesOn(evs, states, id, n - 1) then 1 else 0
  }

  /** The latest of them and its time; none is an empty name at the zero time. */
  function LatestOf(evs: seq<Event>, states: seq<State>, id: string, n: nat): (string, int)
    requires n <= |evs| && |states| == |evs| + 1
  {
    if n == 0 then ("", 0)
    else if OperatesOn(evs, states, id, n - 1) then (evs[n - 1].op, evs[n - 1].now)
    else LatestOf(evs, states, id, n - 1)
  }

  /** Nobody operates on a connection before its handshake. */
  lemma {:induction false} QuietBeforeHandshake(evs: seq<Event>, states: seq<State>, id: string, n: nat)
    requires Trace(evs, states) && DistinctIds(evs) && n <= |evs| && !Shaken(evs, id, n)
    ensures OperationsOf(evs, states, id, n) == 0 && LatestOf(evs, states, id, n) == ("", 0)
  {
    if n > 0 {
      assert !Shaken(evs, id, n - 1);
      QuietBeforeHandshake(evs, states, id, n - 1);
      TrackerExact(evs, states, n - 1);
    }
  }

  /** Event `k` is the handshake of the connection, and the entry is what its data and
      its operations so far make it. */
  ghost predicate EntryFrom(evs: seq<Event>, states: seq<State>, id: string, n: nat, k: int)
    requires n <= |evs| && |states| == |evs| + 1 && id in states[n].tracker
  {
    && 0 <= k < n && evs[k].HandshakeDone? && evs[k].id == id
    && states[n].tracker[id] == Info(id, evs[k].clientCN, evs[k].remoteAddr, evs[k].now, OperationsOf(evs, states, id, n),
                                     LatestOf(evs, states, id, n).0, LatestOf(evs, states, id, n).1)
  }

  lemma EntryStep(evs: seq<Event>, states: seq<State>, id: string, n: nat, k: int)
    requires Trace(evs, states) && DistinctIds(evs) && n < |evs| && id in states[n].tracker && EntryFrom(evs, states, id, n, k)
    requires id in states[n + 1].tracker
    ensures EntryFrom(evs, states, id, n + 1, k)
  {
    assert Stepped(evs, states, n);
    var e := evs[n];
    if e.HandshakeDone? {
      assert e.id != id;
    }
  }

  /** With unique connection ids, the tracker shows of each connection its handshake data,
      how many operations it has made, and the latest of them. */
  lemma {:induction false} EntriesByHistory(evs: seq<Event>, states: seq<State>, id: string, n: nat)
    requires Trace(evs, states) && DistinctIds(evs) && n <= |evs| && id in states[n].tracker
    ensures exists k :: EntryFrom(evs, states, id, n, k)
  {
    var m := n - 1;
    assert Stepped(evs, states, m);
    if id in states[m].tracker {
      EntriesByHistory(evs, states, id, m);
      var k :| EntryFrom(evs, states, id, m, k);
      EntryStep(evs, states, id, m, k);
    } else {
      TrackerExact(evs, states, m);
      FreshHandshake(evs, id, m);
      QuietBeforeHandshake(evs, states, id, m);
      assert EntryFrom(evs, states, id, n, m);
    }
  }

  lemma FreshHandshake(evs: seq<Event>, id: string, m: nat)
    requires DistinctIds(evs) && m < |evs| && evs[m].HandshakeDone? && evs[m].id == id
    ensures !Shaken(evs, id, m)
  {
  }

  /** `t` is the tracker after the event, if the event can happen. */
  predicate Refines(s: State, e: Event, t: Tracked) {
    Enabled(s, e) ==> Next(s, e).tracker == t
  }

  lemma OperateRefines(t: Tracked, id: string, op: string, now: int)
    ensures forall s: State, h: nat :: s.tracker == t && ServesAs(s, h, id) ==> Refines(s, Operate(h, op, now), Record(t, id, op, now))
  {
  }

  class ConnectionTracker {
    var conns: map<string, ConnectionInfo>
    ghost var View: Tracked

    /** No two connections share an info object. */
    ghost predicate Valid()
      reads this, conns.Values
    {
      && View.Keys == conns.Keys
      && (forall id :: id in conns ==> conns[id].Snapshot() == View[id])
      && (forall p, q :: p in conns && q in conns && p != q ==> conns[p] != conns[q])
    }

    constructor ()
      ensures Valid() && View == map[]
    {
      conns, View := map[], map[];
    }

    method Add(id: string, clientCN: string, remoteAddr: string, now: int)
      requires Valid()
      modifies this
      ensures Valid() && View == Added(old(View), id, clientCN, remoteAddr, now)
      ensures forall s: State, h: nat :: s.tracker == old(View) ==> Refines(s, HandshakeDone(h, id, clientCN, remoteAddr, now), View)
    {
      var info := new ConnectionInfo(id, clientCN, remoteAddr, now);
      conns := conns[id := info];
      View := View[id := info.Snapshot()];
    }

    method Remove(id: string)
      requires Valid()
      modifies this
      ensures Valid() && View == old(View) - {id}
      ensures forall s: State, h: nat :: s.tracker == old(View) && ServesAs(s, h, id) ==> Refines(s, Exit(h), View)
    {
      conns := conns - {id};
      View := View - {id};
    }

    method RecordOp(id: string, op: string, now: int)
      requires Valid()
      modifies this, conns.Values
      ensures Valid() && View == Record(old(View), id, op, now)
      ensures forall s: State, h: nat :: s.tracker == old(View) && ServesAs(s, h, id) ==> Refines(s, Operate(h, op, now), View)
    {
      if id !in conns {
        OperateRefines(View, id, op, now);
        return;
      }
      var info := conns[id];
      info.operations := info.operations + 1;
      info.lastOp := op;
      info.lastOpAt := now;
      View := Record(View, id, op, now);
      forall p | p in conns && p != id
        ensures conns[p].Snapshot() == View[p]
      {
        assert conns[p] != info;
      }
      OperateRefines(old(View), id, op, now);
    }

    method Count() returns (n: nat)
      requires Valid()
      ensures n == |View|
    {
      n := |conns|;
      assert |conns.Keys| == |View.Keys|;
    }
  }
}
