/**
 * Whole programs over the C++ wrapper: any number of wrappers, opened, moved, assigned, given
 * callbacks, polled and destroyed in any order. Every handle and every callback state has one owner
 * until it is closed or freed, once; and the callbacks and the failure count follow the ownership.
 */
module Ownership {
  import opened Events
  import opened Wrapper

  /** What a program sees of one wrapper. */
  datatype Row = MovedFrom | Live(callbacks: seq<Callback>, failures: nat)

  datatype Op =
    | Open(succeeds: bool)
    | Construct(source: nat)
    | Assign(target: nat, source: nat, injected: Statuses)
    | On(target: nat, eventType: int, callback: Callback, status: int)
    | Deliver(target: nat, event: Event, throws: bool, viaLoop: bool)
    | Destroy(target: nat, injected: Statuses)

  /** The callback that gets an event, if any. */
  function CallbackFor(row: Row, event: Event): Callback {
    if row.Live? && TypeOf(event) < |row.callbacks| then row.callbacks[TypeOf(event)] else Empty
  }

  /** An event reaches the callback for its type, and nothing else; what that throws is counted. */
  function Delivered(row: Row, event: Event, throws: bool): Row {
    if CallbackFor(row, event) != Empty && throws then row.(failures := row.failures + 1) else row
  }

  /** The rows after one operation, most recently constructed wrapper last. */
  function After(rows: seq<Row>, op: Op): seq<Row> {
    match op
    case Open(succeeds) => if succeeds then rows + [Live(NoCallbacks(), 0)] else rows
    case Construct(source) =>
      if source < |rows| then rows[source := MovedFrom] + [rows[source]] else rows
    case Assign(target, source, _) =>
      if target < |rows| && source < |rows| && target != source
      then rows[target := rows[source]][source := MovedFrom] else rows
    case On(target, eventType, callback, status) =>
      if target < |rows| && rows[target].Live? && 0 <= eventType < |rows[target].callbacks| && status == 0
      then rows[target := rows[target].(callbacks := rows[target].callbacks[eventType := callback])] else rows
    case Deliver(target, event, throws, _) =>
      if target < |rows| then rows[target := Delivered(rows[target], event, throws)] else rows
    case Destroy(target, _) =>
      if target < |rows| then rows[..target] + rows[target + 1..] else rows
  }

  function AfterAll(rows: seq<Row>, ops: seq<Op>): seq<Row> {
    if ops == [] then rows else After(AfterAll(rows, ops[..|ops| - 1]), ops[|ops| - 1])
  }

  function Seen(s: CallbackState?): Row
    reads s
  {
    if s == null then MovedFrom else Live(s.callbacks, s.failureCount)
  }

  /** A wrapper, what it refers to, and what the program sees of it. */
  datatype Entry = Entry(wrapper: Monome, handle: Device?, state: CallbackState?, row: Row)
  {
    /** The entry tells the truth, and the two tables agree. */
    ghost predicate Holds()
      reads wrapper, handle, state
    {
      && wrapper.handle == handle && wrapper.state == state && (handle == null <==> state == null)
      && (handle != null ==> Agree(handle, state)) && row == Seen(state)
    }

    predicate Refers(o: object) {
      handle == o || state == o
    }

    /** Two entries have nothing in common. */
    ghost predicate Apart(other: Entry) {
      && wrapper != other.wrapper
      && (handle != null ==> handle != other.handle)
      && (state != null ==> state != other.state)
    }
  }

  ghost predicate AllApart(es: seq<Entry>) {
    forall i, j :: 0 <= i < |es| && 0 <= j < |es| && i != j ==> es[i].Apart(es[j])
  }

  ghost predicate Owned(es: seq<Entry>, o: object) {
    exists e <- es :: e.Refers(o)
  }

  lemma OwnedConcat(es: seq<Entry>, fs: seq<Entry>, o: object)
    ensures Owned(es + fs, o) <==> Owned(es, o) || Owned(fs, o)
  {}

  lemma OwnedOne(e: Entry, o: object)
    ensures Owned([e], o) <==> e.Refers(o)
  {
    assert e in [e];
  }

  lemma AddedOwners(es: seq<Entry>, e: Entry, o: object)
    ensures Owned(es + [e], o) <==> Owned(es, o) || e.Refers(o)
  {
    OwnedConcat(es, [e], o);
    OwnedOne(e, o);
  }

  lemma AddedApart(es: seq<Entry>, e: Entry)
    requires AllApart(es) && forall i :: 0 <= i < |es| ==> es[i].Apart(e) && e.Apart(es[i])
    ensures AllApart(es + [e])
  {}

  lemma OwnedUpdate(es: seq<Entry>, i: nat, e: Entry, o: object)
    requires i < |es| && AllApart(es)
    ensures Owned(es[i := e], o) <==> (Owned(es, o) && !es[i].Refers(o)) || e.Refers(o)
  {
    var fs := es[i := e];
    assert fs[i] == e;
    assert forall j :: 0 <= j < |es| && j != i ==> fs[j] == es[j];
    if f :| f in es && f.Refers(o) && !es[i].Refers(o) {
      assert f in fs;
    }
  }

  lemma OwnedRemove(es: seq<Entry>, i: nat, o: object)
    requires i < |es| && AllApart(es)
    ensures Owned(es[..i] + es[i + 1..], o) <==> Owned(es, o) && !es[i].Refers(o)
  {
    assert es == es[..i] + ([es[i]] + es[i + 1..]);
    OwnedConcat(es[..i], [es[i]] + es[i + 1..], o);
    OwnedConcat([es[i]], es[i + 1..], o);
    OwnedConcat(es[..i], es[i + 1..], o);
    OwnedOne(es[i], o);
    if es[i].Refers(o) {
      assert forall j :: 0 <= j < |es| && j != i ==> es[i].Apart(es[j]);
    }
  }

  /** The entry of a wrapper that was moved from. */
  function Emptied(e: Entry): Entry {
    Entry(e.wrapper, null, null, MovedFrom)
  }

  function Constructed(es: seq<Entry>, source: nat, w: Monome): seq<Entry>
    requires source < |es|
  {
    es[source := Emptied(es[source])] + [es[source].(wrapper := w)]
  }

  lemma ConstructedOwners(es: seq<Entry>, source: nat, w: Monome, o: object)
    requires source < |es| && AllApart(es)
    ensures Owned(Constructed(es, source, w), o) <==> Owned(es, o)
  {
    OwnedConcat(es[source := Emptied(es[source])], [es[source].(wrapper := w)], o);
    OwnedUpdate(es, source, Emptied(es[source]), o);
    OwnedOne(es[source].(wrapper := w), o);
    assert es[source] in es;
  }

  lemma ConstructedApart(es: seq<Entry>, source: nat, w: Monome)
    requires source < |es| && AllApart(es) && forall e <- es :: e.wrapper != w
    ensures AllApart(Constructed(es, source, w))
  {}

  function Assigned(es: seq<Entry>, target: nat, source: nat): seq<Entry>
    requires target < |es| && source < |es|
  {
    if target == source then es
    else es[target := es[source].(wrapper := es[target].wrapper)][source := Emptied(es[source])]
  }

  lemma AssignedOwners(es: seq<Entry>, target: nat, source: nat, o: object)
    requires target < |es| && source < |es| && target != source && AllApart(es)
    ensures Owned(Assigned(es, target, source), o) <==> Owned(es, o) && !es[target].Refers(o)
  {
    var fs := es[source := Emptied(es[source])];
    OwnedUpdate(es, source, Emptied(es[source]), o);
    assert AllApart(fs);
    var e := es[source].(wrapper := es[target].wrapper);
    OwnedUpdate(fs, target, e, o);
    assert Assigned(es, target, source) == fs[target := e];
    assert es[source].Apart(es[target]);
    assert es[source] in es;
  }

  lemma AssignedApart(es: seq<Entry>, target: nat, source: nat)
    requires target < |es| && source < |es| && AllApart(es)
    ensures AllApart(Assigned(es, target, source))
  {}

  /** Only the row of one entry changed. */
  lemma UpdatedRow(es: seq<Entry>, i: nat, row: Row)
    requires i < |es| && AllApart(es)
    ensures AllApart(es[i := es[i].(row := row)])
    ensures forall o: object :: Owned(es[i := es[i].(row := row)], o) <==> Owned(es, o)
  {
    var fs := es[i := es[i].(row := row)];
    forall o: object ensures Owned(fs, o) <==> Owned(es, o) {
      OwnedUpdate(es, i, es[i].(row := row), o);
      if es[i].Refers(o) {
        assert es[i] in es;
      }
    }
  }

  /** The wrappers there are, and every handle opened and every callback state allocated so far. */
  datatype Program = Program(es: seq<Entry>, devices: set<Device>, states: set<CallbackState>)
  {
    function Rows(): (rows: seq<Row>)
      ensures |rows| == |es| && forall i :: 0 <= i < |es| ==> rows[i] == es[i].row
    {
      seq(|es|, i requires 0 <= i < |es| => es[i].row)
    }

    ghost function Wrappers(): set<Monome> {
      set e <- es :: e.wrapper
    }

    ghost function Objects(): set<object> {
      Wrappers() + devices + states
    }

    /** Not closed, nor freed, as long as it has an owner; closed and freed once when it has none. */
    ghost predicate Conserved()
      reads devices, states
    {
      && (forall d <- devices :: d.closes == if Owned(es, d) then 0 else 1)
      && (forall s <- states :: s.frees == if Owned(es, s) then 0 else 1)
      && (forall i :: 0 <= i < |es| ==>
            && (es[i].handle != null ==> es[i].handle in devices)
            && (es[i].state != null ==> es[i].state in states))
    }

    ghost predicate Valid()
      reads Wrappers(), devices, states
    {
      Conserved() && AllApart(es) && forall i :: 0 <= i < |es| ==> es[i].Holds()
    }

    ghost function Refreshed(i: nat): Program
      requires i < |es|
      reads es[i].state
    {
      this.(es := es[i := es[i].(row := Seen(es[i].state))])
    }

    /** Validity, after a call that touched one owner's tables and counter only. */
    twostate lemma StillValid(i: int)
      requires old(Valid()) && 0 <= i < |es| && es[i].wrapper.Owns()
      requires forall d <- devices :: d.closes == old(d.closes) && (d == es[i].handle || unchanged(d))
      requires forall s <- states :: s.frees == old(s.frees) && (s == es[i].state || unchanged(s))
      requires forall w <- Wrappers() :: unchanged(w)
      ensures Refreshed(i).Valid()
    {
      hide Agree, Owned;
      var e := es[i].(row := Seen(es[i].state));
      UpdatedRow(es, i, e.row);
      forall j | 0 <= j < |es| && j != i ensures es[j].Holds() {
        assert old(es[j].Holds()) && es[j].Apart(es[i]) && es[j].wrapper in Wrappers();
        assert old(allocated(es[j].handle)) && old(allocated(es[j].state));
      }
      assert old(es[i].Holds()) && es[i].wrapper in Wrappers();
      assert e.Holds();
    }

    /** Validity, after one owner's handle was closed, its state freed and its entry removed. */
    twostate lemma ValidWithout(i: int)
      requires old(Valid()) && 0 <= i < |es|
      requires es[i].handle != null ==> es[i].handle.closes == es[i].state.frees == 1
      requires forall d <- devices :: d == es[i].handle || unchanged(d)
      requires forall s <- states :: s == es[i].state || unchanged(s)
      requires forall w <- Wrappers() :: w == es[i].wrapper || unchanged(w)
      ensures this.(es := es[..i] + es[i + 1..]).Valid()
    {
      hide Agree, Owned;
      var fs := es[..i] + es[i + 1..];
      assert old(es[i].Holds());
      forall o: object | o in devices || o in states
        ensures Owned(fs, o) <==> Owned(es, o) && !es[i].Refers(o)
      {
        OwnedRemove(es, i, o);
      }
      forall j | 0 <= j < |es| && j != i ensures es[j].Holds() {
        assert old(es[j].Holds()) && es[j].Apart(es[i]) && es[j].wrapper in Wrappers();
        assert old(allocated(es[j].handle)) && old(allocated(es[j].state));
      }
      assert forall j :: 0 <= j < |fs| ==> fs[j] == es[if j < i then j else j + 1];
    }

    /** Validity, after one entry was assigned to another: the target's old handle was closed, its state freed. */
    twostate lemma ValidAssigned(ts: (nat, nat))
      requires old(Valid()) && ts.0 < |es| && ts.1 < |es| && ts.0 != ts.1
      requires es[ts.0].handle != null ==> es[ts.0].handle.closes == es[ts.0].state.frees == 1
      requires es[ts.0].wrapper.handle == es[ts.1].handle && es[ts.0].wrapper.state == es[ts.1].state
      requires es[ts.1].wrapper.handle == null && es[ts.1].wrapper.state == null
      requires forall d <- devices :: d == es[ts.0].handle || unchanged(d)
      requires forall c <- states :: c == es[ts.0].state || unchanged(c)
      requires forall w <- Wrappers() :: w == es[ts.0].wrapper || w == es[ts.1].wrapper || unchanged(w)
      ensures this.(es := Assigned(es, ts.0, ts.1)).Valid()
    {
      var (t, s) := ts;
      hide Agree, Owned;
      var fs := Assigned(es, t, s);
      assert old(es[t].Holds()) && old(es[s].Holds());
      AssignedApart(es, t, s);
      forall o: object | o in devices || o in states
        ensures Owned(fs, o) <==> Owned(es, o) && !es[t].Refers(o)
      {
        AssignedOwners(es, t, s, o);
      }
      forall j | 0 <= j < |es| && j != t && j != s ensures es[j].Holds() {
        assert old(es[j].Holds()) && es[j].Apart(es[t]) && es[j].Apart(es[s]) && es[j].wrapper in Wrappers();
        assert old(allocated(es[j].handle)) && old(allocated(es[j].state));
      }
      assert es[s].Apart(es[t]);
      assert fs[t].Holds() && fs[s].Holds();
    }
  }

  lemma OnlyKnown(p: Program, o: object)
    requires p.Conserved() && Owned(p.es, o)
    ensures o in p.devices || o in p.states
  {}

  lemma OwnsEntry(p: Program, i: nat)
    requires p.Valid() && i < |p.es|
    ensures p.es[i].wrapper.Owns() && p.es[i].Holds()
    ensures p.es[i].handle != null ==>
      && p.es[i].handle in p.devices && p.es[i].state in p.states
      && |p.es[i].handle.handlers| == |p.es[i].state.callbacks| == EVENT_MAX
  {
    hide AllApart;
    var e := p.es[i];
    assert e.Holds();
    if e.handle != null {
      assert e.Refers(e.handle) && e.Refers(e.state);
    }
  }

  /** The constructor of the wrapper throws: the state it allocated is freed, and there is no wrapper. */
  method OpenFails(p: Program) returns (q: Program)
    requires p.Valid()
    ensures q.Valid() && q.Rows() == After(p.Rows(), Op.Open(false))
    ensures q.devices == p.devices && q.states >= p.states && fresh(q.Objects() - p.Objects())
    ensures |q.states| == |p.states| + 1
  {
    hide Agree, Owned, AllApart;
    var s := new CallbackState();
    s.Free();
    q := p.(states := p.states + {s});
    if Owned(p.es, s) { OnlyKnown(p, s); }
  }

  method OpenSucceeds(p: Program) returns (q: Program)
    requires p.Valid()
    ensures q.Valid() && q.Rows() == After(p.Rows(), Op.Open(true))
    ensures q.devices >= p.devices && q.states >= p.states && fresh(q.Objects() - p.Objects())
    ensures |q.devices| == |p.devices| + 1 && |q.states| == |p.states| + 1
  {
    hide Agree, Owned, AllApart;
    var d := new Device();
    var w := new Monome.Open(d);
    var e := Entry(w, d, w.state, Live(NoCallbacks(), 0));
    q := Program(p.es + [e], p.devices + {d}, p.states + {w.state});
    AddedApart(p.es, e);
    if Owned(p.es, d) { OnlyKnown(p, d); }
    if Owned(p.es, e.state) { OnlyKnown(p, e.state); }
    forall o: object | o in q.devices || o in q.states
      ensures Owned(q.es, o) <==> Owned(p.es, o) || e.Refers(o)
    {
      AddedOwners(p.es, e, o);
    }
    assert e.Holds();
  }

  method Construct(p: Program, source: nat) returns (q: Program)
    requires p.Valid() && source < |p.es|
    modifies p.es[source].wrapper
    ensures q.Valid() && q.Rows() == After(p.Rows(), Op.Construct(source))
    ensures q.devices == p.devices && q.states == p.states && fresh(q.Objects() - p.Objects())
  {
    hide Agree, Owned;
    assert p.es[source].Holds();
    var w := new Monome.Move(p.es[source].wrapper);
    q := p.(es := Constructed(p.es, source, w));
    ConstructedApart(p.es, source, w);
    forall o: object | o in p.devices || o in p.states ensures Owned(q.es, o) <==> Owned(p.es, o) {
      ConstructedOwners(p.es, source, w, o);
    }
  }

  method Destroy(p: Program, target: nat, injected: Statuses) returns (q: Program)
    requires p.Valid() && target < |p.es|
    modifies p.Objects()
    ensures q.Valid() && q.Rows() == After(p.Rows(), Op.Destroy(target, injected))
    ensures q.devices == p.devices && q.states == p.states && q.Objects() <= p.Objects()
  {
    OwnsEntry(p, target);
    assert p.es[target].wrapper in p.Wrappers();
    hide Agree, Owned, AllApart, Program.Conserved, Program.Valid, Monome.Owns;
    p.es[target].wrapper.Destroy(injected);
    q := p.(es := p.es[..target] + p.es[target + 1..]);
    p.ValidWithout(target);
  }

  method Assign(p: Program, target: nat, source: nat, injected: Statuses) returns (q: Program)
    requires p.Valid() && target < |p.es| && source < |p.es|
    modifies p.Objects()
    ensures q.Valid() && q.Rows() == After(p.Rows(), Op.Assign(target, source, injected))
    ensures q.devices == p.devices && q.states == p.states && q.Objects() <= p.Objects()
  {
    OwnsEntry(p, source);
    OwnsEntry(p, target);
    assert p.es[target].wrapper in p.Wrappers() && p.es[source].wrapper in p.Wrappers();
    assert target != source ==> p.es[target].Apart(p.es[source]);
    hide Agree, Owned, AllApart, Program.Conserved, Program.Valid, Monome.Owns;
    p.es[target].wrapper.Assign(p.es[source].wrapper, injected);
    q := p.(es := Assigned(p.es, target, source));
    if target != source {
      p.ValidAssigned((target, source));
    }
  }

  method On(p: Program, target: nat, eventType: int, callback: Callback, status: int) returns (q: Program)
    requires p.Valid() && target < |p.es|
    modifies p.Objects()
    ensures q.Valid() && q.Rows() == After(p.Rows(), Op.On(target, eventType, callback, status))
    ensures q.devices == p.devices && q.states == p.states && q.Objects() <= p.Objects()
  {
    OwnsEntry(p, target);
    assert p.es[target].wrapper in p.Wrappers();
    hide Agree, Owned, AllApart, Program.Conserved, Program.Valid;
    var thrown := p.es[target].wrapper.On(eventType, callback, status);
    var e := p.es[target];
    q := p.(es := p.es[target := e.(row := Seen(e.state))]);
    p.StillValid(target);
  }

  /** Through the wrapper, or through the event loop of the C side: the same callback gets the event. */
  method Receive(w: Monome, event: Event, throws: bool, viaLoop: bool) returns (called: Callback)
    requires w.Owns()
    modifies (if w.state == null then {} else {w.state})`failureCount
    ensures w.Owns()
    ensures called == if w.state == null then Empty else w.state.callbacks[TypeOf(event)]
    ensures w.CallbackFailureCount() == old(w.CallbackFailureCount()) + (if called != Empty && throws then 1 else 0)
  {
    if viaLoop {
      var _, c := w.EventLoopTurn(TypeOf(event), throws);
      called := c;
    } else {
      var _, c := w.EventHandleNext(1, TypeOf(event), throws);
      called := c;
    }
  }

  method Deliver(p: Program, target: nat, event: Event, throws: bool, viaLoop: bool)
    returns (q: Program, called: Callback)
    requires p.Valid() && target < |p.es|
    modifies p.Objects()
    ensures q.Valid() && q.Rows() == After(p.Rows(), Op.Deliver(target, event, throws, viaLoop))
    ensures called == CallbackFor(p.Rows()[target], event)
    ensures q.devices == p.devices && q.states == p.states && q.Objects() <= p.Objects()
  {
    OwnsEntry(p, target);
    assert p.es[target].wrapper in p.Wrappers();
    hide Agree, Owned, AllApart, Program.Conserved, Program.Valid;
    called := Receive(p.es[target].wrapper, event, throws, viaLoop);
    var e := p.es[target];
    q := p.(es := p.es[target := e.(row := Seen(e.state))]);
    p.StillValid(target);
  }

  method Step(p: Program, op: Op) returns (q: Program)
    requires p.Valid()
    modifies p.Objects()
    ensures q.Valid() && q.Rows() == After(p.Rows(), op)
    ensures q.devices >= p.devices && q.states >= p.states && fresh(q.Objects() - p.Objects())
    ensures |q.devices| == |p.devices| + (if op == Op.Open(true) then 1 else 0)
    ensures |q.states| == |p.states| + (if op.Open? then 1 else 0)
  {
    hide Program.Valid;
    q := p;
    match op
    case Open(succeeds) =>
      if succeeds { q := OpenSucceeds(p); } else { q := OpenFails(p); }
    case Construct(source) =>
      if source < |p.es| { q := Construct(p, source); }
    case Assign(target, source, injected) =>
      if target < |p.es| && source < |p.es| { q := Assign(p, target, source, injected); }
    case On(target, eventType, callback, status) =>
      if target < |p.es| { q := On(p, target, eventType, callback, status); }
    case Deliver(target, event, throws, viaLoop) =>
      if target < |p.es| {
        var r, _ := Deliver(p, target, event, throws, viaLoop);
        q := r;
      }
    case Destroy(target, injected) =>
      if target < |p.es| { q := Destroy(p, target, injected); }
  }

  /** How many devices a program opens, and how often it tries to. */
  function Opened(ops: seq<Op>): nat {
    if ops == [] then 0 else Opened(ops[..|ops| - 1]) + (if ops[|ops| - 1] == Op.Open(true) then 1 else 0)
  }

  function Tried(ops: seq<Op>): nat {
    if ops == [] then 0 else Tried(ops[..|ops| - 1]) + (if ops[|ops| - 1].Open? then 1 else 0)
  }

  lemma OneMoreOp(ops: seq<Op>, i: nat)
    requires i < |ops|
    ensures Opened(ops[..i + 1]) == Opened(ops[..i]) + (if ops[i] == Op.Open(true) then 1 else 0)
    ensures Tried(ops[..i + 1]) == Tried(ops[..i]) + (if ops[i].Open? then 1 else 0)
    ensures forall rows :: AfterAll(rows, ops[..i + 1]) == After(AfterAll(rows, ops[..i]), ops[i])
  {
    assert ops[..i + 1][..i] == ops[..i];
  }

  lemma NoOps()
    ensures var p := Program([], {}, {});
      p.Valid() && p.Rows() == AfterAll([], []) && p.Objects() == {} && Opened([]) == Tried([]) == 0
  {
  }

  /**
   * Any program: at every point everything has one owner, or was released once; there are as many
   * handles as opens that succeeded, and as many states as opens.
   */
  method Run(ops: seq<Op>) returns (p: Program)
    ensures p.Valid() && p.Rows() == AfterAll([], ops) && fresh(p.Objects())
    ensures |p.devices| == Opened(ops) && |p.states| == Tried(ops)
  {
    hide Program.Valid, Program.Objects, Opened, Tried, AfterAll, After;
    p := Program([], {}, {});
    NoOps();
    assert ops[..0] == [];
    for i := 0 to |ops|
      invariant p.Valid() && p.Rows() == AfterAll([], ops[..i]) && fresh(p.Objects())
      invariant |p.devices| == Opened(ops[..i]) && |p.states| == Tried(ops[..i])
    {
      OneMoreOp(ops, i);
      ghost var before := p.Objects();
      label Before:
      p := Step(p, ops[i]);
      forall o | o in p.Objects() ensures fresh(o) {
        assert o in before || !old@Before(allocated(o)) by {
          assert o in before || o in p.Objects() - before;
        }
      }
    }
    assert ops[..|ops|] == ops;
  }

  /** The end of a program: whatever it did, every handle was closed once and every state freed once. */
  method RunToEnd(ops: seq<Op>, injected: Statuses) returns (p: Program)
    ensures p.es == [] && |p.devices| == Opened(ops) && |p.states| == Tried(ops)
    ensures (forall d <- p.devices :: d.closes == 1) && (forall s <- p.states :: s.frees == 1)
  {
    hide Program.Valid, Program.Objects, Opened, Tried, AfterAll;
    p := Run(ops);
    while p.es != []
      invariant p.Valid() && fresh(p.Objects())
      invariant |p.devices| == Opened(ops) && |p.states| == Tried(ops)
      decreases |p.es|
    {
      p := Destroy(p, |p.es| - 1, injected);
    }
    AllReleased(p);
  }

  lemma AllReleased(p: Program)
    requires p.Valid() && p.es == []
    ensures (forall d <- p.devices :: d.closes == 1) && (forall s <- p.states :: s.frees == 1)
  {
  }

  /** Moving changes who holds what, and nothing about what is held: the failure counts go along. */
  lemma MovesConserve(rows: seq<Row>, target: nat, source: nat, injected: Statuses)
    requires target < |rows| && source < |rows|
    ensures multiset(After(rows, Op.Construct(source))) == multiset(rows) + multiset{MovedFrom}
    ensures target != source ==>
      multiset(After(rows, Op.Assign(target, source, injected))) ==
      multiset(rows) - multiset{rows[target]} + multiset{MovedFrom}
    ensures target == source ==> After(rows, Op.Assign(target, source, injected)) == rows
  {}

  /** A move and its way back leave every row as it was, and so do their callbacks and counts. */
  lemma MoveThereAndBack(rows: seq<Row>, source: nat, injected: Statuses)
    requires source < |rows|
    ensures After(After(After(rows, Op.Construct(source)), Op.Assign(source, |rows|, injected)), Op.Destroy(|rows|, injected))
            == rows
  {
    var one := After(rows, Op.Construct(source));
    assert one == rows[source := MovedFrom] + [rows[source]];
    assert After(one, Op.Assign(source, |rows|, injected)) == rows + [MovedFrom];
  }

  /** The number under which the header of the library lists the kind of an event. */
  predicate HasNumber(event: Event, n: int) {
    || (n == 0 && event.ButtonUp?)
    || (n == 1 && event.ButtonDown?)
    || (n == 2 && event.EncoderDelta?)
    || (n == 3 && event.EncoderKeyUp?)
    || (n == 4 && event.EncoderKeyDown?)
    || (n == 5 && event.Tilt?)
  }

  /**
   * A callback registered under a number gets the events of that kind from then on, and no others; a
   * number that is none of the six registers nothing.
   */
  lemma RegisteredGets(rows: seq<Row>, target: nat, n: int, callback: Callback, event: Event)
    requires target < |rows| && rows[target].Live? && |rows[target].callbacks| == 6
    ensures CallbackFor(After(rows, Op.On(target, n, callback, 0))[target], event) ==
      if HasNumber(event, n) then callback else CallbackFor(rows[target], event)
    ensures !(0 <= n < 6) ==> After(rows, Op.On(target, n, callback, 0)) == rows
  {
  }
}
