/**
 * Conway's game of life with neighbour counts kept up to date in place, presses from the grid
 * toggling cells, and the LEDs following the cells.
 */
module Life {
  import opened Bits

  const COLUMNS := 16
  const ROWS := 16

  datatype Pos = Pos(x: nat, y: nat)

  predicate InWorld(p: Pos) { p.x < COLUMNS && p.y < ROWS }

  // ---- the rules, on sets of cells ----------------------------------------

  /** At most one apart on a circle of sixteen. */
  predicate Near(a: nat, b: nat) { (a - b) % 16 == 0 || (a - b) % 16 == 1 || (a - b) % 16 == 15 }

  predicate Adjacent(p: Pos, q: Pos) { p != q && Near(p.x, q.x) && Near(p.y, q.y) }

  /** The live cells around p. */
  function Around(live: set<Pos>, p: Pos): set<Pos> { set q | q in live && Adjacent(p, q) }

  /** Every cell of the world. */
  function Everywhere(): (w: set<Pos>)
    ensures forall p :: p in w <==> InWorld(p)
  {
    set x: nat, y: nat | x < COLUMNS && y < ROWS :: Pos(x, y)
  }

  /** Conway's rule: three neighbours bring a cell to life, two or three keep it alive. */
  function Conway(live: set<Pos>): (next: set<Pos>)
    ensures forall p :: p in next <==> InWorld(p) && (|Around(live, p)| == 3 || (|Around(live, p)| == 2 && p in live))
  {
    set p | p in Everywhere() && (|Around(live, p)| == 3 || (|Around(live, p)| == 2 && p in live))
  }

  /** One generation: pressed cells are inverted, all others follow the rule. */
  function Generation(live: set<Pos>, pressed: set<Pos>): (next: set<Pos>)
    ensures forall p :: p in next <==> InWorld(p) && (if p in pressed then p !in live else p in Conway(live))
  {
    set p | p in Everywhere() && (if p in pressed then p !in live else p in Conway(live))
  }

  // ---- the wiring ---------------------------------------------------------

  /** `(n - 1) % 16` and `(n + 1) % 16` on unsigned numbers. */
  function Before(n: uint): nat { Wrap(n - 1) % 16 }
  function Behind(n: uint): nat { Wrap(n + 1) % 16 }

  /** The eight cells that `init_world` wires a cell to, in its order. */
  function Wired(x: uint, y: uint): (ps: seq<Pos>)
    ensures |ps| == 8
  {
    [Pos(Before(x), Before(y)), Pos(Before(x), Behind(y)), Pos(Before(x), y),
     Pos(Behind(x), Before(y)), Pos(Behind(x), Behind(y)), Pos(Behind(x), y),
     Pos(x, Before(y)), Pos(x, Behind(y))]
  }

  lemma Steps(n: nat)
    requires n < 16
    ensures Before(n) == (if n == 0 then 15 else n - 1) && Behind(n) == (if n == 15 then 0 else n + 1)
  {
    if n == 0 {
      assert Wrap(-1) == UINT_RANGE - 1;
    }
  }

  lemma NearSteps(a: nat, b: nat)
    requires a < 16 && b < 16
    ensures Near(a, b) <==> b == a || b == Before(a) || b == Behind(a)
    ensures a != Before(a) && a != Behind(a) && Before(a) != Behind(a) && Before(a) < 16 && Behind(a) < 16
  {
    Steps(a);
    assert -15 <= a - b <= 15;
  }

  lemma NearSymmetric(a: nat, b: nat)
    requires a < 16 && b < 16
    ensures Near(a, b) <==> Near(b, a)
  {
    hide Near, Before, Behind;
    NearSteps(a, b);
    NearSteps(b, a);
    Steps(a);
    Steps(b);
  }

  lemma AdjacentSymmetric(p: Pos, q: Pos)
    requires InWorld(p) && InWorld(q)
    ensures Adjacent(p, q) <==> Adjacent(q, p)
  {
    hide Near;
    NearSymmetric(p.x, q.x);
    NearSymmetric(p.y, q.y);
  }

  /** The wiring reaches exactly the adjacent cells, each of them once. */
  lemma WiredAdjacent(p: Pos, q: Pos)
    requires InWorld(p) && InWorld(q)
    ensures q in Wired(p.x, p.y) <==> Adjacent(p, q)
  {
    hide Before, Behind, Near;
    NearSteps(p.x, q.x);
    NearSteps(p.y, q.y);
  }

  lemma WiredDistinct(p: Pos)
    requires InWorld(p)
    ensures forall i, j :: 0 <= i < j < 8 ==> Wired(p.x, p.y)[i] != Wired(p.x, p.y)[j]
    ensures forall i :: 0 <= i < 8 ==> InWorld(Wired(p.x, p.y)[i])
  {
    hide Before, Behind, Near;
    NearSteps(p.x, p.x);
    NearSteps(p.y, p.y);
  }

  // ---- counting -----------------------------------------------------------

  /** A cell has eight neighbours, so at most eight live ones. */
  lemma AtMostEight(live: set<Pos>, p: Pos)
    requires InWorld(p) && forall q :: q in live ==> InWorld(q)
    ensures |Around(live, p)| <= 8
  {
    hide Wired, Adjacent;
    var w := Wired(p.x, p.y);
    var all := set q | q in w;
    AllOf(w);
    forall q | q in Around(live, p)
      ensures q in all
    {
      AdjacentSymmetric(p, q);
      WiredAdjacent(p, q);
    }
    SubsetSize(Around(live, p), all);
  }

  lemma {:induction false} AllOf(ps: seq<Pos>)
    ensures |set q | q in ps| <= |ps|
  {
    var all := set q | q in ps;
    if ps == [] {
      assert all == {};
    } else {
      var rest := set q | q in ps[1..];
      AllOf(ps[1..]);
      assert all == rest + {ps[0]};
    }
  }

  lemma {:induction false} SubsetSize<T>(a: set<T>, b: set<T>)
    requires a <= b
    ensures |a| <= |b|
  {
    if a != {} {
      var x :| x in a;
      SubsetSize(a - {x}, b - {x});
    }
  }

  /** Toggling c changes the count of each cell next to c by one, and no other count. */
  lemma AroundToggled(live: set<Pos>, c: Pos, p: Pos)
    requires InWorld(c) && InWorld(p)
    ensures c !in live ==> |Around(live + {c}, p)| == |Around(live, p)| + (if Adjacent(c, p) then 1 else 0)
    ensures c in live ==> |Around(live - {c}, p)| == |Around(live, p)| - (if Adjacent(c, p) then 1 else 0)
  {
    hide Adjacent;
    AdjacentSymmetric(c, p);
    if c !in live {
      assert Around(live + {c}, p) == if Adjacent(p, c) then Around(live, p) + {c} else Around(live, p);
    } else {
      assert Around(live - {c}, p) == if Adjacent(p, c) then Around(live, p) - {c} else Around(live, p);
    }
  }

  // ---- the program --------------------------------------------------------

  class World {
    const alive: array2<bool>
    const modNext: array2<bool>
    const nnum: array2<uint>
    const neighbors: array2<seq<Pos>>
    /** What the LEDs show. */
    var leds: set<Pos>

    constructor ()
      ensures Shaped() && fresh(alive) && fresh(modNext) && fresh(nnum) && fresh(neighbors)
      ensures leds == {}
    {
      alive := new bool[COLUMNS, ROWS];
      modNext := new bool[COLUMNS, ROWS];
      nnum := new uint[COLUMNS, ROWS];
      neighbors := new seq<Pos>[COLUMNS, ROWS];
      leds := {};
    }

    predicate Shaped() {
      && alive.Length0 == modNext.Length0 == nnum.Length0 == neighbors.Length0 == COLUMNS
      && alive.Length1 == modNext.Length1 == nnum.Length1 == neighbors.Length1 == ROWS
      && alive != modNext
    }

    predicate WiredUp()
      requires Shaped()
      reads neighbors
    {
      forall x: nat, y: nat :: x < COLUMNS && y < ROWS ==> neighbors[x, y] == Wired(x, y)
    }

    function Live(): (live: set<Pos>)
      requires Shaped()
      reads alive
      ensures forall p :: p in live <==> InWorld(p) && alive[p.x, p.y]
    {
      set p | p in Everywhere() && alive[p.x, p.y]
    }

    function Marked(): (marked: set<Pos>)
      requires Shaped()
      reads modNext
      ensures forall p :: p in marked <==> InWorld(p) && modNext[p.x, p.y]
    {
      set p | p in Everywhere() && modNext[p.x, p.y]
    }

    /** Every cached count is the number of live neighbours. */
    ghost predicate Counted()
      requires Shaped()
      reads alive, nnum
    {
      forall p :: InWorld(p) ==> nnum[p.x, p.y] == |Around(Live(), p)|
    }

    /** `init_world`. */
    method InitWorld()
      requires Shaped()
      modifies alive, modNext, nnum, neighbors
      ensures WiredUp() && Live() == {} && Marked() == {} && Counted()
    {
      hide Wired;
      for x := 0 to COLUMNS
        invariant forall i: nat, j: nat :: i < x && j < ROWS ==>
          !alive[i, j] && !modNext[i, j] && nnum[i, j] == 0 && neighbors[i, j] == Wired(i, j)
      {
        for y := 0 to ROWS
          invariant forall i: nat, j: nat :: (i < x && j < ROWS) || (i == x && j < y) ==>
            !alive[i, j] && !modNext[i, j] && nnum[i, j] == 0 && neighbors[i, j] == Wired(i, j)
        {
          modNext[x, y] := false;
          alive[x, y] := false;
          nnum[x, y] := 0;
          neighbors[x, y] := Wired(x, y);
        }
      }
      assert Live() == {};
    }

    /** `mod_neighbors`: adds delta to the count of each neighbour, in wrapping arithmetic. */
    method ModNeighbors(c: Pos, delta: int)
      requires Shaped() && WiredUp() && InWorld(c)
      modifies nnum
      ensures forall p :: InWorld(p) ==>
        nnum[p.x, p.y] == if Adjacent(c, p) then Wrap(old(nnum[p.x, p.y]) + delta) else old(nnum[p.x, p.y])
    {
      hide Wired, Adjacent, Wrap;
      var ns := neighbors[c.x, c.y];
      WiredDistinct(c);
      for i := 0 to 8
        invariant forall p :: InWorld(p) ==>
          nnum[p.x, p.y] == if p in ns[..i] then Wrap(old(nnum[p.x, p.y]) + delta) else old(nnum[p.x, p.y])
      {
        var n := ns[i];
        assert n !in ns[..i];
        assert ns[..i + 1] == ns[..i] + [n];
        nnum[n.x, n.y] := Wrap(nnum[n.x, n.y] + delta);
      }
      forall p | InWorld(p)
        ensures p in ns[..8] <==> Adjacent(c, p)
      {
        WiredAdjacent(c, p);
        assert ns[..8] == ns;
      }
    }

    /** The step of the apply loop for a marked cell: inverts it, and with it its LED and its mark. */
    method Toggle(c: Pos)
      requires Shaped() && WiredUp() && InWorld(c) && Counted()
      modifies alive, modNext, nnum, this`leds
      ensures WiredUp() && Counted()
      ensures Live() == if c in old(Live()) then old(Live()) - {c} else old(Live()) + {c}
      ensures Marked() == old(Marked()) - {c}
      ensures leds == if c in old(Live()) then old(leds) - {c} else old(leds) + {c}
    {
      hide Wired, Adjacent, Wrap, Around;
      ghost var live := Live();
      if alive[c.x, c.y] {
        alive[c.x, c.y] := false;
        assert Live() == live - {c};
        ModNeighbors(c, -1);
        leds := leds - {c};
      } else {
        alive[c.x, c.y] := true;
        assert Live() == live + {c};
        ModNeighbors(c, 1);
        leds := leds + {c};
      }
      forall p | InWorld(p)
        ensures nnum[p.x, p.y] == |Around(Live(), p)|
      {
        AroundToggled(live, c, p);
        AtMostEight(live, p);
        WrapCount(|Around(live, p)|);
        assert old(nnum[p.x, p.y]) == |Around(live, p)|;
        assert Live() == if c in live then live - {c} else live + {c};
      }
      modNext[c.x, c.y] := false;
      assert Marked() == old(Marked()) - {c};
    }

    /** `handle_press`. */
    method HandlePress(p: Pos)
      requires Shaped() && InWorld(p)
      modifies modNext
      ensures Marked() == old(Marked()) + {p}
    {
      modNext[p.x, p.y] := true;
      assert Marked() == old(Marked()) + {p};
    }

    /** The first grid loop of `main`: inverts every marked cell, in place, one after the other. */
    method Apply()
      requires Shaped() && WiredUp() && Counted() && leds == Live()
      modifies alive, modNext, nnum, this`leds
      ensures WiredUp() && Counted()
      ensures Live() == Inverted(old(Live()), old(Marked()))
      ensures Marked() == {}
      ensures leds == Live()
    {
      hide Around, Wired, Inverted, Reached, Adjacent;
      ghost var live, marked := Live(), Marked();
      ReachedNone(marked);
      InvertedNone(live);
      for x := 0 to COLUMNS
        invariant WiredUp() && Counted() && leds == Live()
        invariant Live() == Inverted(live, Reached(marked, x, 0))
        invariant Marked() == marked - Reached(marked, x, 0)
      {
        for y := 0 to ROWS
          invariant WiredUp() && Counted() && leds == Live()
          invariant Live() == Inverted(live, Reached(marked, x, y))
          invariant Marked() == marked - Reached(marked, x, y)
        {
          var c := Pos(x, y);
          ReachedNext(marked, x, y);
          if modNext[x, y] {
            assert c in Marked();
            Toggle(c);
            InvertedNext(live, Reached(marked, x, y), c);
            assert Live() == Inverted(live, Reached(marked, x, y + 1));
          } else {
            assert c !in Marked();
            assert Reached(marked, x, y + 1) == Reached(marked, x, y);
          }
        }
        ReachedLine(marked, x);
      }
      ReachedAll(marked);
    }

    /** The second grid loop of `main`: marks the cells that the rule will change. */
    method Mark()
      requires Shaped() && Counted() && Marked() == {}
      modifies modNext
      ensures Marked() == Due(Live())
    {
      hide Around, Reached;
      ghost var live := Live();
      var due := Due(live);
      ReachedNone(due);
      for x := 0 to COLUMNS
        invariant Live() == live && Counted()
        invariant Marked() == Reached(due, x, 0)
      {
        for y := 0 to ROWS
          invariant Live() == live && Counted()
          invariant Marked() == Reached(due, x, y)
        {
          ghost var c := Pos(x, y);
          ReachedNext(due, x, y);
          assert nnum[x, y] == |Around(live, c)| && (alive[x, y] <==> c in live);
          if nnum[x, y] == 3 {
            if !alive[x, y] {
              modNext[x, y] := true;
            }
          } else if nnum[x, y] == 2 {
          } else {
            if alive[x, y] {
              modNext[x, y] := true;
            }
          }
          assert Marked() == if c in due then Reached(due, x, y) + {c} else Reached(due, x, y);
        }
        ReachedLine(due, x);
      }
      ReachedAll(due);
    }
  }

  /** The cells of one set, inverted where the other says. */
  function Inverted(live: set<Pos>, s: set<Pos>): set<Pos> { (live - s) + (s - live) }

  /** The cells that the rule changes. */
  function Due(live: set<Pos>): (due: set<Pos>)
    ensures forall p :: p in due <==> InWorld(p) && ((p in live) != (p in Conway(live)))
  {
    set p | p in Everywhere() && ((p in live) != (p in Conway(live)))
  }

  /** The members of s that a pass over the grid comes to before (x, y). */
  function Reached(s: set<Pos>, x: nat, y: nat): set<Pos> {
    set p | p in s && (p.x < x || (p.x == x && p.y < y))
  }

  lemma ReachedNone(s: set<Pos>)
    ensures Reached(s, 0, 0) == {}
  {
  }

  lemma ReachedAll(s: set<Pos>)
    requires forall p :: p in s ==> InWorld(p)
    ensures Reached(s, COLUMNS, 0) == s
  {
  }

  lemma InvertedNone(live: set<Pos>)
    ensures Inverted(live, {}) == live
  {
  }

  lemma ReachedNext(s: set<Pos>, x: nat, y: nat)
    ensures Reached(s, x, y + 1) == Reached(s, x, y) + (if Pos(x, y) in s then {Pos(x, y)} else {})
    ensures Pos(x, y) !in Reached(s, x, y)
  {
  }

  lemma ReachedLine(s: set<Pos>, x: nat)
    requires forall p :: p in s ==> InWorld(p)
    ensures Reached(s, x + 1, 0) == Reached(s, x, ROWS)
  {
  }

  lemma InvertedNext(live: set<Pos>, s: set<Pos>, c: Pos)
    requires c !in s
    ensures var l := Inverted(live, s);
      Inverted(live, s + {c}) == if c in l then l - {c} else l + {c}
  {
  }

  lemma WrapCount(n: nat)
    requires n <= 8
    ensures Wrap(n + 1) == n + 1 && (n > 0 ==> Wrap(n - 1) == n - 1)
  {
  }

  // ---- the main loop ------------------------------------------------------

  /** What the library has to report: a press, an event that the program registered no handler for, or an error. */
  datatype Input = Press(p: Pos) | Other | Failure

  predicate InReach(q: seq<Input>) {
    forall i :: 0 <= i < |q| && q[i].Press? ==> InWorld(q[i].p)
  }

  /**
   * The cells pressed by one run of `while( monome_event_handle_next(monome) );`, and the events it
   * leaves for the next: an event without a handler ends the run, an error does not.
   */
  function Handled(q: seq<Input>): (set<Pos>, seq<Input>) {
    if q == [] then ({}, [])
    else if q[0] == Other then ({}, q[1..])
    else if q[0] == Failure then Handled(q[1..])
    else
      var (ps, rest) := Handled(q[1..]);
      ({q[0].p} + ps, rest)
  }

  /** Where the first event without a handler is, or the end if there is none. */
  function StopIndex(q: seq<Input>): (k: nat)
    ensures k <= |q| && (forall i :: 0 <= i < k ==> q[i] != Other) && (k < |q| ==> q[k] == Other)
  {
    if q == [] || q[0] == Other then 0 else 1 + StopIndex(q[1..])
  }

  predicate PressedBy(q: seq<Input>, k: nat, p: Pos)
    requires k <= |q|
  {
    exists i :: 0 <= i < k && q[i] == Press(p)
  }

  /** The run handles the presses up to that event, and leaves what follows it. */
  lemma {:induction false} HandledIs(q: seq<Input>)
    ensures var k := StopIndex(q);
      && (forall p :: p in Handled(q).0 <==> PressedBy(q, k, p))
      && Handled(q).1 == if k < |q| then q[k + 1..] else []
  {
    if q != [] && q[0] != Other {
      HandledIs(q[1..]);
      var k := StopIndex(q);
      forall p
        ensures p in Handled(q).0 <==> PressedBy(q, k, p)
      {
        if i :| 0 <= i < k - 1 && q[1..][i] == Press(p) {
          assert q[i + 1] == Press(p);
        }
        if i :| 0 <= i < k && q[i] == Press(p) {
          assert i > 0 ==> q[1..][i - 1] == Press(p);
        }
      }
    }
  }

  /**
   * What a turn does, in the rule's own terms. In every third turn the cells pressed up to the first
   * event without a handler are inverted, and only what follows that event still waits. In other
   * turns every cell follows the rule and nothing leaves the queue.
   */
  ghost predicate TurnIs(before: Sim, arriving: seq<Input>, after: Sim, third: bool) {
    var queue := before.waiting + arriving;
    var k := StopIndex(queue);
    if third then
      && (forall p :: p in after.live <==>
            InWorld(p) && if PressedBy(queue, k, p) then p !in before.live else p in Conway(before.live))
      && after.waiting == if k < |queue| then queue[k + 1..] else []
    else after.live == Conway(before.live) && after.waiting == queue
  }

  /** A run of the program: from nothing, turn by turn. */
  ghost predicate History(history: seq<Sim>, arrivals: seq<seq<Input>>) {
    && |history| == |arrivals| + 1 && history[0] == Sim({}, 0, [])
    && (forall i :: 0 <= i < |history| ==> history[i].tick == i % 3)
    && (forall i :: 0 <= i < |arrivals| ==> TurnIs(history[i], arrivals[i], history[i + 1], i % 3 == 2))
  }

  lemma HistoryStarts()
    ensures History([Sim({}, 0, [])], [])
  {
  }

  lemma HistoryGoesOn(history: seq<Sim>, arrivals: seq<seq<Input>>, i: nat, next: Sim)
    requires i < |arrivals| && History(history, arrivals[..i])
    requires TurnIs(history[i], arrivals[i], next, i % 3 == 2) && next.tick == (i + 1) % 3
    ensures History(history + [next], arrivals[..i + 1])
  {
    hide TurnIs;
    var h, a := history + [next], arrivals[..i + 1];
    forall j | 0 <= j < |a|
      ensures TurnIs(h[j], a[j], h[j + 1], j % 3 == 2)
    {
      if j < i {
        assert TurnIs(history[j], arrivals[..i][j], history[j + 1], j % 3 == 2);
      }
    }
  }

  /** A turn of the model is one. */
  lemma TurnIsTurn(s: Sim, arriving: seq<Input>)
    ensures TurnIs(s, arriving, Turn(s, arriving), (s.tick + 1) % 3 == 0)
    ensures Turn(s, arriving).tick == (s.tick + 1) % 3
  {
    hide Conway, Handled, PressedBy;
    HandledIs(s.waiting + arriving);
    assert forall p :: p in Conway(s.live) ==> InWorld(p);
  }

  /** Three turns from a tick of 0: two by the rule, and one with the presses among all that waited or arrived. */
  lemma ThreeTurns(history: seq<Sim>, arrivals: seq<seq<Input>>, i: nat)
    requires History(history, arrivals) && i % 3 == 0 && i + 3 <= |arrivals|
    ensures var queue := history[i].waiting + arrivals[i] + arrivals[i + 1] + arrivals[i + 2];
      var k, live := StopIndex(queue), Conway(Conway(history[i].live));
      && history[i + 3].tick == 0
      && (forall p :: p in history[i + 3].live <==>
            InWorld(p) && if PressedBy(queue, k, p) then p !in live else p in Conway(live))
      && history[i + 3].waiting == if k < |queue| then queue[k + 1..] else []
  {
    hide Conway, PressedBy, TurnIs;
    assert TurnIs(history[i], arrivals[i], history[i + 1], i % 3 == 2);
    assert TurnIs(history[i + 1], arrivals[i + 1], history[i + 2], (i + 1) % 3 == 2);
    assert TurnIs(history[i + 2], arrivals[i + 2], history[i + 3], (i + 2) % 3 == 2);
    TwoQuietTurns(history[i], arrivals[i], history[i + 1], arrivals[i + 1], history[i + 2]);
    LastTurn(history[i + 2], arrivals[i + 2], history[i + 3]);
  }

  lemma TwoQuietTurns(s: Sim, a: seq<Input>, t: Sim, b: seq<Input>, u: Sim)
    requires TurnIs(s, a, t, false) && TurnIs(t, b, u, false)
    ensures u.live == Conway(Conway(s.live)) && u.waiting == s.waiting + a + b
  {
    hide Conway, PressedBy;
  }

  lemma LastTurn(s: Sim, a: seq<Input>, t: Sim)
    requires TurnIs(s, a, t, true)
    ensures var k := StopIndex(s.waiting + a);
      && (forall p :: p in t.live <==> InWorld(p) && if PressedBy(s.waiting + a, k, p) then p !in s.live else p in Conway(s.live))
      && t.waiting == if k < |s.waiting + a| then (s.waiting + a)[k + 1..] else []
  {
    hide Conway, PressedBy;
  }

  /** The program between generations: the live cells, the tick counter and the waiting events. */
  datatype Sim = Sim(live: set<Pos>, tick: nat, waiting: seq<Input>)

  /** One turn of the main loop, before which the given events arrive. */
  function Turn(s: Sim, arriving: seq<Input>): Sim {
    var tick, queue := (s.tick + 1) % 3, s.waiting + arriving;
    var (pressed, rest) := if tick == 0 then Handled(queue) else ({}, queue);
    Sim(Generation(s.live, pressed), tick, rest)
  }

  /** Turn after turn. */
  function Turns(s: Sim, arrivals: seq<seq<Input>>): Sim {
    if arrivals == [] then s
    else Turn(Turns(s, arrivals[..|arrivals| - 1]), arrivals[|arrivals| - 1])
  }

  lemma {:induction false} HandledInReach(q: seq<Input>)
    requires InReach(q)
    ensures InReach(Handled(q).1) && forall p :: p in Handled(q).0 ==> InWorld(p)
  {
    if q != [] && q[0] != Other {
      HandledInReach(q[1..]);
    }
  }

  /** A pressed cell is marked once, whether or not the rule was going to change it. */
  lemma MarkedGeneration(live: set<Pos>, pressed: set<Pos>)
    requires forall p :: p in live || p in pressed ==> InWorld(p)
    ensures Inverted(live, Due(live) + pressed) == Generation(live, pressed)
  {
  }

  lemma NothingDue()
    ensures Due({}) == {}
  {
    forall p | InWorld(p)
      ensures p !in Conway({})
    {
      assert Around({}, p) == {};
    }
  }

  /** `while( monome_event_handle_next(monome) );` with the press handler registered. */
  method HandleEvents(w: World, queue: seq<Input>) returns (rest: seq<Input>)
    requires w.Shaped() && InReach(queue)
    modifies w.modNext
    ensures w.Marked() == old(w.Marked()) + Handled(queue).0
    ensures rest == Handled(queue).1
  {
    rest := queue;
    ghost var pressed: set<Pos> := {};
    assert {} + Handled(queue).0 == Handled(queue).0;
    while rest != []
      invariant InReach(rest)
      invariant w.Marked() == old(w.Marked()) + pressed
      invariant Handled(queue) == (pressed + Handled(rest).0, Handled(rest).1)
    {
      var e := rest[0];
      if e == Other {
        rest := rest[1..];
        assert pressed + {} == pressed;
        return;
      }
      if e.Press? {
        w.HandlePress(e.p);
        HandledPress(pressed, rest);
        pressed := pressed + {e.p};
      }
      rest := rest[1..];
    }
  }

  lemma HandledPress(pressed: set<Pos>, q: seq<Input>)
    requires q != [] && q[0].Press?
    ensures pressed + Handled(q).0 == (pressed + {q[0].p}) + Handled(q[1..]).0
    ensures Handled(q).1 == Handled(q[1..]).1
  {
  }

  /** The body of the loop of `main`, before which the given events arrive. */
  method PlayTurn(w: World, tick: nat, waiting: seq<Input>, arriving: seq<Input>) returns (tick': nat, waiting': seq<Input>)
    requires w.Shaped() && w.WiredUp() && w.Counted() && w.leds == w.Live() && w.Marked() == Due(w.Live())
    requires InReach(waiting) && InReach(arriving)
    modifies w.alive, w.modNext, w.nnum, w`leds
    ensures w.WiredUp() && w.Counted() && w.leds == w.Live() && w.Marked() == Due(w.Live())
    ensures InReach(waiting') && Sim(w.Live(), tick', waiting') == Turn(Sim(old(w.Live()), tick, waiting), arriving)
  {
    hide Around, Wired, Handled, Due, Generation;
    ghost var live := w.Live();
    ghost var pressed: set<Pos> := {};
    waiting' := waiting + arriving;
    HandledInReach(waiting');
    tick' := (tick + 1) % 3;
    if tick' == 0 {
      pressed := Handled(waiting').0;
      waiting' := HandleEvents(w, waiting');
    }
    assert w.Marked() == Due(live) + pressed;
    w.Apply();
    MarkedGeneration(live, pressed);
    w.Mark();
  }

  lemma TurnsNext(s: Sim, arrivals: seq<seq<Input>>, i: nat)
    requires i < |arrivals|
    ensures Turns(s, arrivals[..i + 1]) == Turn(Turns(s, arrivals[..i]), arrivals[i])
  {
    hide Turn;
    assert arrivals[..i + 1][..i] == arrivals[..i];
  }

  /**
   * `main` for any number of turns. Whatever arrives and when, each turn's cells are the generation
   * that follows from the last by the rule and the presses handled; the cached counts are right
   * after every turn, and the LEDs show the cells.
   */
  method Play(arrivals: seq<seq<Input>>) returns (w: World, tick: nat, waiting: seq<Input>, ghost history: seq<Sim>)
    requires forall i :: 0 <= i < |arrivals| ==> InReach(arrivals[i])
    ensures w.Shaped() && w.WiredUp() && w.Counted()
    ensures History(history, arrivals) && history[|arrivals|] == Sim(w.Live(), tick, waiting)
    ensures Sim(w.Live(), tick, waiting) == Turns(Sim({}, 0, []), arrivals)
    ensures w.leds == w.Live()
    ensures w.Marked() == Due(w.Live())
  {
    hide Around, Wired, Due, Turn, Turns, TurnIs, History;
    w := new World();
    w.InitWorld();
    NothingDue();
    tick, waiting := 0, [];
    history := [Sim({}, 0, [])];
    HistoryStarts();
    assert arrivals[..0] == [];
    NoTurns(Sim({}, 0, []));
    for i := 0 to |arrivals|
      invariant fresh(w) && fresh(w.alive) && fresh(w.modNext) && fresh(w.nnum)
      invariant w.Shaped() && w.WiredUp() && w.Counted() && InReach(waiting)
      invariant Sim(w.Live(), tick, waiting) == Turns(Sim({}, 0, []), arrivals[..i])
      invariant |history| == i + 1 && tick == i % 3
      invariant History(history, arrivals[..i]) && history[i] == Sim(w.Live(), tick, waiting)
      invariant w.leds == w.Live()
      invariant w.Marked() == Due(w.Live())
    {
      TurnsNext(Sim({}, 0, []), arrivals, i);
      TurnIsTurn(history[i], arrivals[i]);
      tick, waiting := PlayTurn(w, tick, waiting, arrivals[i]);
      HistoryGoesOn(history, arrivals, i, Sim(w.Live(), tick, waiting));
      history := history + [Sim(w.Live(), tick, waiting)];
    }
    assert arrivals[..|arrivals|] == arrivals;
  }

  lemma NoTurns(s: Sim)
    ensures Turns(s, []) == s
  {
  }
}
