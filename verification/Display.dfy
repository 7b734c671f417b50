/**
 * The device's side of drawing: a frame of LEDs and the commands that paint it, whatever
 * protocol they arrived by. V is bool for on/off commands and a level for variable-brightness ones.
 */
module Display {
  datatype Point = Point(x: nat, y: nat)

  /** The LEDs a device has, and what each of them shows. */
  type Frame<V> = map<Point, V>

  /** One painting command, in the device's coordinates. */
  datatype Paint<V> =
    | Dot(x: nat, y: nat, v: V)
    | HLine(x: nat, y: nat, vs: seq<V>)
    | VLine(x: nat, y: nat, vs: seq<V>)
    | Tile(x: nat, y: nat, vs: seq<V>)
    | Fill(v: V)

  /** What LED p shows after c, having shown v. A tile that does not have 64 values paints nothing. */
  function After<V>(c: Paint<V>, p: Point, v: V): V {
    match c
    case Dot(x, y, w) => if p == Point(x, y) then w else v
    case HLine(x, y, vs) => if p.y == y && x <= p.x < x + |vs| then vs[p.x - x] else v
    case VLine(x, y, vs) => if p.x == x && y <= p.y < y + |vs| then vs[p.y - y] else v
    case Tile(x, y, vs) => if |vs| == 64 && x <= p.x < x + 8 && y <= p.y < y + 8 then vs[8 * (p.y - y) + (p.x - x)] else v
    case Fill(w) => w
  }

  function AfterAll<V>(cs: seq<Paint<V>>, p: Point, v: V): V {
    if cs == [] then v else AfterAll(cs[1..], p, After(cs[0], p, v))
  }

  /** The frame after a sequence of commands; LEDs the device does not have stay absent. */
  function Show<V>(frame: Frame<V>, cs: seq<Paint<V>>): (shown: Frame<V>)
    ensures shown.Keys == frame.Keys
  {
    map p | p in frame :: AfterAll(cs, p, frame[p])
  }

  lemma {:induction false} AfterAllConcat<V>(cs: seq<Paint<V>>, ds: seq<Paint<V>>, p: Point, v: V)
    ensures AfterAll(cs + ds, p, v) == AfterAll(ds, p, AfterAll(cs, p, v))
  {
    if cs == [] {
      assert cs + ds == ds;
    } else {
      assert (cs + ds)[1..] == cs[1..] + ds;
      AfterAllConcat(cs[1..], ds, p, After(cs[0], p, v));
    }
  }

  predicate AreDots<V>(ds: seq<Paint<V>>) {
    forall i :: 0 <= i < |ds| ==> ds[i].Dot?
  }

  predicate Hits<V>(d: Paint<V>, p: Point)
    requires d.Dot?
  {
    Point(d.x, d.y) == p
  }

  /** An LED that no dot hits keeps its value. */
  lemma {:induction false} DotsMiss<V>(ds: seq<Paint<V>>, p: Point, v: V)
    requires AreDots(ds)
    requires forall i :: 0 <= i < |ds| ==> !Hits(ds[i], p)
    ensures AfterAll(ds, p, v) == v
  {
    if ds != [] {
      assert !Hits(ds[0], p);
      DotsMiss(ds[1..], p, v);
    }
  }

  /** An LED that is hit, always with the same value, shows that value. */
  lemma {:induction false} DotsHit<V>(ds: seq<Paint<V>>, p: Point, v: V, w: V, k: nat)
    requires AreDots(ds) && k < |ds| && Hits(ds[k], p)
    requires forall i :: 0 <= i < |ds| && Hits(ds[i], p) ==> ds[i].v == w
    ensures AfterAll(ds, p, v) == w
  {
    var v' := After(ds[0], p, v);
    if k > 0 {
      DotsHit(ds[1..], p, v', w, k - 1);
    } else if exists i :: 1 <= i < |ds| && Hits(ds[i], p) {
      var i :| 1 <= i < |ds| && Hits(ds[i], p);
      DotsHit(ds[1..], p, v', w, i - 1);
    } else {
      DotsMiss(ds[1..], p, v');
    }
  }

  /**
   * A command draws the same as a collection of dots at LED p if every dot that hits p carries
   * the command's value there, and, unless the command leaves p alone, dot k hits p.
   */
  lemma CommandIsDots<V>(c: Paint<V>, ds: seq<Paint<V>>, p: Point, v: V, k: nat)
    requires AreDots(ds)
    requires forall i :: 0 <= i < |ds| && Hits(ds[i], p) ==> ds[i].v == After(c, p, v)
    requires After(c, p, v) == v || (k < |ds| && Hits(ds[k], p))
    ensures AfterAll(ds, p, v) == After(c, p, v)
  {
    if i :| 0 <= i < |ds| && Hits(ds[i], p) {
      DotsHit(ds, p, v, After(c, p, v), i);
    } else {
      DotsMiss(ds, p, v);
    }
  }

  /** Two command sequences that agree at every LED draw the same frame. */
  lemma SameFrame<V>(frame: Frame<V>, cs: seq<Paint<V>>, ds: seq<Paint<V>>)
    requires forall p :: p in frame ==> AfterAll(cs, p, frame[p]) == AfterAll(ds, p, frame[p])
    ensures Show(frame, cs) == Show(frame, ds)
  {
  }

  lemma ShowOne<V>(frame: Frame<V>, c: Paint<V>, p: Point)
    requires p in frame
    ensures Show(frame, [c])[p] == After(c, p, frame[p])
  {
    assert AfterAll([c], p, frame[p]) == AfterAll([], p, After(c, p, frame[p]));
  }
}
