/** The shared game engine of src/engine.ts: directions, inputs, player records,
    the mutable `Vector` and the fixed-timestep scheduler `BaseCore`. */
module Engine {
  import opened Wrappers

  /** `const enum Direction`: Down = 0, Left = 1, Right = 2, Up = 3. */
  datatype Direction = Down | Left | Right | Up

  function Ordinal(d: Direction): (n: nat)
    ensures n < 4
  {
    match d
    case Down => 0
    case Left => 1
    case Right => 2
    case Up => 3
  }

  function DirectionOf(n: nat): (d: Direction)
    requires n < 4
    ensures Ordinal(d) == n
  {
    if n == 0 then Down else if n == 1 then Left else if n == 2 then Right else Up
  }

  /** `IInput`: one input packet (`seqNo` is the source's `seq`); `inputs` lists the directions held during that tick. */
  datatype Input = Input(seqNo: int, time: int, inputs: seq<Direction>, entityId: Option<string>)

  /** `IVector` seen as a plain value: what a snapshot carries over the wire. */
  datatype Vec = Vec(x: int, y: int)

  function Plus(a: Vec, b: Vec): (r: Vec)
    ensures r.x - a.x == b.x && r.y - a.y == b.y
  {
    Vec(a.x + b.x, a.y + b.y)
  }

  /** `IPlayer`, generic in how its three vectors are represented: `Player<Vector>`
      holds `Vector` objects (as `CreateBasePlayer` builds them), `Player<Vec>` holds
      plain coordinates (as the client receives them in snapshots). */
  datatype Player<V> = Player(
    id: Option<string>,
    lastInputSeq: int,
    lastInputTime: int,
    inputs: seq<Input>,
    prevPos: V,
    pos: V,
    speed: V)

  /** `class Vector`: a mutable pair of coordinates. */
  class Vector {
    var x: int
    var y: int

    function Value(): Vec
      reads this
    {
      Vec(x, y)
    }

    constructor (x: int, y: int)
      ensures Value() == Vec(x, y)
    {
      this.x := x;
      this.y := y;
    }

    /** `Vector.create`: a new object with the coordinates of `v`. */
    static method Create(v: Vec) returns (r: Vector)
      ensures fresh(r) && r.Value() == v
    {
      r := new Vector(v.x, v.y);
    }

    /** `copy`: a new object equal to this one, so later changes to either leave the
        other alone. */
    method Copy() returns (r: Vector)
      ensures fresh(r) && r.Value() == Value()
    {
      r := Create(Value());
    }

    /** `add`: adds `v` into this vector componentwise. The `toFixed`/`parseInt` round
        trip is the identity on integers of the magnitudes the game produces. `v` may be
        this very object: both coordinates are then doubled. */
    method Add(v: Vector)
      modifies this
      ensures Value() == Plus(old(Value()), old(v.Value()))
      ensures v != this ==> v.Value() == old(v.Value())
    {
      x := x + v.x;
      y := y + v.y;
    }
  }

  /** `CreateBasePlayer`: a player at the origin, speed (5, 5), with an empty input log
      and nothing acknowledged; each of the three vectors is its own new object. */
  method CreateBasePlayer() returns (p: Player<Vector>)
    ensures p.id == None && p.inputs == [] && p.lastInputSeq == 0 && p.lastInputTime == 0
    ensures fresh(p.prevPos) && fresh(p.pos) && fresh(p.speed)
    ensures p.prevPos != p.pos && p.pos != p.speed && p.prevPos != p.speed
    ensures p.prevPos.Value() == Vec(0, 0) && p.pos.Value() == Vec(0, 0)
    ensures p.speed.Value() == Vec(5, 5)
  {
    var prevPos := Vector.Create(Vec(0, 0));
    var pos := Vector.Create(Vec(0, 0));
    var speed := Vector.Create(Vec(5, 5));
    p := Player(None, 0, 0, [], prevPos, pos, speed);
  }

  // ---------------------------------------------------------------------------
  // Fixed-timestep scheduling

  /** The `interval` getter: milliseconds per tick. */
  function TickInterval(frameTime: int): (r: real)
    requires frameTime > 0
    ensures r > 0.0 && r * frameTime as real == 1000.0
  {
    1000.0 / frameTime as real
  }

  /** JavaScript's `%` on a non-negative dividend and a positive divisor. */
  function Mod(a: real, b: real): (r: real)
    requires a >= 0.0 && b > 0.0
    ensures 0.0 <= r < b
    ensures r == a - Quotient(a, b) as real * b
  {
    var q := Quotient(a, b);
    QuotientBounds(a, b);
    a - q as real * b
  }

  /** How many whole intervals fit into `a`. */
  function Quotient(a: real, b: real): int
    requires b > 0.0
  {
    (a / b).Floor
  }

  lemma QuotientBounds(a: real, b: real)
    requires b > 0.0
    ensures Quotient(a, b) as real * b <= a < (Quotient(a, b) + 1) as real * b
  {
    var q := a / b;
    var f := q.Floor as real;
    assert f <= q < f + 1.0;
    assert q * b == a;
    assert (Quotient(a, b) + 1) as real == f + 1.0;
    MulMono(f, q, b);
    MulStrict(q, f + 1.0, b);
    assert a < (f + 1.0) * b;
    assert Quotient(a, b) as real == f;
  }

  lemma MulMono(u: real, v: real, b: real)
    requires u <= v && b > 0.0
    ensures u * b <= v * b
  {
  }

  lemma MulStrict(u: real, v: real, b: real)
    requires u < v && b > 0.0
    ensures u * b < v * b
  {
    assert v * b - u * b == (v - u) * b;
  }

  /** The tick condition of `runLoop`: more than one interval has elapsed. */
  predicate Due(nextLoopTime: real, now: real, interval: real): (r: bool)
    ensures r && interval >= 0.0 ==> nextLoopTime < now
  {
    now - nextLoopTime > interval
  }

  /** The `nextLoopTime` after one `runLoop` call: on a tick, `now` minus the part of the
      overdue time that does not fill a whole interval; otherwise unchanged. */
  function NextLoopTime(nextLoopTime: real, now: real, interval: real): (r: real)
    requires interval > 0.0
    ensures Due(nextLoopTime, now, interval) ==> nextLoopTime < r <= now
    ensures !Due(nextLoopTime, now, interval) ==> r == nextLoopTime
  {
    if Due(nextLoopTime, now, interval) then now - Mod(now - nextLoopTime, interval)
    else nextLoopTime
  }

  /** After a tick the schedule is less than one interval behind `now` and not ahead of
      it. */
  lemma TickLandsInWindow(nextLoopTime: real, now: real, interval: real)
    requires interval > 0.0 && Due(nextLoopTime, now, interval)
    ensures 0.0 <= now - NextLoopTime(nextLoopTime, now, interval) < interval
  {
  }

  /** A tick moves the schedule forward by a whole number (at least one) of intervals:
      ticks that were missed are dropped, never run later. */
  lemma TickAdvancesWholeIntervals(nextLoopTime: real, now: real, interval: real)
    requires interval > 0.0 && Due(nextLoopTime, now, interval)
    ensures Quotient(now - nextLoopTime, interval) >= 1
    ensures NextLoopTime(nextLoopTime, now, interval)
         == nextLoopTime + Quotient(now - nextLoopTime, interval) as real * interval
  {
    var d := now - nextLoopTime;
    QuotientBounds(d, interval);
    var q := Quotient(d, interval);
    if q < 1 {
      MulMono(q as real + 1.0, 1.0, interval);
    }
  }

  /** `abstract class BaseCore`: the scheduler state shared by the game loops. The
      abstract `update()` is counted in `updates`. */
  class BaseCore {
    var frameTime: int
    var inputSeq: int
    var nextLoopTime: real
    var deltaLoopTime: real
    var showTickRate: bool
    var lastRun: int
    /** How many times `runLoop` has invoked `update()`. */
    var updates: nat

    ghost predicate Valid()
      reads this
    {
      frameTime > 0
    }

    function Interval(): (r: real)
      reads this
      requires Valid()
      ensures r > 0.0
    {
      TickInterval(frameTime)
    }

    /** `Date.now()` at construction is the parameter `now`. */
    constructor (frameTime: int, now: int)
      requires frameTime > 0
      ensures Valid() && this.frameTime == frameTime
      ensures nextLoopTime == now as real && inputSeq == 0 && lastRun == 0
      ensures !showTickRate && updates == 0
    {
      this.frameTime := frameTime;
      nextLoopTime := now as real;
      inputSeq := 0;
      lastRun := 0;
      showTickRate := false;
      deltaLoopTime := 0.0;
      updates := 0;
    }

    /** One `runLoop` call: `now` is the clock read at its start, `finishedAt` the clock
        read that it stores in `lastRun`. */
    method RunLoop(now: int, finishedAt: int) returns (ticked: bool)
      requires Valid()
      modifies this`nextLoopTime, this`deltaLoopTime, this`lastRun, this`updates
      ensures ticked == Due(old(nextLoopTime), now as real, Interval())
      ensures updates == if ticked then old(updates) + 1 else old(updates)
      ensures deltaLoopTime == now as real - old(nextLoopTime)
      ensures nextLoopTime == NextLoopTime(old(nextLoopTime), now as real, Interval())
      ensures lastRun == finishedAt
    {
      deltaLoopTime := now as real - nextLoopTime;
      ticked := deltaLoopTime > Interval();
      if ticked {
        updates := updates + 1;
        nextLoopTime := now as real - Mod(deltaLoopTime, Interval());
      }
      lastRun := finishedAt;
    }
  }
}
