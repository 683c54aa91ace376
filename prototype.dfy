/** src/app.ts: the single-box prototype `Game`, a fixed-timestep loop at 60 ticks per
    second that moves one box by 5 pixels per tick from the arrow keys. */
module Prototype {
  import opened Engine
  import opened Keyboard

  const Step: int := 5

  /** The `switch (true)` of `update`: the first held key among Right, Left, Up, Down
      decides, so at most one direction is applied per tick. */
  function Move(box: Vec, right: bool, left: bool, up: bool, down: bool): (r: Vec)
    ensures r == box <==> !(right || left || up || down)
    ensures r.x == box.x || r.y == box.y
  {
    if right then box.(x := box.x + Step)
    else if left then box.(x := box.x - Step)
    else if up then box.(y := box.y - Step)
    else if down then box.(y := box.y + Step)
    else box
  }

  /** A tick with no key held leaves the box where it is; otherwise exactly one
      coordinate moves, by exactly `Step`. */
  lemma MoveOneAxis(box: Vec, right: bool, left: bool, up: bool, down: bool)
    ensures var b := Move(box, right, left, up, down);
      (!(right || left || up || down) ==> b == box) &&
      ((right || left || up || down) ==>
        (b.x == box.x && (b.y - box.y == Step || box.y - b.y == Step)) ||
        (b.y == box.y && (b.x - box.x == Step || box.x - b.x == Step)))
  {
  }

  /** Right wins over everything else; while Right or Left is held the vertical keys
      are ignored. */
  lemma MovePriority(box: Vec, right: bool, left: bool, up: bool, down: bool)
    ensures right ==> Move(box, right, left, up, down) == Vec(box.x + Step, box.y)
    ensures !right && left ==> Move(box, right, left, up, down) == Vec(box.x - Step, box.y)
    ensures right || left ==> Move(box, right, left, up, down).y == box.y
    ensures !right && !left && up ==> Move(box, right, left, up, down) == Vec(box.x, box.y - Step)
    ensures !right && !left && !up && down ==> Move(box, right, left, up, down) == Vec(box.x, box.y + Step)
  {
  }

  /** The y coordinate stays put over any run of ticks in which Right or Left is held
      throughout. */
  lemma {:induction false} HorizontalRunKeepsY(box: Vec, ticks: seq<(bool, bool, bool, bool)>)
    requires forall i :: 0 <= i < |ticks| ==> ticks[i].0 || ticks[i].1
    ensures MoveAll(box, ticks).y == box.y
    decreases |ticks|
  {
    if ticks != [] {
      var t := ticks[0];
      HorizontalRunKeepsY(Move(box, t.0, t.1, t.2, t.3), ticks[1..]);
    }
  }

  /** The box after one `update` per entry of `ticks`, each entry giving the held state
      of Right, Left, Up and Down. */
  function MoveAll(box: Vec, ticks: seq<(bool, bool, bool, bool)>): Vec
    decreases |ticks|
  {
    if ticks == [] then box
    else MoveAll(Move(box, ticks[0].0, ticks[0].1, ticks[0].2, ticks[0].3), ticks[1..])
  }

  /** `class Game` without its PIXI renderer: `box` is the position of the one game
      element and `renders` counts `renderer.render()` calls. */
  class Game {
    static const FPS: int := 60

    var nextLoopTime: real
    var deltaLoopTime: real
    var box: Vec
    var renders: nat
    const down: Key
    const left: Key
    const right: Key
    const up: Key

    /** The `interval` getter. */
    static function Interval(): (r: real)
      ensures r > 0.0 && r * 60.0 == 1000.0
    {
      TickInterval(FPS)
    }

    /** The constructor up to (not including) its first `runGameLoop` call; `now` is
        `Date.now()`. */
    constructor (now: int)
      ensures nextLoopTime == now as real && box == Vec(0, 0) && renders == 0
      ensures fresh(down) && fresh(left) && fresh(right) && fresh(up)
      ensures down.State() == Released(40) && left.State() == Released(37)
      ensures right.State() == Released(39) && up.State() == Released(38)
    {
      nextLoopTime := now as real;
      deltaLoopTime := 0.0;
      down := new Key(40);
      left := new Key(37);
      right := new Key(39);
      up := new Key(38);
      box := Vec(0, 0);
      renders := 0;
    }

    /** `update`. */
    method Update()
      modifies this`box
      ensures box == Move(old(box), right.isDown, left.isDown, up.isDown, down.isDown)
    {
      if right.isDown {
        box := box.(x := box.x + Step);
      } else if left.isDown {
        box := box.(x := box.x - Step);
      } else if up.isDown {
        box := box.(y := box.y - Step);
      } else if down.isDown {
        box := box.(y := box.y + Step);
      }
    }

    /** One `runGameLoop` call at clock reading `now`: on a tick, the schedule is
        corrected first, then the box moves and the stage is rendered. */
    method RunGameLoop(now: int) returns (ticked: bool)
      modifies this`nextLoopTime, this`deltaLoopTime, this`box, this`renders
      ensures ticked == Due(old(nextLoopTime), now as real, Interval())
      ensures deltaLoopTime == now as real - old(nextLoopTime)
      ensures nextLoopTime == NextLoopTime(old(nextLoopTime), now as real, Interval())
      ensures ticked ==> box == Move(old(box), right.isDown, left.isDown, up.isDown, down.isDown)
      ensures ticked ==> renders == old(renders) + 1 && 0.0 <= now as real - nextLoopTime < Interval()
      ensures !ticked ==> box == old(box) && renders == old(renders)
    {
      deltaLoopTime := now as real - nextLoopTime;
      ticked := deltaLoopTime > Interval();
      if ticked {
        TickLandsInWindow(nextLoopTime, now as real, Interval());
        nextLoopTime := now as real - Mod(deltaLoopTime, Interval());
        Update();
        renders := renders + 1;
      }
    }
  }
}
