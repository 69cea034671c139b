/** A snake as a value, and one tick of it as a function. The class `Snake` holds the same state in
    mutable fields and its `Tick` is proved to compute this function. Sector vectors appear here as sets.
    The heading, a unit vector, and the function `atan2` come from outside. */
module SnakeModel {
  import opened Geometry
  import opened Config
  import opened Movement
  import opened Grid
  import opened FoodList

  /** The `update` bits. */
  datatype Flags = Flags(pos: bool, angle: bool, wangle: bool, speed: bool, fullness: bool, dying: bool, dead: bool)

  const NO_FLAGS := Flags(false, false, false, false, false, false, false)

  function Or(a: Flags, b: Flags): Flags {
    Flags(a.pos || b.pos, a.angle || b.angle, a.wangle || b.wangle, a.speed || b.speed,
          a.fullness || b.fullness, a.dying || b.dying, a.dead || b.dead)
  }

  datatype SnakeState = SnakeState(
    id: nat, bot: bool, skin: int,
    flags: Flags, accel: bool, speed: nat, angle: real, wangle: real, fullness: int,
    parts: seq<Body>,
    box: Circle, sbb: set<nat>,
    view: Circle, vp: set<nat>, newS: set<nat>, oldS: set<nat>,
    eaten: seq<Food>, spawn: seq<Food>, clientParts: int,
    mov: nat, rot: nat, ai: nat)

  /** Food of every sector of the map. */
  type FoodMap = seq<seq<Food>>

  ghost predicate FoodOk(food: FoodMap) {
    |food| == SECTORS && forall k :: 0 <= k < SECTORS ==> SortedX(food[k])
  }

  datatype Pair = Pair(s: SnakeState, food: FoodMap)

  function Head(s: SnakeState): Body {
    if s.parts == [] then Body(0.0, 0.0) else s.parts[0]
  }

  function Tail(s: SnakeState): Body {
    if s.parts == [] then Body(0.0, 0.0) else s.parts[|s.parts| - 1]
  }

  // ---------------------------------------------------------------- size

  /** `sc`, the body scale of `Snake::UpdateSnakeConsts`. */
  function Scale(n: nat): real {
    var v := 1.0 + (n - 3) as real / 106.0;
    if v < 6.0 then v else 6.0
  }

  /** `sbpr`, the body part radius. */
  function BodyRadius(n: nat): real {
    14.5 * Scale(n)
  }

  /** `Snake::IncreaseSnake`. */
  function Increase(s: SnakeState, volume: int): SnakeState {
    var full := s.fullness + volume;
    var s1 := if full >= 100 then s.(fullness := full - 100, parts := s.parts + [Tail(s)])
              else s.(fullness := full);
    s1.(flags := s1.flags.(fullness := true))
  }

  /** `Snake::SpawnFood`: only a sector the snake is registered in takes the food. */
  function SpawnFood(o: Pair, f: Food): (r: Pair)
    requires FoodOk(o.food)
    ensures FoodOk(r.food)
  {
    var i, j := f.x / SECTOR_SIZE, f.y / SECTOR_SIZE;
    if InMap(i, j) && Index(i, j) in o.s.sbb then
      var k := Index(i, j);
      Pair(o.s.(spawn := o.s.spawn + [f]), o.food[k := FoodList.Insert(o.food[k], f)])
    else o
  }

  /** The food a boosting snake leaves at its tail. */
  function TailDrop(s: SnakeState): Food {
    Food(Trunc(Tail(s).x), Trunc(Tail(s).y), 100, s.skin)
  }

  /** The last part turns into food, unless only three are left. */
  function DropOne(o: Pair): (r: Pair)
    requires FoodOk(o.food)
    ensures FoodOk(r.food)
  {
    if |o.s.parts| > 3 then
      var o2 := SpawnFood(o, TailDrop(o.s));
      o2.(s := o2.s.(parts := o2.s.parts[..|o2.s.parts| - 1]))
    else o
  }

  function DropTail(o: Pair, count: nat): (r: Pair)
    requires FoodOk(o.food)
    ensures FoodOk(r.food)
  {
    if count == 0 then o else DropOne(DropTail(o, count - 1))
  }

  /** `Snake::DecreaseSnake`. */
  function Decrease(o: Pair, volume: int): (r: Pair)
    requires FoodOk(o.food)
    ensures FoodOk(r.food)
  {
    var o1 :=
      if volume > o.s.fullness then
        var v := volume - o.s.fullness;
        var o2 := DropTail(o, 1 + v / 100);
        o2.(s := o2.s.(fullness := 100 - v % 100))
      else o.(s := o.s.(fullness := o.s.fullness - volume));
    o1.(s := o1.s.(flags := o1.s.flags.(fullness := true)))
  }

  /** `Snake::on_food_eaten` for each item in turn. */
  function Gulp(s: SnakeState, foods: seq<Food>): SnakeState {
    if foods == [] then s
    else
      var s1 := Gulp(s, foods[..|foods| - 1]);
      var f := foods[|foods| - 1];
      Increase(s1, f.size).(eaten := s1.eaten + [f])
  }

  /** Eating distance: a margin, the body part radius before the meal, and one step. */
  function Reach(n: nat): int {
    Trunc(14.0 + BodyRadius(n) + STEP as real)
  }

  /** `Snake::UpdateEatenFood`. A head outside the map has no sector to look up (the method excludes it). */
  function EatFood(o: Pair): (r: Pair)
    requires FoodOk(o.food)
    ensures FoodOk(r.food)
  {
    var hx, hy := Trunc(Head(o.s).x), Trunc(Head(o.s).y);
    var i, j := hx / SECTOR_SIZE, hy / SECTOR_SIZE;
    if InMap(i, j) then
      var k, r := Index(i, j), Reach(|o.s.parts|);
      var near := InRange(hx, hy, r * r);
      EatConserves(o.food[k], hx, near);
      var sweep := Eat(o.food[k], hx, near);
      Pair(Gulp(o.s, sweep.eaten), o.food[k := sweep.rest])
    else o
  }

  // ---------------------------------------------------------------- turning

  /** `Math::normalize_angle`. */
  function Normalize(a: real): real {
    a - TWO_PI * (a / TWO_PI).Floor as real
  }

  /** Signed shortest turn from angle to wangle. */
  function TurnLeft(angle: real, wangle: real): real {
    var d := Normalize(wangle - angle);
    if d > PI then d - TWO_PI else d
  }

  function Abs(x: real): real {
    if x < 0.0 then -x else x
  }

  /** The angle after turning by at most `rotation` towards wangle. */
  function Turn(angle: real, wangle: real, rotation: real): real {
    var d := TurnLeft(angle, wangle);
    Normalize(if Abs(d) < rotation then wangle
              else if d > 0.0 then angle + rotation else angle - rotation)
  }

  /** The rotation a number of whole intervals is worth: snake_angular_speed is 4.125 rad/s. */
  function Rotation(frames: nat): real {
    4.125 * (frames * ROT_INTERVAL) as real / 1000.0
  }

  datatype Turned = Turned(s: SnakeState, changed: bool)

  /** The rotation block of `Snake::Tick`. */
  function Rotate(s: SnakeState, dt: nat): Turned {
    if s.angle == s.wangle then Turned(s, false)
    else
      var rot := s.rot + dt;
      if rot >= ROT_INTERVAL then
        var frames := rot / ROT_INTERVAL;
        Turned(s.(angle := Turn(s.angle, s.wangle, Rotation(frames)), rot := rot % ROT_INTERVAL), true)
      else Turned(s.(rot := rot), false)
  }

  type Atan2 = (real, real) -> real

  /** Where a bot wants to go: at a right angle to the bearing of its head from the centre. */
  function Tangent(head: Body, atan2: Atan2): real {
    Normalize(atan2(head.y - CENTRE.y, head.x - CENTRE.x) + PI / 2.0)
  }

  /** The bot block of `Snake::Tick` with `Snake::TickAI`: steer along the tangent once a second. */
  function Steer(s: SnakeState, dt: nat, atan2: Atan2): SnakeState {
    if !s.bot then s
    else
      var ai := s.ai + dt;
      if ai > AI_INTERVAL then
        var s1, aim := s.(ai := ai % AI_INTERVAL), Tangent(Head(s), atan2);
        if Abs(s.wangle - aim) > 0.01 then s1.(wangle := aim, flags := s1.flags.(wangle := true)) else s1
      else s.(ai := ai)
  }

  // ---------------------------------------------------------------- moving

  /** Milliseconds per step at this speed. */
  function Interval(speed: nat): (ms: nat)
    requires 0 < speed <= BOOST_SPEED
    ensures ROT_INTERVAL <= ms
  {
    assert ROT_INTERVAL * speed <= 1000 * STEP;
    AtLeast(speed, ROT_INTERVAL, 1000 * STEP);
    1000 * STEP / speed
  }

  lemma AtLeast(d: nat, q: nat, n: nat)
    requires 0 < d && q * d <= n
    ensures q <= n / d
  {
    var r := n / d;
    Divided(d, n);
    if r < q {
      Times(r + 1, q, d);
      assert false;
    }
  }

  lemma Divided(d: nat, n: nat)
    requires 0 < d
    ensures n < (n / d + 1) * d
  {
    assert n == n / d * d + n % d;
  }

  lemma Times(a: nat, b: nat, d: nat)
    requires a <= b
    ensures a * d <= b * d
  {
    assert b * d - a * d == (b - a) * d;
  }

  /** Sectors of the snake box after the head and the first n parts of a move are processed:
      the head and every part from the seventh on are tested. */
  function EnteredUpTo(sbb: set<nat>, was: seq<Body>, parts: seq<Body>, n: nat): set<nat>
    requires n <= |was| == |parts|
  {
    if n == 0 then sbb
    else
      var before := EnteredUpTo(sbb, was, parts, n - 1);
      if n == 1 || n > 7 then Entered(before, parts[n - 1], was[n - 1]) else before
  }

  /** Body, snake box and viewport after the head moved by `dist` along `dir`. */
  function Advance(s: SnakeState, dist: real, dir: Body): SnakeState
    requires s.parts != []
  {
    var was := s.parts;
    var head := was[0].Plus(dir.Times(dist));
    var parts := Follow(was, head);
    var c := Centroid(parts);
    var box := Circle(c.x, c.y, BoxRadius(|parts|));
    var view := ViewCircle(head);
    var gained := if s.bot then {} else Appearing(s.view, head, was[0]) - s.vp;
    var seen := s.vp + gained;
    s.(parts := parts, box := box, view := view,
       sbb := EnteredUpTo(s.sbb, was, parts, |parts|) * Meeting(box),
       vp := if s.bot then s.vp else seen * Meeting(view),
       newS := s.newS + gained,
       oldS := if s.bot then s.oldS else s.oldS + (seen - Meeting(view)))
  }

  /** Boosting burns mass while there is any to burn. */
  function Burn(o: Pair): (r: Pair)
    requires FoodOk(o.food)
    ensures FoodOk(r.food)
  {
    if !o.s.accel then o
    else if |o.s.parts| <= 3 then o.(s := o.s.(accel := false))
    else Decrease(o, 33)
  }

  /** Speed moves towards the wanted one by at most acc. */
  function Approach(speed: nat, wanted: nat, acc: nat): (r: nat)
    ensures speed <= wanted ==> speed <= r <= wanted
    ensures wanted <= speed ==> wanted <= r <= speed
  {
    if speed <= wanted then
      if wanted - speed <= acc then wanted else speed + acc
    else
      if speed - wanted <= acc then wanted else speed - acc
  }

  function Wanted(s: SnakeState): nat {
    if s.accel then BOOST_SPEED else BASE_SPEED
  }

  datatype Moved = Moved(s: SnakeState, food: FoodMap, moved: bool, sped: bool)

  /** Distance covered by a number of whole intervals. */
  function Distance(speed: nat, frames: nat): real
    requires 0 < speed <= BOOST_SPEED
  {
    (speed * (frames * Interval(speed))) as real / 1000.0
  }

  /** The movement block of `Snake::Tick`. */
  function Move(s: SnakeState, food: FoodMap, dt: nat, dir: Body): (r: Moved)
    requires FoodOk(food) && 0 < s.speed <= BOOST_SPEED && s.parts != []
    ensures FoodOk(r.food)
  {
    var mov := s.mov + dt;
    var interval := Interval(s.speed);
    if mov < interval then Moved(s.(mov := mov), food, false, false)
    else
      var frames := mov / interval;
      var s1 := Advance(s.(mov := mov), Distance(s.speed, frames), dir);
      var o := Burn(EatFood(Pair(s1, food)));
      var wanted := Wanted(o.s);
      Moved(o.s.(speed := Approach(o.s.speed, wanted, frames * interval), mov := mov % interval),
            o.food, true, o.s.speed != wanted)
  }

  // ---------------------------------------------------------------- creation

  const ORIGIN := Body(0.0, 0.0)

  /** A snake with this body before any sector knows it. */
  function Blank(id: nat, skin: int, parts: seq<Body>, angle: real): (s: SnakeState)
    requires parts != []
    ensures s.id == id && s.parts == parts
  {
    var c := Centroid(parts);
    SnakeState(id, false, skin, NO_FLAGS, false, BASE_SPEED, angle, angle, 0, parts,
               Circle(c.x, c.y, BoxRadius(|parts|)), {}, ViewCircle(parts[0]), {}, {}, {}, [], [], |parts|, 0, 0, 0)
  }

  /** Sectors entered by every twelfth part from i on, coming from the origin. */
  function InitEntered(sbb: set<nat>, parts: seq<Body>, i: nat): set<nat>
    decreases |parts| - i
  {
    if i < |parts| then InitEntered(Entered(sbb, parts[i], ORIGIN), parts, i + 12) else sbb
  }

  /** `Snake::InitBoxNewSectors` of a player (a bot only becomes one later). */
  function Placed(s: SnakeState): SnakeState
    requires s.parts != []
  {
    var seen := Appearing(s.view, s.parts[0], ORIGIN);
    s.(sbb := InitEntered(Entered(s.sbb, s.parts[0], ORIGIN), s.parts, 3),
       vp := s.vp + seen, newS := s.newS + (seen - s.vp))
  }

  // ---------------------------------------------------------------- one tick

  /** What a tick takes from outside: the heading, and the arc tangent. */
  datatype Input = Input(dir: Body, atan2: Atan2)

  datatype Ticked = Ticked(s: SnakeState, food: FoodMap, changed: bool)

  /** `Snake::Tick`. */
  function Tick(s: SnakeState, food: FoodMap, dt: nat, inp: Input): (r: Ticked)
    requires FoodOk(food) && 0 < s.speed <= BOOST_SPEED && s.parts != []
    ensures FoodOk(r.food)
  {
    if s.flags.dying || s.flags.dead then Ticked(s, food, false)
    else
      var t := Rotate(Steer(s, dt, inp.atan2), dt);
      var m := Move(t.s, food, dt, inp.dir);
      var changes := NO_FLAGS.(pos := m.moved, angle := t.changed, speed := m.sped);
      if changes != NO_FLAGS && changes != m.s.flags then
        Ticked(m.s.(flags := Or(m.s.flags, changes)), m.food, true)
      else Ticked(m.s, m.food, false)
  }
}
