/** The phases of one tick of a live snake, and what each tick therefore keeps. */
module Ticks {
  import opened Geometry
  import opened Config
  import opened Movement
  import opened SnakeModel
  import opened SnakeLaws

  /** What the run invariant says of every snake's numbers at a quiescent point. */
  predicate Sane(s: SnakeState) {
    Fed(s) && BASE_SPEED <= s.speed <= BOOST_SPEED && s.mov < 227
  }

  /** Alive with nothing left to broadcast. */
  predicate Quiet(s: SnakeState) {
    var f := s.flags;
    !f.pos && !f.angle && !f.speed && !f.dying && !f.dead
  }

  predicate Moves(s: SnakeState, dt: nat)
    requires 0 < s.speed <= BOOST_SPEED
  {
    s.mov + dt >= Interval(s.speed)
  }

  function Frames(s: SnakeState, dt: nat): nat
    requires 0 < s.speed <= BOOST_SPEED
  {
    (s.mov + dt) / Interval(s.speed)
  }

  /** How far the head goes in this tick. */
  function StepOf(s: SnakeState, dt: nat): real
    requires 0 < s.speed <= BOOST_SPEED
  {
    if Moves(s, dt) then Distance(s.speed, Frames(s, dt)) else 0.0
  }

  /** Body, box and viewport after the step. */
  function AdvancePhase(s: SnakeState, dt: nat, dir: Body): SnakeState
    requires 0 < s.speed <= BOOST_SPEED && s.parts != []
  {
    Advance(s.(mov := s.mov + dt), Distance(s.speed, Frames(s, dt)), dir)
  }

  /** ... then the meal at the new head ... */
  function EatPhase(s: SnakeState, food: FoodMap, dt: nat, dir: Body): (o: Pair)
    requires FoodOk(food) && 0 < s.speed <= BOOST_SPEED && s.parts != []
    ensures FoodOk(o.food)
  {
    EatFood(Pair(AdvancePhase(s, dt, dir), food))
  }

  /** ... then the cost of boosting. */
  function BurnPhase(s: SnakeState, food: FoodMap, dt: nat, dir: Body): (o: Pair)
    requires FoodOk(food) && 0 < s.speed <= BOOST_SPEED && s.parts != []
    ensures FoodOk(o.food)
  {
    Burn(EatPhase(s, food, dt, dir))
  }

  function NewSpeed(s: SnakeState, o: SnakeState, dt: nat): (r: nat)
    requires 0 < s.speed <= BOOST_SPEED
    ensures s.speed <= r <= Wanted(o) || Wanted(o) <= r <= s.speed
  {
    Approach(s.speed, Wanted(o), Frames(s, dt) * Interval(s.speed))
  }

  lemma MoveShape(s: SnakeState, food: FoodMap, dt: nat, dir: Body)
    requires FoodOk(food) && 0 < s.speed <= BOOST_SPEED && s.parts != [] && Moves(s, dt)
    ensures var o := BurnPhase(s, food, dt, dir);
            && o.s.flags == s.flags.(fullness := o.s.flags.fullness)
            && Move(s, food, dt, dir) == Moved(
                 o.s.(speed := NewSpeed(s, o.s, dt), mov := (s.mov + dt) % Interval(s.speed)),
                 o.food, true, s.speed != Wanted(o.s))
  {
    EatFrame(Pair(AdvancePhase(s, dt, dir), food));
    BurnFrame(EatPhase(s, food, dt, dir));
    hide EatFood, Burn, Distance, Approach, Interval, Follow;
  }

  /** A tick that reaches a whole step is turn, advance, eat, burn, then speed; its change is never suppressed. */
  lemma TickMoving(s: SnakeState, food: FoodMap, dt: nat, inp: Input)
    requires FoodOk(food) && 0 < s.speed <= BOOST_SPEED && s.parts != [] && Quiet(s) && Moves(s, dt)
    ensures Aimed(s, dt, inp).parts == s.parts && Aimed(s, dt, inp).speed == s.speed && Aimed(s, dt, inp).mov == s.mov
    ensures var t, a := Tick(s, food, dt, inp), Aimed(s, dt, inp);
            var o := BurnPhase(a, food, dt, inp.dir);
            && t.changed && t.food == o.food
            && t.s == o.s.(speed := NewSpeed(a, o.s, dt), mov := (s.mov + dt) % Interval(s.speed), flags := t.s.flags)
            && t.s.flags.pos && t.s.flags.angle == Rotate(Steer(s, dt, inp.atan2), dt).changed
            && t.s.flags.speed == (s.speed != Wanted(o.s)) && t.s.flags.fullness == o.s.flags.fullness
            && !t.s.flags.dying && !t.s.flags.dead
  {
    AimedFrame(s, dt, inp);
    var a := Aimed(s, dt, inp);
    MoveShape(a, food, dt, inp.dir);
    hide Steer, Rotate, BurnPhase, Interval, Move, NewSpeed, Wanted;
  }

  /** A tick short of a step only turns; it reports exactly when the angle moved. */
  lemma TickStill(s: SnakeState, food: FoodMap, dt: nat, inp: Input)
    requires FoodOk(food) && 0 < s.speed <= BOOST_SPEED && s.parts != [] && Quiet(s) && !Moves(s, dt)
    ensures var t, turned := Tick(s, food, dt, inp), Rotate(Steer(s, dt, inp.atan2), dt).changed;
            && t.changed == turned && t.food == food
            && t.s == Aimed(s, dt, inp).(mov := s.mov + dt, flags := t.s.flags)
            && t.s.flags == Aimed(s, dt, inp).flags.(angle := turned)
  {
    AimedFrame(s, dt, inp);
    hide Steer, Rotate;
  }
}
