/** The world as a value: all snakes by id, the food of every sector, and one tick of everything. */
module WorldModel {
  import opened Geometry
  import opened Config
  import opened Grid
  import opened SnakeModel
  import opened Collision

  type SnakeMap = map<nat, SnakeState>

  /** What a step takes from outside: the iteration order of the snake table, each snake's heading and the arc tangent,
      and a stream of random draws in [0, 1] for each dying snake. */
  datatype Env = Env(order: seq<nat>, inputs: nat -> Input, random: (nat, nat) -> real)

  ghost predicate EnvOk(env: Env, snakes: SnakeMap) {
    && (forall id :: id in env.order <==> id in snakes)
    && (forall i, j :: 0 <= i < j < |env.order| ==> env.order[i] != env.order[j])
    && (forall id :: Dot(env.inputs(id).dir, env.inputs(id).dir) == 1.0)
    && (forall id, n :: 0.0 <= env.random(id, n) <= 1.0)
  }

  predicate Able(s: SnakeState) {
    0 < s.speed <= BOOST_SPEED && s.parts != []
  }

  /** `Snake::Tick`, on snakes that have a body and a speed as all snakes do. */
  function TickOne(s: SnakeState, food: FoodMap, dt: nat, inp: Input): (r: Ticked)
    requires FoodOk(food)
    ensures FoodOk(r.food)
  {
    if Able(s) then Tick(s, food, dt, inp) else Ticked(s, food, false)
  }

  datatype TickedAll = TickedAll(snakes: SnakeMap, food: FoodMap, changes: seq<nat>)

  /** The first loop of `World::TickSnakes`, for the first n snakes of the order. */
  ghost function TickAll(snakes: SnakeMap, food: FoodMap, dt: nat, env: Env, n: nat): (r: TickedAll)
    requires FoodOk(food) && n <= |env.order|
    ensures FoodOk(r.food)
  {
    if n == 0 then TickedAll(snakes, food, [])
    else
      var t := TickAll(snakes, food, dt, env, n - 1);
      var id := env.order[n - 1];
      if id in t.snakes then
        var r := TickOne(t.snakes[id], t.food, dt, env.inputs(id));
        TickedAll(t.snakes[id := r.s], r.food, if r.changed then t.changes + [id] else t.changes)
      else t
  }

  lemma EnvOrder(env: Env, snakes: SnakeMap, n: nat)
    requires EnvOk(env, snakes) && n < |env.order|
    ensures env.order[n] in snakes && Dot(env.inputs(env.order[n]).dir, env.inputs(env.order[n]).dir) == 1.0
  {
    hide Dot;
    assert env.order[n] in env.order;
  }

  /** A snake keeps its value until its turn comes. */
  lemma {:induction false} Unticked(snakes: SnakeMap, food: FoodMap, dt: nat, env: Env, n: nat)
    requires EnvOk(env, snakes) && FoodOk(food) && n <= |env.order|
    ensures var t := TickAll(snakes, food, dt, env, n);
            t.snakes.Keys == snakes.Keys
            && forall m :: n <= m < |env.order| ==> t.snakes[env.order[m]] == snakes[env.order[m]]
  {
    hide TickOne, Dot;
    if n > 0 {
      Unticked(snakes, food, dt, env, n - 1);
    }
  }

  // ---------------------------------------------------------------- collisions

  /** The circle a snake's head is checked with. */
  function HeadCircle(s: SnakeState): Circle {
    Circle(Head(s).x, Head(s).y, BodyRadius(|s.parts|))
  }

  /** Snake j is registered in a sector that meets the step circle around the head of snake id, and is hit by it. */
  ghost predicate Bumps(snakes: SnakeMap, id: nat, j: nat) {
    && id in snakes && j in snakes && j != id
    && Hits(snakes[j].parts, HeadCircle(snakes[id]))
    && exists k :: k in snakes[j].sbb && k in Meeting(Circle(Head(snakes[id]).x, Head(snakes[id]).y, 42.0))
  }

  /** What `World::CheckSnakeBounds` decides: the head left the death disc, or it bumps into another snake. */
  ghost predicate Doomed(snakes: SnakeMap, id: nat) {
    id in snakes && (!Inside(Head(snakes[id]), CENTRE, DEATH) || exists j :: Bumps(snakes, id, j))
  }

  function Marked(s: SnakeState): SnakeState {
    s.(flags := s.flags.(dying := true))
  }

  /** The second loop of `World::TickSnakes`, as a set-level statement: of the changed snakes that moved,
      exactly the doomed ones are marked; no order is involved. */
  ghost function MarkAll(snakes: SnakeMap, changes: seq<nat>): (r: SnakeMap)
    ensures r.Keys == snakes.Keys
    ensures forall id :: id in snakes ==> r[id] == snakes[id] || r[id] == Marked(snakes[id])
  {
    map id | id in snakes ::
      if id in changes && snakes[id].flags.pos && Doomed(snakes, id) then Marked(snakes[id]) else snakes[id]
  }

  /** Same bodies and boxes. */
  ghost predicate SameShapes(a: SnakeMap, b: SnakeMap) {
    a.Keys == b.Keys && forall id :: id in a ==> a[id].parts == b[id].parts && a[id].sbb == b[id].sbb
  }

  /** Being doomed only depends on bodies and boxes, so marks made before do not influence it. */
  lemma DoomedByShape(a: SnakeMap, b: SnakeMap, id: nat)
    requires SameShapes(a, b)
    ensures Doomed(a, id) <==> Doomed(b, id)
  {
    hide Hits, Inside, Meeting, BodyRadius;
    forall j
      ensures Bumps(a, id, j) <==> Bumps(b, id, j)
    {
    }
  }

  // ---------------------------------------------------------------- time

  datatype WorldState = WorldState(snakes: SnakeMap, food: FoodMap, changes: seq<nat>, ticks: nat)

  /** Milliseconds the snakes are ticked by: whole frames of 8 ms. */
  function WholeFrames(ticks: nat, dt: nat): nat {
    (ticks + dt) / FRAME_MS * FRAME_MS
  }

  /** `World::TickSnakes`. */
  ghost function TickSnakes(snakes: SnakeMap, food: FoodMap, dt: nat, env: Env): (r: TickedAll)
    requires FoodOk(food)
    ensures FoodOk(r.food)
  {
    var t := TickAll(snakes, food, dt, env, |env.order|);
    t.(snakes := MarkAll(t.snakes, t.changes))
  }

  /** `World::Tick` from a point where all changes have been flushed. */
  ghost function TickWorld(w: WorldState, dt: nat, env: Env): (r: WorldState)
    requires FoodOk(w.food)
    ensures FoodOk(r.food)
  {
    var whole := WholeFrames(w.ticks, dt);
    if whole > 0 then
      var t := TickSnakes(w.snakes, w.food, whole, env);
      WorldState(t.snakes, t.food, t.changes, w.ticks + dt - whole)
    else w.(ticks := w.ticks + dt)
  }
}
