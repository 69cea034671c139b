/** The food ledger: every piece of food on the map is accounted for, over a whole timer step. */
module FoodLedger {
  import opened Config
  import opened Movement
  import opened Grid
  import opened FoodList
  import opened SnakeModel
  import opened SnakeLaws
  import opened Ticks
  import opened TickLaws
  import opened BodyLaws
  import opened DeathFood
  import opened WorldModel
  import opened ServerModel
  import opened StepLaws
  import opened MirrorLaws
  import opened LengthMirror
  import opened Runs
  import opened RunLaws

  /** All food of the first n sectors. */
  function Upto(food: FoodMap, n: nat): multiset<Food>
    requires n <= |food|
  {
    if n == 0 then multiset{} else Upto(food, n - 1) + multiset(food[n - 1])
  }

  /** All food on the map. */
  function All(food: FoodMap): multiset<Food> {
    Upto(food, |food|)
  }

  lemma {:induction false} UptoReplaced(food: FoodMap, k: nat, list: seq<Food>, n: nat, f: Food)
    requires k < |food| && n <= |food|
    ensures Upto(food[k := list], n)[f] + (if k < n then multiset(food[k])[f] else 0)
            == Upto(food, n)[f] + (if k < n then multiset(list)[f] else 0)
  {
    if n > 0 {
      UptoReplaced(food, k, list, n - 1, f);
    }
  }

  lemma AllReplaced(food: FoodMap, k: nat, list: seq<Food>)
    requires k < |food|
    ensures All(food[k := list]) + multiset(food[k]) == All(food) + multiset(list)
  {
    forall f
      ensures (All(food[k := list]) + multiset(food[k]))[f] == (All(food) + multiset(list))[f]
    {
      UptoReplaced(food, k, list, |food|, f);
    }
  }

  // ---------------------------------------------------------------- one tick

  lemma EatAll(o: Pair)
    requires FoodOk(o.food)
    ensures All(EatFood(o).food) + multiset(EatFood(o).s.eaten) == All(o.food) + multiset(o.s.eaten)
  {
    hide Trunc, Reach, InRange, Eat, All;
    var h := Head(o.s);
    var i, j, r := Trunc(h.x) / SECTOR_SIZE, Trunc(h.y) / SECTOR_SIZE, Reach(|o.s.parts|);
    if InMap(i, j) {
      var k, near := Index(i, j), InRange(Trunc(h.x), Trunc(h.y), r * r);
      var sweep := Eat(o.food[k], Trunc(h.x), near);
      EatConserves(o.food[k], Trunc(h.x), near);
      GulpFrame(o.s, sweep.eaten);
      AllReplaced(o.food, k, sweep.rest);
      MoveOver(All(o.food[k := sweep.rest]), multiset(o.food[k]), All(o.food), multiset(sweep.rest), multiset(sweep.eaten));
      assert multiset(o.s.eaten + sweep.eaten) == multiset(o.s.eaten) + multiset(sweep.eaten);
    }
  }

  lemma MoveOver<T>(after: multiset<T>, old': multiset<T>, before: multiset<T>, rest: multiset<T>, eaten: multiset<T>)
    requires after + old' == before + rest && eaten + rest == old'
    ensures after + eaten == before
  {
    forall x
      ensures (after + eaten)[x] == before[x]
    {
      assert (after + old')[x] == (before + rest)[x];
      assert (eaten + rest)[x] == old'[x];
    }
  }

  lemma SpawnAll(o: Pair, f: Food)
    requires FoodOk(o.food)
    ensures var r := SpawnFood(o, f); All(r.food) + multiset(o.s.spawn) == All(o.food) + multiset(r.s.spawn)
  {
    hide All, FoodList.Insert;
    var i, j := f.x / SECTOR_SIZE, f.y / SECTOR_SIZE;
    if InMap(i, j) && Index(i, j) in o.s.sbb {
      var k := Index(i, j);
      AllInserted(o.food, k, f);
      assert multiset(o.s.spawn + [f]) == multiset(o.s.spawn) + multiset{f};
    }
  }

  lemma AllInserted(food: FoodMap, k: nat, f: Food)
    requires FoodOk(food) && k < SECTORS
    ensures All(food[k := FoodList.Insert(food[k], f)]) == All(food) + multiset{f}
  {
    hide All, FoodList.Insert;
    AllReplaced(food, k, FoodList.Insert(food[k], f));
    var a, b, c := All(food[k := FoodList.Insert(food[k], f)]), multiset(food[k]), All(food);
    forall x
      ensures a[x] == (c + multiset{f})[x]
    {
      assert (a + b)[x] == (c + (b + multiset{f}))[x];
    }
  }

  lemma {:induction false} DropAll(o: Pair, count: nat)
    requires FoodOk(o.food)
    ensures var r := DropTail(o, count); All(r.food) + multiset(o.s.spawn) == All(o.food) + multiset(r.s.spawn)
  {
    hide All, SpawnFood, FoodOk;
    if count > 0 {
      DropAll(o, count - 1);
      var p := DropTail(o, count - 1);
      SpawnAll(p, TailDrop(p.s));
      Chain(All(DropTail(o, count).food), All(p.food), All(o.food),
            multiset(o.s.spawn), multiset(p.s.spawn), multiset(DropTail(o, count).s.spawn));
    }
  }

  lemma Chain<T>(a2: multiset<T>, a1: multiset<T>, a0: multiset<T>, s0: multiset<T>, s1: multiset<T>, s2: multiset<T>)
    requires a1 + s0 == a0 + s1
    ensures a2 + s1 == a1 + s2 ==> a2 + s0 == a0 + s2
    ensures a2 == a1 && s2 == s1 ==> a2 + s0 == a0 + s2
  {
    if a2 + s1 == a1 + s2 {
      forall x
        ensures (a2 + s0)[x] == (a0 + s2)[x]
      {
        assert (a1 + s0)[x] == (a0 + s1)[x];
        assert (a2 + s1)[x] == (a1 + s2)[x];
      }
    }
  }

  lemma BurnAll(o: Pair)
    requires FoodOk(o.food)
    ensures All(Burn(o).food) + multiset(o.s.spawn) == All(o.food) + multiset(Burn(o).s.spawn)
  {
    hide All, FoodOk;
    if 33 > o.s.fullness {
      DropAll(o, 1 + (33 - o.s.fullness) / 100);
    }
  }

  /** One tick: what was eaten left the map, what was spawned is on it, and a tick that reports nothing changes no food. */
  lemma TickFood(s: SnakeState, food: FoodMap, dt: nat, inp: Input)
    requires FoodOk(food) && Calm(s)
    ensures var t := TickOne(s, food, dt, inp);
            && All(t.food) + multiset(t.s.eaten) == All(food) + multiset(t.s.spawn)
            && (!t.changed ==> t.food == food && t.s.eaten == [] && t.s.spawn == [])
  {
    hide Tick, All, AllInside, Watching, EatFood, Burn, Interval, FoodOk, Aimed, AdvancePhase, NewSpeed;
    if s.flags.dead {
      DeadStays(s, food, dt, inp);
    } else if Moves(s, dt) {
      AimedFrame(s, dt, inp);
      var a := Aimed(s, dt, inp);
      TickMoving(s, food, dt, inp);
      AdvanceFrame(a, dt, inp.dir);
      var p := Pair(AdvancePhase(a, dt, inp.dir), food);
      var o := EatPhase(a, food, dt, inp.dir);
      EatAll(p);
      EatFrame(p);
      BurnAll(o);
      BurnFrame(o);
      CalmFresh(s);
      ThroughMeal(All(BurnPhase(a, food, dt, inp.dir).food), All(o.food), All(food), multiset(o.s.eaten),
                  multiset(BurnPhase(a, food, dt, inp.dir).s.spawn));
    } else {
      TickStill(s, food, dt, inp);
      TickIdle(s, food, dt, inp);
    }
  }

  lemma CalmFresh(s: SnakeState)
    requires Calm(s)
    ensures s.eaten == [] && s.spawn == []
  {
    hide AllInside, Watching;
  }

  lemma ThroughMeal<T>(a2: multiset<T>, a1: multiset<T>, a0: multiset<T>, e: multiset<T>, s: multiset<T>)
    requires a1 + e == a0 && a2 == a1 + s
    ensures a2 + e == a0 + s
  {
  }

  // ---------------------------------------------------------------- all ticks

  ghost function EatenBy(snakes: SnakeMap, list: seq<nat>): multiset<Food> {
    if list == [] then multiset{}
    else
      var id := list[|list| - 1];
      EatenBy(snakes, list[..|list| - 1]) + (if id in snakes then multiset(snakes[id].eaten) else multiset{})
  }

  ghost function SpawnedBy(snakes: SnakeMap, list: seq<nat>): multiset<Food> {
    if list == [] then multiset{}
    else
      var id := list[|list| - 1];
      SpawnedBy(snakes, list[..|list| - 1]) + (if id in snakes then multiset(snakes[id].spawn) else multiset{})
  }

  lemma {:induction false} SameMeals(a: SnakeMap, b: SnakeMap, list: seq<nat>)
    requires forall id :: id in list ==> id in a && id in b && a[id].eaten == b[id].eaten && a[id].spawn == b[id].spawn
    ensures EatenBy(a, list) == EatenBy(b, list) && SpawnedBy(a, list) == SpawnedBy(b, list)
  {
    if list != [] {
      SameMeals(a, b, list[..|list| - 1]);
      assert list[|list| - 1] in list;
    }
  }

  lemma MoreMeals(snakes: SnakeMap, list: seq<nat>, id: nat, s: SnakeState)
    requires id !in list && forall j :: j in list ==> j in snakes
    ensures EatenBy(snakes[id := s], list) == EatenBy(snakes, list)
    ensures SpawnedBy(snakes[id := s], list) == SpawnedBy(snakes, list)
    ensures EatenBy(snakes[id := s], list + [id]) == EatenBy(snakes, list) + multiset(s.eaten)
    ensures SpawnedBy(snakes[id := s], list + [id]) == SpawnedBy(snakes, list) + multiset(s.spawn)
  {
    SameMeals(snakes[id := s], snakes, list);
    assert (list + [id])[..|list|] == list;
  }

  lemma {:induction false} TickAllFood(snakes: SnakeMap, food: FoodMap, dt: nat, env: Env, n: nat)
    requires EnvOk(env, snakes) && AllCalm(snakes) && FoodOk(food) && AllSizesOk(food) && dt <= 517 && n <= |env.order|
    ensures var t := TickAll(snakes, food, dt, env, n);
            All(t.food) + EatenBy(t.snakes, t.changes) == All(food) + SpawnedBy(t.snakes, t.changes)
  {
    hide TickOne, Calm, Halfway, AllSizesOk, FoodOk, EnvOk, TickedUpTo, AllCalm, All, EatenBy, SpawnedBy;
    if n > 0 {
      TickAllFood(snakes, food, dt, env, n - 1);
      TickAllHalfway(snakes, food, dt, env, n - 1);
      var t, id := TickAll(snakes, food, dt, env, n - 1), env.order[n - 1];
      FoodMirror.TickedTurn(snakes, env, n - 1, t);
      FoodMirror.CalmId(snakes, id);
      var r := TickOne(snakes[id], t.food, dt, env.inputs(id));
      TickFood(snakes[id], t.food, dt, env.inputs(id));
      MoreMeals(t.snakes, t.changes, id, r.s);
      AddUp(All(r.food), All(t.food), All(food), multiset(r.s.eaten), multiset(r.s.spawn),
            EatenBy(t.snakes, t.changes), SpawnedBy(t.snakes, t.changes));
    } else {
      NoMeals(snakes);
    }
  }

  lemma NoMeals(snakes: SnakeMap)
    ensures EatenBy(snakes, []) == multiset{} && SpawnedBy(snakes, []) == multiset{}
  {
  }

  lemma AddUp<T>(a2: multiset<T>, a1: multiset<T>, a0: multiset<T>, e: multiset<T>, s: multiset<T>, es: multiset<T>, ss: multiset<T>)
    requires a2 + e == a1 + s && a1 + es == a0 + ss
    ensures a2 + (es + e) == a0 + (ss + s)
  {
    forall x
      ensures (a2 + (es + e))[x] == (a0 + (ss + s))[x]
    {
      assert (a2 + e)[x] == (a1 + s)[x];
      assert (a1 + es)[x] == (a0 + ss)[x];
    }
  }

  // ---------------------------------------------------------------- deaths

  /** What the dying snakes of the list leave. */
  ghost function LeftBy(snakes: SnakeMap, list: seq<nat>, env: Env): multiset<Food> {
    if list == [] then multiset{}
    else
      var id := list[|list| - 1];
      LeftBy(snakes, list[..|list| - 1], env)
      + (if id in snakes && snakes[id].flags.dying && !snakes[id].flags.dead then multiset(FoodsOf(Remains(snakes[id], env)))
         else multiset{})
  }

  lemma {:induction false} FallenAll(food: FoodMap, d: seq<Drop>)
    requires FoodOk(food) && forall i :: 0 <= i < |d| ==> d[i].sector < SECTORS
    ensures All(Fallen(food, d)) == All(food) + multiset(FoodsOf(d))
  {
    hide All, Fallen, FoodsOf;
    if d == [] {
      FoodMirror.NoneFallen(food);
      NoFoods();
    } else {
      var front, last := d[..|d| - 1], d[|d| - 1];
      assert d == front + [last];
      FallenAll(food, front);
      OneMore(food, front, last);
      AllInserted(Fallen(food, front), last.sector, last.food);
      assert multiset(FoodsOf(front) + [last.food]) == multiset(FoodsOf(front)) + multiset{last.food};
    }
  }

  lemma NoFoods()
    ensures multiset(FoodsOf([])) == multiset{}
  {
  }

  lemma TurnFood(b: Broadcast, id: nat, env: Env)
    requires FoodOk(b.sv.food) && id in b.sv.snakes
    ensures var s := b.sv.snakes[id];
            All(TakeTurn(b, id, env).sv.food)
            == All(b.sv.food) + (if s.flags.dying && !s.flags.dead then multiset(FoodsOf(Remains(s, env))) else multiset{})
  {
    hide All, FoodOk, Fallen, FoodsOf, Remains, Tell, PublicPackets, ObituaryPackets, PointOfView, Reported, Buried;
    FallenAll(b.sv.food, Remains(b.sv.snakes[id], env));
  }

  lemma {:induction false} TurnsFood(mid: Server, changes: seq<nat>, env: Env, n: nat)
    requires FoodOk(mid.food) && n <= |changes| && Distinct(changes)
    requires forall i :: 0 <= i < |changes| ==> changes[i] in mid.snakes
    ensures All(Turns(Broadcast(mid, []), changes, env, n).sv.food) == All(mid.food) + LeftBy(mid.snakes, changes[..n], env)
  {
    hide All, FoodOk, FoodsOf, Remains, TakeTurn, TurnedBy;
    if n > 0 {
      TurnsFood(mid, changes, env, n - 1);
      TurnsTable(mid, changes, env, n - 1);
      var b := Turns(Broadcast(mid, []), changes, env, n - 1);
      FoodMirror.Unturned(mid, changes, n - 1, b);
      TurnFood(b, changes[n - 1], env);
      assert changes[..n][..n - 1] == changes[..n - 1];
    } else {
      assert changes[..0] == [];
    }
  }

  /** The food ledger of a timer step: the food after it, and what was eaten in it, are the food before it, what
      boosting snakes dropped, and what the buried snakes left, each of them once. */
  lemma TimerFoods(sv: Server, dt: nat, env: Env)
    requires Good(sv) && StepOk(sv, dt, env)
    ensures var mid, changes := MidOf(sv, dt, env), ChangesOf(sv, dt, env);
            && All(Timer(sv, dt, env).food) + EatenBy(mid.snakes, changes)
               == All(sv.food) + SpawnedBy(mid.snakes, changes) + LeftBy(mid.snakes, changes, env)
            && Distinct(changes)
            && (forall id :: id in Buries(sv, dt, env)
                  <==> id in changes && id in mid.snakes && mid.snakes[id].flags.dying && !mid.snakes[id].flags.dead)
  {
    hide FoodOk, AllSizesOk, EnvOk, AllCalm, All, Turns, Timer, EatenBy, SpawnedBy, LeftBy, Linked, Synced, Introduced, After, MidOf, ChangesOf;
    MidFacts(sv, dt, env);
    var mid, changes := MidOf(sv, dt, env), ChangesOf(sv, dt, env);
    MidFood(sv, dt, env);
    TurnsFood(mid, changes, env, |changes|);
    assert changes[..|changes|] == changes;
    FoodMirror.TimerFood(sv, dt, env);
    Regroup(All(Timer(sv, dt, env).food), All(mid.food), All(sv.food),
            EatenBy(mid.snakes, changes), SpawnedBy(mid.snakes, changes), LeftBy(mid.snakes, changes, env));
  }

  lemma Regroup<T>(a2: multiset<T>, a1: multiset<T>, a0: multiset<T>, e: multiset<T>, s: multiset<T>, d: multiset<T>)
    requires a2 == a1 + d && a1 + e == a0 + s
    ensures a2 + e == a0 + s + d
  {
    forall x
      ensures (a2 + e)[x] == (a0 + s + d)[x]
    {
      assert (a1 + e)[x] == (a0 + s)[x];
    }
  }

  lemma MidFood(sv: Server, dt: nat, env: Env)
    requires StepOk(sv, dt, env)
    ensures var mid, changes := MidOf(sv, dt, env), ChangesOf(sv, dt, env);
            All(mid.food) + EatenBy(mid.snakes, changes) == All(sv.food) + SpawnedBy(mid.snakes, changes)
  {
    hide FoodOk, AllSizesOk, EnvOk, AllCalm, All, TickAll, MarkAll, EatenBy, SpawnedBy, TickedUpTo;
    var whole := WholeFrames(sv.ticks, dt);
    if whole > 0 {
      TickAllFood(sv.snakes, sv.food, whole, env, |env.order|);
      TickAllHalfway(sv.snakes, sv.food, whole, env, |env.order|);
      var t := TickAll(sv.snakes, sv.food, whole, env, |env.order|);
      FoodMirror.ChangedHere(sv.snakes, env, t);
      MarkedMeals(t.snakes, t.changes);
    } else {
      NoMeals(sv.snakes);
    }
  }

  lemma MarkedMeals(snakes: SnakeMap, changes: seq<nat>)
    requires forall id :: id in changes ==> id in snakes
    ensures EatenBy(MarkAll(snakes, changes), changes) == EatenBy(snakes, changes)
    ensures SpawnedBy(MarkAll(snakes, changes), changes) == SpawnedBy(snakes, changes)
  {
    hide Doomed;
    SameMeals(MarkAll(snakes, changes), snakes, changes);
  }
}
