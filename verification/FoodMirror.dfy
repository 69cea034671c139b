/** Snapshot plus overlapping log: a session that gets a sector's food in the middle of a broadcast, and then
    every eat and spawn packet still to come, ends with exactly that sector's food. */
module FoodMirror {
  import opened Geometry
  import opened Config
  import opened Movement
  import opened Grid
  import opened FoodList
  import opened SnakeModel
  import opened SnakeLaws
  import opened Ticks
  import opened TickLaws
  import opened BodyLaws
  import opened DeathFood
  import opened WorldModel
  import opened Packets
  import opened ServerModel
  import opened StepLaws
  import opened MirrorLaws

  // ---------------------------------------------------------------- what a packet sequence says about a position

  datatype Verdict = Untouched | Present | Absent

  function Says(p: Packet, at: Pos): Verdict {
    match p
    case Eaten(_, f) => if PosOf(f) == at then Absent else Untouched
    case Spawned(f) => if PosOf(f) == at then Present else Untouched
    case _ => Untouched
  }

  /** The last word of the sequence about a position. */
  function Last(ps: seq<Packet>, at: Pos): Verdict {
    if ps == [] then Untouched
    else
      var later := Last(ps[1..], at);
      if later != Untouched then later else Says(ps[0], at)
  }

  lemma {:induction false} LastConcat(a: seq<Packet>, b: seq<Packet>, at: Pos)
    ensures Last(a + b, at) == if Last(b, at) != Untouched then Last(b, at) else Last(a, at)
  {
    if a == [] {
      assert a + b == b;
    } else {
      LastConcat(a[1..], b, at);
      assert (a + b)[1..] == a[1..] + b;
    }
  }

  // ---------------------------------------------------------------- food and its positions

  /** Some item of the list lies at this position. */
  predicate Has(s: seq<Food>, at: Pos) {
    exists i :: 0 <= i < |s| && PosOf(s[i]) == at
  }

  /** Some sector holds food at this position. */
  ghost predicate Holds(food: FoodMap, at: Pos) {
    exists k :: 0 <= k < |food| && Has(food[k], at)
  }

  /** At most one item of the list lies at this position. */
  ghost predicate OneAt(s: seq<Food>, at: Pos) {
    forall i, j :: 0 <= i < j < |s| ==> PosOf(s[i]) != at || PosOf(s[j]) != at
  }

  /** Sorted lists with at most one item at this position, filed in the sector the position lies in. */
  ghost predicate CleanAt(food: FoodMap, at: Pos) {
    FoodOk(food) && forall k :: 0 <= k < SECTORS ==> OneAt(food[k], at) && (Has(food[k], at) ==> Home(at) == k)
  }

  /** The packets account for the change from one food map to the other at this position. */
  ghost predicate Explains(ps: seq<Packet>, before: FoodMap, after: FoodMap, at: Pos) {
    && (Last(ps, at) == Untouched ==> (Holds(before, at) <==> Holds(after, at)))
    && (Last(ps, at) == Present ==> Holds(after, at))
    && (Last(ps, at) == Absent ==> !Holds(after, at))
  }

  lemma ExplainsConcat(a: seq<Packet>, b: seq<Packet>, f0: FoodMap, f1: FoodMap, f2: FoodMap, at: Pos)
    requires Explains(a, f0, f1, at) && Explains(b, f1, f2, at)
    ensures Explains(a + b, f0, f2, at)
  {
    hide Holds;
    LastConcat(a, b, at);
  }

  lemma ExplainsNothing(f: FoodMap, at: Pos)
    ensures Explains([], f, f, at)
  {
    hide Holds;
  }

  /** A clean position can be held only at home. */
  lemma HeldAtHome(food: FoodMap, at: Pos)
    requires CleanAt(food, at)
    ensures |food| == SECTORS
    ensures Holds(food, at) <==> 0 <= Home(at) && Has(food[Home(at)], at)
  {
    hide Home, OneAt, Has;
    HomeBound(at);
  }

  lemma HomeBound(at: Pos)
    ensures -1 <= Home(at) < SECTORS
  {
  }

  lemma CleanSize(food: FoodMap, at: Pos)
    requires CleanAt(food, at)
    ensures FoodOk(food) && |food| == SECTORS
  {
  }

  // ---------------------------------------------------------------- eating

  lemma HasConcat(a: seq<Food>, b: seq<Food>, at: Pos)
    ensures Has(a + b, at) <==> Has(a, at) || Has(b, at)
  {
    if Has(a, at) {
      var i :| 0 <= i < |a| && PosOf(a[i]) == at;
      assert (a + b)[i] == a[i];
    }
    if Has(b, at) {
      var i :| 0 <= i < |b| && PosOf(b[i]) == at;
      assert (a + b)[|a| + i] == b[i];
    }
  }

  lemma {:induction false} LastEaten(id: nat, foods: seq<Food>, at: Pos)
    ensures Last(FoodPackets(id, foods, []), at) == if Has(foods, at) then Absent else Untouched
  {
    var ps := FoodPackets(id, foods, []);
    if foods == [] {
      assert ps == [];
    } else {
      LastEaten(id, foods[1..], at);
      assert ps[1..] == FoodPackets(id, foods[1..], []);
      HasConcat([foods[0]], foods[1..], at);
      assert foods == [foods[0]] + foods[1..];
      assert Has([foods[0]], at) <==> PosOf([foods[0]][0]) == at;
    }
  }

  lemma {:induction false} LastSpawned(id: nat, foods: seq<Food>, at: Pos)
    ensures Last(FoodPackets(id, [], foods), at) == if Has(foods, at) then Present else Untouched
  {
    var ps := FoodPackets(id, [], foods);
    if foods == [] {
      assert ps == [];
    } else {
      LastSpawned(id, foods[1..], at);
      assert ps[1..] == FoodPackets(id, [], foods[1..]);
      HasConcat([foods[0]], foods[1..], at);
      assert foods == [foods[0]] + foods[1..];
      assert Has([foods[0]], at) <==> PosOf([foods[0]][0]) == at;
    }
  }

  /** Removing the middle of a list removes the position exactly if its one item lies there. */
  lemma MiddleRemoved(s: seq<Food>, l: nat, r: nat, at: Pos)
    requires OneAt(s, at) && l <= r <= |s|
    ensures Has(s[..l] + s[r..], at) <==> Has(s, at) && !Has(s[l..r], at)
  {
    assert s == s[..l] + (s[l..r] + s[r..]);
    HasConcat(s[..l], s[l..r] + s[r..], at);
    HasConcat(s[l..r], s[r..], at);
    HasConcat(s[..l], s[r..], at);
    if Has(s[l..r], at) {
      var j :| 0 <= j < r - l && PosOf(s[l..r][j]) == at;
      assert s[l + j] == s[l..r][j];
    }
  }

  lemma RestOne(s: seq<Food>, l: nat, r: nat, at: Pos)
    requires OneAt(s, at) && l <= r <= |s|
    ensures OneAt(s[..l] + s[r..], at)
  {
    var rest := s[..l] + s[r..];
    assert forall i :: 0 <= i < |rest| ==> rest[i] == s[if i < l then i else i + r - l];
  }

  /** Lists with the same items hold the same positions. */
  lemma SameItems(a: seq<Food>, b: seq<Food>, at: Pos)
    requires multiset(a) == multiset(b)
    ensures Has(a, at) <==> Has(b, at)
  {
    if Has(a, at) {
      var i :| 0 <= i < |a| && PosOf(a[i]) == at;
      assert a[i] in multiset(b);
      var j :| 0 <= j < |b| && b[j] == a[i];
    }
    if Has(b, at) {
      var i :| 0 <= i < |b| && PosOf(b[i]) == at;
      assert b[i] in multiset(a);
      var j :| 0 <= j < |a| && a[j] == b[i];
    }
  }

  lemma RestClean(food: FoodMap, k: nat, l: nat, r: nat, at: Pos)
    requires CleanAt(food, at) && k < |food| && l <= r <= |food[k]|
    requires SortedX(food[k][..l] + food[k][r..])
    ensures CleanAt(food[k := food[k][..l] + food[k][r..]], at)
  {
    hide Home, Has;
    RestOne(food[k], l, r, at);
    MiddleRemoved(food[k], l, r, at);
  }

  /** The eat packets of a sweep account for it, and the position stays clean. */
  lemma SweepExplained(food: FoodMap, k: nat, x: int, near: Food -> bool, id: nat, at: Pos)
    requires CleanAt(food, at) && k < |food|
    ensures |food| == SECTORS && SortedX(food[k])
    ensures var sweep := Eat(food[k], x, near);
            CleanAt(food[k := sweep.rest], at) && Explains(FoodPackets(id, sweep.eaten, []), food, food[k := sweep.rest], at)
  {
    hide Home, Eat, Has, Holds, CleanAt, OneAt, Last;
    CleanSize(food, at);
    var s := food[k];
    var sweep := Eat(s, x, near);
    EatExactly(s, x, near);
    EatConserves(s, x, near);
    var l, r :| 0 <= l <= r <= |s| && sweep.rest == s[..l] + s[r..] && multiset(sweep.eaten) == multiset(s[l..r]);
    RestClean(food, k, l, r, at);
    SweepAt(food, k, sweep, l, r, id, at);
  }

  lemma SweepAt(food: FoodMap, k: nat, sweep: Sweep, l: nat, r: nat, id: nat, at: Pos)
    requires CleanAt(food, at) && k < |food| && CleanAt(food[k := sweep.rest], at) && l <= r <= |food[k]|
    requires sweep.rest == food[k][..l] + food[k][r..] && multiset(sweep.eaten) == multiset(food[k][l..r])
    ensures var last := Last(FoodPackets(id, sweep.eaten, []), at);
            && last != Present
            && (last == Untouched ==> (Holds(food, at) <==> Holds(food[k := sweep.rest], at)))
            && (last == Absent ==> !Holds(food[k := sweep.rest], at))
  {
    hide Home, Has, Holds, SortedX;
    LastEaten(id, sweep.eaten, at);
    SameItems(sweep.eaten, food[k][l..r], at);
    MiddleRemoved(food[k], l, r, at);
    HomeBound(at);
    HeldAtHome(food, at);
    HeldAtHome(food[k := sweep.rest], at);
    if Has(sweep.eaten, at) {
      PartHas(food[k], l, r, at);
    }
  }

  lemma PartHas(s: seq<Food>, l: nat, r: nat, at: Pos)
    requires l <= r <= |s| && Has(s[l..r], at)
    ensures Has(s, at)
  {
    var j :| 0 <= j < r - l && PosOf(s[l..r][j]) == at;
    assert s[l + j] == s[l..r][j];
  }

  // ---------------------------------------------------------------- spawning

  /** One item inserted: if it lies at the position, that is its home and was free; the spawn packet accounts for it. */
  lemma InsertExplained(food: FoodMap, k: nat, f: Food, at: Pos)
    requires CleanAt(food, at) && k < |food|
    requires PosOf(f) == at ==> Home(at) == k && !Holds(food, at)
    ensures |food| == SECTORS && SortedX(food[k])
    ensures var after := food[k := FoodList.Insert(food[k], f)];
            CleanAt(after, at) && (Holds(after, at) <==> Holds(food, at) || at == PosOf(f))
  {
    hide Home, Has, Holds, OneAt, FoodList.Insert;
    var s := food[k];
    var r := FoodList.Insert(s, f);
    InsertHas(s, f, at);
    if PosOf(f) == at {
      HeldAtHome(food, at);
    }
    InsertOne(s, f, at);
    HeldAtHome(food, at);
    HomeBound(at);
    HeldAtHome(food[k := r], at);
  }

  lemma InsertHas(s: seq<Food>, f: Food, at: Pos)
    requires SortedX(s)
    ensures Has(FoodList.Insert(s, f), at) <==> Has(s, at) || at == PosOf(f)
  {
    hide Has, FoodList.Insert;
    var r := FoodList.Insert(s, f);
    assert multiset(s + [f]) == multiset(r);
    SameItems(s + [f], r, at);
    HasConcat(s, [f], at);
    HasOne(f, at);
  }

  lemma InsertOne(s: seq<Food>, f: Food, at: Pos)
    requires SortedX(s) && OneAt(s, at) && (PosOf(f) == at ==> !Has(s, at))
    ensures OneAt(FoodList.Insert(s, f), at)
  {
    hide Closest;
    var p := Closest(s, f.x);
    var r := s[..p] + [f] + s[p..];
    assert r == FoodList.Insert(s, f);
    assert forall i :: 0 <= i < |r| ==> r[i] == if i < p then s[i] else if i == p then f else s[i - 1];
  }

  lemma HasOne(f: Food, at: Pos)
    ensures Has([f], at) <==> at == PosOf(f)
  {
    assert PosOf([f][0]) == PosOf(f);
  }

  // ---------------------------------------------------------------- one tick

  /** If this tick spawns food at the position, the position is free at that moment. */
  ghost predicate FreshTick(s: SnakeState, food: FoodMap, dt: nat, inp: Input, at: Pos)
    requires FoodOk(food)
  {
    AimedFrame(s, dt, inp);
    var spawn := TickOne(s, food, dt, inp).s.spawn;
    !s.flags.dead && !s.flags.dying && Able(s) && Moves(s, dt) ==>
      (forall f :: f in spawn && PosOf(f) == at ==> !Holds(EatPhase(Aimed(s, dt, inp), food, dt, inp.dir).food, at))
  }

  lemma EatExplained(o: Pair, id: nat, at: Pos)
    requires CleanAt(o.food, at) && o.s.eaten == []
    ensures FoodOk(o.food) && CleanAt(EatFood(o).food, at)
    ensures Explains(FoodPackets(id, EatFood(o).s.eaten, []), o.food, EatFood(o).food, at)
  {
    hide Trunc, Reach, InRange, Eat, OneAt, Explains, Last;
    CleanSize(o.food, at);
    var h := Head(o.s);
    var i, j, r := Trunc(h.x) / SECTOR_SIZE, Trunc(h.y) / SECTOR_SIZE, Reach(|o.s.parts|);
    if InMap(i, j) {
      var k, near := Index(i, j), InRange(Trunc(h.x), Trunc(h.y), r * r);
      SweepExplained(o.food, k, Trunc(h.x), near, id, at);
      GulpFrame(o.s, Eat(o.food[k], Trunc(h.x), near).eaten);
      assert [] + Eat(o.food[k], Trunc(h.x), near).eaten == Eat(o.food[k], Trunc(h.x), near).eaten;
    } else {
      assert FoodPackets(id, [], []) == [];
      ExplainsNothing(o.food, at);
    }
  }

  /** Boosting spawns at most one item; if it lands on a free position its packet accounts for it. */
  lemma BurnExplained(o: Pair, id: nat, at: Pos)
    requires CleanAt(o.food, at) && FoodOk(o.food) && Fed(o.s) && o.s.spawn == []
    requires forall f :: f in Burn(o).s.spawn && PosOf(f) == at ==> !Holds(o.food, at)
    ensures CleanAt(Burn(o).food, at) && Explains(FoodPackets(id, [], Burn(o).s.spawn), o.food, Burn(o).food, at)
  {
    hide Holds, OneAt, Trunc, Explains;
    assert FoodPackets(id, [], []) == [];
    ExplainsNothing(o.food, at);
    if o.s.accel && |o.s.parts| > 3 && 33 > o.s.fullness {
      var f := TailDrop(o.s);
      assert Burn(o).s.spawn == SpawnFood(o, f).s.spawn && Burn(o).food == SpawnFood(o, f).food by { BurnIsOneDrop(o); }
      var i, j := f.x / SECTOR_SIZE, f.y / SECTOR_SIZE;
      if InMap(i, j) && Index(i, j) in o.s.sbb {
        CleanSize(o.food, at);
        assert [] + [f] == [f];
        assert f in Burn(o).s.spawn;
        InsertExplained(o.food, Index(i, j), f, at);
        OneSpawn(id, f, o.food, SpawnFood(o, f).food, at);
      }
    }
  }

  lemma BurnIsOneDrop(o: Pair)
    requires FoodOk(o.food) && Fed(o.s) && o.s.accel && |o.s.parts| > 3 && 33 > o.s.fullness
    ensures Burn(o).s.spawn == SpawnFood(o, TailDrop(o.s)).s.spawn && Burn(o).food == SpawnFood(o, TailDrop(o.s)).food
  {
    assert DropTail(o, 0) == o;
    assert DropTail(o, 1) == DropOne(o);
  }

  lemma OneSpawn(id: nat, f: Food, before: FoodMap, after: FoodMap, at: Pos)
    requires Holds(after, at) <==> Holds(before, at) || at == PosOf(f)
    ensures Explains(FoodPackets(id, [], [f]), before, after, at)
  {
    hide Holds, Has;
    LastSpawned(id, [f], at);
    HasOne(f, at);
  }

  lemma PacketsSplit(id: nat, eaten: seq<Food>, spawn: seq<Food>)
    ensures FoodPackets(id, eaten, spawn) == FoodPackets(id, eaten, []) + FoodPackets(id, [], spawn)
  {
  }

  /** The packets of one snake's tick, eaten first and spawned after, account for what the tick did to the food. */
  lemma TickExplained(s: SnakeState, food: FoodMap, dt: nat, inp: Input, at: Pos)
    requires Calm(s) && CleanAt(food, at) && AllSizesOk(food) && FoodOk(food) && dt <= 517 && FreshTick(s, food, dt, inp, at)
    ensures var t := TickOne(s, food, dt, inp);
            && CleanAt(t.food, at)
            && (t.changed ==> Explains(FoodPackets(s.id, t.s.eaten, t.s.spawn), food, t.food, at))
            && (!t.changed ==> t.food == food)
  {
    hide Tick, Explains, CleanAt, FoodOk, AllSizesOk, Sane, AllInside, Watching, EatFood, Burn, Holds, Interval;
    if s.flags.dead {
      DeadStays(s, food, dt, inp);
      return;
    }
    CalmAble(s);
    if Moves(s, dt) {
      MovingExplained(s, food, dt, inp, at);
    } else {
      TickStill(s, food, dt, inp);
      TickIdle(s, food, dt, inp);
      assert FoodPackets(s.id, [], []) == [];
      ExplainsNothing(food, at);
    }
  }

  lemma CalmAble(s: SnakeState)
    requires Calm(s)
    ensures Able(s) && Fed(s) && Sane(s) && (!s.flags.dead ==> Quiet(s) && !s.flags.dying)
  {
    hide AllInside, Watching;
  }

  lemma MovingExplained(s: SnakeState, food: FoodMap, dt: nat, inp: Input, at: Pos)
    requires Calm(s) && !s.flags.dead && CleanAt(food, at) && AllSizesOk(food) && FoodOk(food) && FreshTick(s, food, dt, inp, at)
    requires Able(s) && Fed(s) && Quiet(s) && Moves(s, dt)
    ensures var t := Tick(s, food, dt, inp);
            && t == TickOne(s, food, dt, inp) && t.changed && CleanAt(t.food, at)
            && Explains(FoodPackets(s.id, t.s.eaten, t.s.spawn), food, t.food, at)
  {
    hide Tick, Explains, CleanAt, FoodOk, AllSizesOk, AllInside, Watching, Holds, Interval, Aimed, NewSpeed, Frames, Distance, AdvancePhase, EatFood, Burn;
    AimedFrame(s, dt, inp);
    var a := Aimed(s, dt, inp);
    TickMoving(s, food, dt, inp);
    AdvanceFrame(a, dt, inp.dir);
    var p := Pair(AdvancePhase(a, dt, inp.dir), food);
    AdvancedFed(a, dt, inp.dir);
    var o := EatPhase(a, food, dt, inp.dir);
    EatLedger(p);
    EatFrame(p);
    EatExplained(p, s.id, at);
    BurnFrame(o);
    BurnExplained(o, s.id, at);
    var t := Tick(s, food, dt, inp);
    PacketsSplit(s.id, t.s.eaten, t.s.spawn);
    ExplainsConcat(FoodPackets(s.id, t.s.eaten, []), FoodPackets(s.id, [], t.s.spawn), food, o.food, t.food, at);
  }

  lemma AdvancedFed(a: SnakeState, dt: nat, dir: Body)
    requires Fed(a) && 0 < a.speed <= BOOST_SPEED
    ensures Fed(AdvancePhase(a, dt, dir))
  {
    AdvanceFrame(a, dt, dir);
    hide AdvancePhase, Follow;
  }

  // ---------------------------------------------------------------- all ticks of a step

  /** The food packets of the snakes of a list, in order. */
  ghost function LogOf(snakes: SnakeMap, list: seq<nat>): seq<Packet> {
    if list == [] then []
    else
      var id := list[|list| - 1];
      LogOf(snakes, list[..|list| - 1])
      + (if id in snakes then FoodPackets(id, snakes[id].eaten, snakes[id].spawn) else [])
  }

  lemma {:induction false} LogSame(a: SnakeMap, b: SnakeMap, list: seq<nat>)
    requires forall id :: id in list ==>
               id in a && id in b && a[id].eaten == b[id].eaten && a[id].spawn == b[id].spawn
    ensures LogOf(a, list) == LogOf(b, list)
  {
    if list != [] {
      LogSame(a, b, list[..|list| - 1]);
      assert list[|list| - 1] in list;
    }
  }

  lemma {:induction false} LogCons(snakes: SnakeMap, id: nat, rest: seq<nat>)
    requires id in snakes
    ensures LogOf(snakes, [id] + rest) == FoodPackets(id, snakes[id].eaten, snakes[id].spawn) + LogOf(snakes, rest)
  {
    var list := [id] + rest;
    if rest == [] {
      assert list == [id] && list[..0] == [];
      assert LogOf(snakes, []) == [];
    } else {
      LogCons(snakes, id, rest[..|rest| - 1]);
      assert list[..|list| - 1] == [id] + rest[..|rest| - 1];
    }
  }

  /** No tick of the pass spawns food at the position while it is held. */
  ghost predicate FreshTicks(snakes: SnakeMap, food: FoodMap, dt: nat, env: Env, at: Pos)
    requires FoodOk(food)
  {
    forall n :: 0 <= n < |env.order| ==>
      var t := TickAll(snakes, food, dt, env, n);
      env.order[n] in t.snakes ==> FreshTick(t.snakes[env.order[n]], t.food, dt, env.inputs(env.order[n]), at)
  }

  /** The tick order is the log order: the packets of all changed snakes account for all ticks together. */
  lemma {:induction false} TickAllExplained(snakes: SnakeMap, food: FoodMap, dt: nat, env: Env, n: nat, at: Pos)
    requires EnvOk(env, snakes) && AllCalm(snakes) && FoodOk(food) && AllSizesOk(food) && dt <= 517
    requires CleanAt(food, at) && FreshTicks(snakes, food, dt, env, at) && n <= |env.order|
    ensures var t := TickAll(snakes, food, dt, env, n);
            CleanAt(t.food, at) && Explains(LogOf(t.snakes, t.changes), food, t.food, at)
  {
    hide TickOne, Calm, Halfway, AllSizesOk, FoodOk, CleanAt, Explains, FreshTick, EnvOk, TickedUpTo, LogOf, AllCalm, FoodPackets, FreshTicks;
    if n > 0 {
      TickAllExplained(snakes, food, dt, env, n - 1, at);
      TickAllHalfway(snakes, food, dt, env, n - 1);
      var t, id := TickAll(snakes, food, dt, env, n - 1), env.order[n - 1];
      TickedTurn(snakes, env, n - 1, t);
      var r := TickOne(snakes[id], t.food, dt, env.inputs(id));
      CalmId(snakes, id);
      FreshTurn(snakes, food, dt, env, n - 1, at);
      TickExplained(snakes[id], t.food, dt, env.inputs(id), at);
      LogMore(t.snakes, t.changes, id, r.s);
      if r.changed {
        ExplainsConcat(LogOf(t.snakes, t.changes), FoodPackets(id, r.s.eaten, r.s.spawn), food, t.food, r.food, at);
      }
    } else {
      LogNone(snakes);
      ExplainsNothing(food, at);
    }
  }

  lemma FreshTurn(snakes: SnakeMap, food: FoodMap, dt: nat, env: Env, n: nat, at: Pos)
    requires FoodOk(food) && FreshTicks(snakes, food, dt, env, at) && n < |env.order|
    ensures var t := TickAll(snakes, food, dt, env, n);
            env.order[n] in t.snakes ==> FreshTick(t.snakes[env.order[n]], t.food, dt, env.inputs(env.order[n]), at)
  {
    hide TickAll, FreshTick, FoodOk;
  }

  lemma LogNone(snakes: SnakeMap)
    ensures LogOf(snakes, []) == []
  {
  }

  lemma LogMore(snakes: SnakeMap, list: seq<nat>, id: nat, s: SnakeState)
    requires id !in list && forall j :: j in list ==> j in snakes
    ensures LogOf(snakes[id := s], list) == LogOf(snakes, list)
    ensures LogOf(snakes[id := s], list + [id]) == LogOf(snakes, list) + FoodPackets(id, s.eaten, s.spawn)
  {
    LogSame(snakes[id := s], snakes, list);
    assert (list + [id])[..|list|] == list;
  }

  lemma CalmId(snakes: SnakeMap, id: nat)
    requires AllCalm(snakes) && id in snakes
    ensures snakes[id].id == id && Calm(snakes[id])
  {
  }

  lemma TickedTurn(snakes: SnakeMap, env: Env, n: nat, t: TickedAll)
    requires EnvOk(env, snakes) && n < |env.order| && TickedUpTo(snakes, env, n, t)
    ensures env.order[n] in snakes && env.order[n] in t.snakes && t.snakes[env.order[n]] == snakes[env.order[n]]
    ensures env.order[n] !in t.changes && AllSizesOk(t.food) && forall id :: id in t.changes ==> id in t.snakes
  {
    hide Halfway, AllSizesOk, Dot;
    assert env.order[n] in env.order;
    assert env.order[n] !in env.order[..n];
    forall id | id in t.changes
      ensures id in t.snakes
    {
      assert id in env.order[..n];
      assert id in env.order;
    }
  }

  lemma {:induction false} MarksKeepLog(snakes: SnakeMap, changes: seq<nat>, list: seq<nat>)
    requires forall id :: id in list ==> id in snakes
    ensures LogOf(MarkAll(snakes, changes), list) == LogOf(snakes, list)
  {
    hide Doomed;
    LogSame(MarkAll(snakes, changes), snakes, list);
  }

  // ---------------------------------------------------------------- a client in the middle of a broadcast

  /** With the packets `ps` still to come, the client is on its way to the food at this position: if the packets do
      not decide it, it is already right, exactly so if its sector is in view, and otherwise it will be right. */
  ghost predicate OnTheWay(c: Client, ps: seq<Packet>, food: FoodMap, at: Pos) {
    && (Last(ps, at) == Present ==> Holds(food, at))
    && (Last(ps, at) == Absent ==> !Holds(food, at))
    && (Last(ps, at) == Untouched ==>
          (at in c.food ==> Holds(food, at)) && (Home(at) in c.view && Holds(food, at) ==> at in c.food))
  }

  /** At a quiescent point: if the client knows food there it is there, and if it is there and in view it is known. */
  ghost predicate Mirrored(c: Client, food: FoodMap, at: Pos) {
    OnTheWay(c, [], food, at)
  }

  lemma StartOnTheWay(c: Client, ps: seq<Packet>, before: FoodMap, after: FoodMap, at: Pos)
    requires Mirrored(c, before, at) && Explains(ps, before, after, at)
    ensures OnTheWay(c, ps, after, at)
  {
    hide Holds, Home;
    assert Last([], at) == Untouched;
  }

  /** Receiving the next packet of the log keeps a client on its way. */
  lemma NextPacket(c: Client, p: Packet, ps: seq<Packet>, food: FoodMap, at: Pos)
    requires OnTheWay(c, [p] + ps, food, at) && (p.Eaten? || p.Spawned?)
    ensures OnTheWay(Apply(c, p), ps, food, at)
  {
    hide Holds, Home;
    assert ([p] + ps)[1..] == ps;
    assert Last([p] + ps, at) == if Last(ps, at) != Untouched then Last(ps, at) else Says(p, at);
  }

  ghost predicate FoodOnly(ps: seq<Packet>) {
    forall i :: 0 <= i < |ps| ==> ps[i].Eaten? || ps[i].Spawned?
  }

  lemma {:induction false} NextPackets(c: Client, a: seq<Packet>, ps: seq<Packet>, food: FoodMap, at: Pos)
    requires OnTheWay(c, a + ps, food, at) && FoodOnly(a)
    ensures OnTheWay(ApplyAll(c, a), ps, food, at)
  {
    hide OnTheWay, Apply;
    if a == [] {
      assert a + ps == ps;
    } else {
      var n := |a| - 1;
      assert a + ps == a[..n] + ([a[n]] + ps);
      NextPackets(c, a[..n], [a[n]] + ps, food, at);
      NextPacket(ApplyAll(c, a[..n]), a[n], ps, food, at);
    }
  }

  /** After any food packets a client knows of a position exactly what their last word about it says, and what it
      knew before if they say nothing. */
  lemma {:induction false} LastWord(c: Client, ps: seq<Packet>, at: Pos)
    requires FoodOnly(ps)
    ensures at in ApplyAll(c, ps).food <==> Last(ps, at) == Present || (Last(ps, at) == Untouched && at in c.food)
  {
    if ps != [] {
      var front, p := ps[..|ps| - 1], ps[|ps| - 1];
      LastWord(c, front, at);
      assert ps == front + [p];
      LastConcat(front, [p], at);
      LastOne(p, at);
    }
  }

  lemma LastOne(p: Packet, at: Pos)
    ensures Last([p], at) == Says(p, at)
  {
    assert [p][1..] == [];
  }

  /** Packets about neither food nor view leave a client where it is. */
  ghost predicate Neutral(ps: seq<Packet>) {
    forall i :: 0 <= i < |ps| ==>
      !ps[i].Eaten? && !ps[i].Spawned? && !ps[i].SetFood? && !ps[i].AddSector? && !ps[i].RemoveSector?
  }

  lemma {:induction false} NeutralApply(c: Client, ps: seq<Packet>)
    requires Neutral(ps)
    ensures ApplyAll(c, ps).food == c.food && ApplyAll(c, ps).view == c.view
  {
    if ps != [] {
      NeutralApply(c, ps[..|ps| - 1]);
    }
  }

  lemma OnlyFoodAndView(c: Client, d: Client, ps: seq<Packet>, food: FoodMap, at: Pos)
    requires c.food == d.food && c.view == d.view && OnTheWay(c, ps, food, at)
    ensures OnTheWay(d, ps, food, at)
  {
    hide Holds, Home;
  }

  /** The snapshot: sectors gained with their food as it is, sectors lost with theirs, in mid-broadcast. */
  lemma SnapshotOnTheWay(c: Client, s: SnakeState, ps: seq<Packet>, food: FoodMap, at: Pos)
    requires OnTheWay(c, ps, food, at) && CleanAt(food, at)
    ensures OnTheWay(PointOfView(c, s, food), ps, food, at)
  {
    hide Holds, Home, CleanAt, Last;
    ShownIs(food, s.newS, at);
  }

  lemma ShownIs(food: FoodMap, S: set<nat>, at: Pos)
    requires CleanAt(food, at)
    ensures at in Shown(food, S) <==> Home(at) in S && Holds(food, at)
  {
    hide Home, OneAt;
    HeldAtHome(food, at);
    HomeBound(at);
    if at in Shown(food, S) {
      var k, f :| k in S && k < |food| && f in food[k] && PosOf(f) == at;
      var i :| 0 <= i < |food[k]| && food[k][i] == f;
      assert Has(food[k], at);
    }
    if Home(at) in S && Holds(food, at) {
      var i :| 0 <= i < |food[Home(at)]| && PosOf(food[Home(at)][i]) == at;
      assert food[Home(at)][i] in food[Home(at)];
    }
  }

  // ---------------------------------------------------------------- death food

  /** Of the dropped food at most one piece lies at the position; it is filed where it lies, the position is free,
      and no pending packet is about it. */
  ghost predicate FreshDrops(d: seq<Drop>, ps: seq<Packet>, food: FoodMap, at: Pos) {
    && (forall i :: 0 <= i < |d| && PosOf(d[i].food) == at ==>
          Home(at) == d[i].sector && !Holds(food, at) && Last(ps, at) == Untouched)
    && (forall i, j :: 0 <= i < j < |d| ==> PosOf(d[i].food) != at || PosOf(d[j].food) != at)
  }

  ghost predicate OnMapDrops(d: seq<Drop>) {
    forall i :: 0 <= i < |d| ==> d[i].sector < SECTORS
  }

  lemma {:induction false} FallenHolds(food: FoodMap, d: seq<Drop>, ps: seq<Packet>, at: Pos)
    requires CleanAt(food, at) && FreshDrops(d, ps, food, at) && OnMapDrops(d)
    ensures FoodOk(food) && forall i :: 0 <= i < |d| ==> d[i].sector < SECTORS
    ensures CleanAt(Fallen(food, d), at)
    ensures Holds(Fallen(food, d), at) <==> Holds(food, at) || Has(FoodsOf(d), at)
  {
    hide CleanAt, FreshDrops, Holds, Has, FoodsOf, FoodOk, Fallen, FoodList.Insert;
    CleanSize(food, at);
    if d == [] {
      NoneHas(at);
      NoneFallen(food);
    } else {
      var front, last := d[..|d| - 1], d[|d| - 1];
      assert d == front + [last];
      FreshFront(food, front, last, ps, at);
      FallenHolds(food, front, ps, at);
      OneMore(food, front, last);
      CleanSize(Fallen(food, front), at);
      InsertExplained(Fallen(food, front), last.sector, last.food, at);
      HasConcat(FoodsOf(front), [last.food], at);
      HasOne(last.food, at);
    }
  }

  lemma NoneFallen(food: FoodMap)
    requires FoodOk(food)
    ensures Fallen(food, []) == food
  {
  }

  /** The last piece of a fresh sequence is fresh after the others. */
  lemma FreshFront(food: FoodMap, front: seq<Drop>, last: Drop, ps: seq<Packet>, at: Pos)
    requires FreshDrops(front + [last], ps, food, at)
    ensures FreshDrops(front, ps, food, at)
    ensures PosOf(last.food) == at ==> Home(at) == last.sector && !Holds(food, at) && !Has(FoodsOf(front), at)
  {
    hide Home, Holds, Last;
    var d := front + [last];
    assert d[|front|] == last;
    assert forall i :: 0 <= i < |front| ==> front[i] == d[i];
    if PosOf(last.food) == at {
      forall i | 0 <= i < |FoodsOf(front)|
        ensures PosOf(FoodsOf(front)[i]) != at
      {
        assert FoodsOf(front)[i] == front[i].food;
      }
    }
  }

  lemma NoneHas(at: Pos)
    ensures !Has(FoodsOf([]), at)
  {
  }

  lemma MoreSpawn(id: nat, eaten: seq<Food>, a: seq<Food>, b: seq<Food>)
    ensures FoodPackets(id, eaten, a + b) == FoodPackets(id, eaten, a) + FoodPackets(id, [], b)
  {
  }

  /** Dropping food and adding its packets to the log keeps every client on its way. */
  lemma DropsOnTheWay(c: Client, id: nat, eaten: seq<Food>, spawn: seq<Food>, d: seq<Drop>, ps: seq<Packet>, food: FoodMap, at: Pos)
    requires CleanAt(food, at) && FreshDrops(d, ps, food, at) && OnMapDrops(d)
    requires OnTheWay(c, FoodPackets(id, eaten, spawn) + ps, food, at)
    ensures FoodOk(food) && forall i :: 0 <= i < |d| ==> d[i].sector < SECTORS
    ensures OnTheWay(c, FoodPackets(id, eaten, spawn + FoodsOf(d)) + ps, Fallen(food, d), at)
  {
    hide Holds, Home, Has, CleanAt, FoodPackets, FoodsOf, Fallen;
    FallenHolds(food, d, ps, at);
    MoreSpawn(id, eaten, spawn, FoodsOf(d));
    var a, b := FoodPackets(id, eaten, spawn), FoodPackets(id, [], FoodsOf(d));
    LastConcat(a + b, ps, at);
    LastConcat(a, b, at);
    LastConcat(a, ps, at);
    LastSpawned(id, FoodsOf(d), at);
    if Has(FoodsOf(d), at) {
      DropQuiet(d, ps, food, at);
    }
    assert Last(a + b + ps, at) == if Has(FoodsOf(d), at) then Present else Last(a + ps, at);
  }

  lemma DropQuiet(d: seq<Drop>, ps: seq<Packet>, food: FoodMap, at: Pos)
    requires FreshDrops(d, ps, food, at) && Has(FoodsOf(d), at)
    ensures Last(ps, at) == Untouched && !Holds(food, at)
  {
    hide Holds, Home;
    var i :| 0 <= i < |FoodsOf(d)| && PosOf(FoodsOf(d)[i]) == at;
    assert FoodsOf(d)[i] == d[i].food;
  }

  // ---------------------------------------------------------------- one turn

  lemma HeaderNeutral(s: SnakeState)
    ensures Neutral(RotationPackets(s) + (LengthPackets(s) + MovePackets(s)))
  {
  }

  lemma FoodPacketsOnly(id: nat, eaten: seq<Food>, spawn: seq<Food>)
    ensures FoodOnly(FoodPackets(id, eaten, spawn))
  {
  }

  lemma PublicOnTheWay(c: Client, s: SnakeState, ps: seq<Packet>, food: FoodMap, at: Pos)
    requires OnTheWay(c, FoodPackets(s.id, s.eaten, s.spawn) + ps, food, at)
    requires !s.flags.pos ==> s.eaten == [] && s.spawn == []
    ensures OnTheWay(ApplyAll(c, PublicPackets(s)), ps, food, at)
  {
    hide OnTheWay, FoodPackets, FoodOnly, Neutral, ApplyAll, RotationPackets, LengthPackets, MovePackets;
    var head, meal := RotationPackets(s) + (LengthPackets(s) + MovePackets(s)), MealPackets(s);
    HeaderNeutral(s);
    assert meal == FoodPackets(s.id, s.eaten, s.spawn) by { NoFoodPackets(s.id); }
    ApplyConcat(c, head, meal);
    NeutralApply(c, head);
    OnlyFoodAndView(c, ApplyAll(c, head), meal + ps, food, at);
    FoodPacketsOnly(s.id, s.eaten, s.spawn);
    NextPackets(ApplyAll(c, head), meal, ps, food, at);
  }

  lemma NoFoodPackets(id: nat)
    ensures FoodPackets(id, [], []) == []
  {
  }

  lemma ObituaryOnTheWay(c: Client, s: SnakeState, env: Env, ps: seq<Packet>, food: FoodMap, at: Pos)
    requires CleanAt(food, at) && FoodOk(food) && FreshDrops(Remains(s, env), ps, food, at)
    requires OnTheWay(c, FoodPackets(s.id, s.eaten, s.spawn) + ps, food, at)
    ensures OnTheWay(ApplyAll(c, ObituaryPackets(s, env)), ps, Fallen(food, Remains(s, env)), at)
  {
    hide OnTheWay, FoodPackets, FoodOnly, ApplyAll, Remains, FreshDrops, Fallen, CleanAt, FoodOk;
    var d := Remains(s, env);
    DropsOnTheWay(c, s.id, s.eaten, s.spawn, d, ps, food, at);
    var foods, last := FoodPackets(s.id, s.eaten, s.spawn + FoodsOf(d)), [RemoveSnake(s.id, true), RemoveSnake(s.id, false)];
    FoodPacketsOnly(s.id, s.eaten, s.spawn + FoodsOf(d));
    NextPackets(c, foods, ps, Fallen(food, d), at);
    ApplyConcat(c, foods, last);
    NeutralApply(ApplyAll(c, foods), last);
    OnlyFoodAndView(ApplyAll(c, foods), ApplyAll(ApplyAll(c, foods), last), ps, Fallen(food, d), at);
  }

  /** All clients are on their way with these packets still to come. */
  ghost predicate Marching(clients: map<nat, Client>, ps: seq<Packet>, food: FoodMap, at: Pos) {
    forall h :: h in clients ==> OnTheWay(clients[h], ps, food, at)
  }

  /** One turn: its packets are received by all, and the snake's own client may get snapshots. */
  lemma TurnMarches(b: Broadcast, id: nat, env: Env, ps: seq<Packet>, at: Pos)
    requires CleanAt(b.sv.food, at) && FoodOk(b.sv.food) && id in b.sv.snakes
    requires var s := b.sv.snakes[id];
             && s.id == id && !s.flags.dead
             && Marching(b.sv.clients, FoodPackets(id, s.eaten, s.spawn) + ps, b.sv.food, at)
             && (!s.flags.pos ==> s.eaten == [] && s.spawn == [])
             && (s.flags.dying ==> FreshDrops(Remains(s, env), ps, b.sv.food, at))
    ensures var r := TakeTurn(b, id, env); CleanAt(r.sv.food, at) && Marching(r.sv.clients, ps, r.sv.food, at)
  {
    hide OnTheWay, FoodPackets, ApplyAll, Remains, FreshDrops, Fallen, CleanAt, FoodOk, PublicPackets, ObituaryPackets, PointOfView, Reported, Buried;
    var s, r := b.sv.snakes[id], TakeTurn(b, id, env);
    if s.flags.dying {
      FallenHolds(b.sv.food, Remains(s, env), ps, at);
      forall h | h in b.sv.clients
        ensures OnTheWay(r.sv.clients[h], ps, r.sv.food, at)
      {
        ObituaryOnTheWay(b.sv.clients[h], s, env, ps, b.sv.food, at);
        OnlyFoodAndView(b.sv.clients[h], Apply(b.sv.clients[h], End), FoodPackets(id, s.eaten, s.spawn) + ps, b.sv.food, at);
        ObituaryOnTheWay(Apply(b.sv.clients[h], End), s, env, ps, b.sv.food, at);
      }
    } else {
      forall h | h in b.sv.clients
        ensures OnTheWay(r.sv.clients[h], ps, r.sv.food, at)
      {
        PublicOnTheWay(b.sv.clients[h], s, ps, b.sv.food, at);
        var c := ApplyAll(b.sv.clients[h], PublicPackets(s));
        SnapshotOnTheWay(c, s, ps, b.sv.food, at);
        OnlyFoodAndView(PointOfView(c, s, b.sv.food), OwnUpdate(c, s, b.sv.food), ps, b.sv.food, at);
      }
    }
  }

  // ---------------------------------------------------------------- the timer step

  /** Every dying snake of the broadcast drops food that is fresh at the position. */
  ghost predicate FreshDeaths(mid: Server, changes: seq<nat>, env: Env, at: Pos)
    requires FoodOk(mid.food)
  {
    forall n :: 0 <= n < |changes| ==>
      var id := changes[n];
      id in mid.snakes && mid.snakes[id].flags.dying ==>
        FreshDrops(Remains(mid.snakes[id], env), LogOf(mid.snakes, changes[n + 1..]),
                   Turns(Broadcast(mid, []), changes, env, n).sv.food, at)
  }

  /** What is known of the changed snakes when the broadcast starts. */
  ghost predicate Lively(mid: Server, changes: seq<nat>) {
    && Distinct(changes)
    && forall i :: 0 <= i < |changes| ==>
         changes[i] in mid.snakes
         && (var s := mid.snakes[changes[i]];
             s.id == changes[i] && !s.flags.dead && (!s.flags.pos ==> s.eaten == [] && s.spawn == []))
  }

  lemma {:induction false} TurnsMarch(mid: Server, changes: seq<nat>, env: Env, n: nat, at: Pos)
    requires FoodOk(mid.food) && CleanAt(mid.food, at) && n <= |changes| && Lively(mid, changes)
    requires FreshDeaths(mid, changes, env, at) && Marching(mid.clients, LogOf(mid.snakes, changes), mid.food, at)
    ensures var b := Turns(Broadcast(mid, []), changes, env, n);
            CleanAt(b.sv.food, at) && Marching(b.sv.clients, LogOf(mid.snakes, changes[n..]), b.sv.food, at)
  {
    hide OnTheWay, FoodPackets, Remains, FreshDrops, CleanAt, FoodOk, LogOf, Marching, TurnedBy, TakeTurn, FreshDeaths;
    if n > 0 {
      TurnsMarch(mid, changes, env, n - 1, at);
      TurnsTable(mid, changes, env, n - 1);
      var b, id := Turns(Broadcast(mid, []), changes, env, n - 1), changes[n - 1];
      Unturned(mid, changes, n - 1, b);
      DeathFresh(mid, changes, env, n - 1, at);
      assert changes[n - 1..] == [id] + changes[n..];
      LogCons(mid.snakes, id, changes[n..]);
      TurnMarches(b, id, env, LogOf(mid.snakes, changes[n..]), at);
    } else {
      assert changes[0..] == changes;
    }
  }

  lemma DeathFresh(mid: Server, changes: seq<nat>, env: Env, n: nat, at: Pos)
    requires FoodOk(mid.food) && FreshDeaths(mid, changes, env, at) && n < |changes|
    ensures changes[n] in mid.snakes && mid.snakes[changes[n]].flags.dying ==>
              FreshDrops(Remains(mid.snakes[changes[n]], env), LogOf(mid.snakes, changes[n + 1..]),
                         Turns(Broadcast(mid, []), changes, env, n).sv.food, at)
  {
    hide Remains, FreshDrops, FoodOk, LogOf, Turns;
  }

  lemma Unturned(mid: Server, changes: seq<nat>, n: nat, b: Broadcast)
    requires n < |changes| && Distinct(changes) && TurnedBy(mid, changes[..n], b) && changes[n] in mid.snakes
    ensures changes[n] in b.sv.snakes && b.sv.snakes[changes[n]] == mid.snakes[changes[n]]
  {
    hide TurnOf;
    assert changes[n] !in changes[..n];
  }

  /** The step puts food at the position at most where it lies and while it is free: boosting does not drop onto held
      food, and death food there is filed in its own sector, single, and not about to be reported eaten. */
  ghost predicate FreshStep(sv: Server, dt: nat, env: Env, at: Pos)
    requires FoodOk(sv.food)
  {
    var whole := WholeFrames(sv.ticks, dt);
    && (whole > 0 ==> FreshTicks(sv.snakes, sv.food, whole, env, at))
    && FreshDeaths(MidOf(sv, dt, env), ChangesOf(sv, dt, env), env, at)
  }

  /** After the world's tick the pending log accounts for what the ticks did. */
  lemma MidExplained(sv: Server, dt: nat, env: Env, at: Pos)
    requires StepOk(sv, dt, env) && CleanAt(sv.food, at) && FreshStep(sv, dt, env, at)
    ensures var mid := MidOf(sv, dt, env);
            CleanAt(mid.food, at) && Explains(LogOf(mid.snakes, ChangesOf(sv, dt, env)), sv.food, mid.food, at)
  {
    hide FoodOk, AllSizesOk, CleanAt, Explains, FreshTicks, FreshDeaths, TickAll, MarkAll, AllCalm, LogOf, EnvOk, TickedUpTo;
    var whole := WholeFrames(sv.ticks, dt);
    if whole > 0 {
      TickAllExplained(sv.snakes, sv.food, whole, env, |env.order|, at);
      TickAllHalfway(sv.snakes, sv.food, whole, env, |env.order|);
      var t := TickAll(sv.snakes, sv.food, whole, env, |env.order|);
      ChangedHere(sv.snakes, env, t);
      MarksKeepLog(t.snakes, t.changes, t.changes);
    } else {
      LogNone(sv.snakes);
      ExplainsNothing(sv.food, at);
    }
  }

  lemma ChangedHere(snakes: SnakeMap, env: Env, t: TickedAll)
    requires EnvOk(env, snakes) && TickedUpTo(snakes, env, |env.order|, t)
    ensures forall id :: id in t.changes ==> id in t.snakes
  {
    hide Halfway, AllSizesOk, Dot;
    assert env.order[..|env.order|] == env.order;
  }

  lemma MidLively(sv: Server, dt: nat, env: Env)
    requires StepOk(sv, dt, env) && Linked(sv)
    ensures Lively(MidOf(sv, dt, env), ChangesOf(sv, dt, env))
  {
    hide FoodOk, AllSizesOk, EnvOk, AllCalm, After, MidOf, ChangesOf, Linked;
    MidFacts(sv, dt, env);
    var mid, changes := MidOf(sv, dt, env), ChangesOf(sv, dt, env);
    forall i | 0 <= i < |changes|
      ensures !mid.snakes[changes[i]].flags.dead
      ensures !mid.snakes[changes[i]].flags.pos ==>
                mid.snakes[changes[i]].eaten == [] && mid.snakes[changes[i]].spawn == []
    {
      AfterPending(sv.snakes[changes[i]], mid.snakes[changes[i]]);
    }
  }

  lemma AfterPending(s0: SnakeState, s1: SnakeState)
    requires After(s0, s1, true)
    ensures !s1.flags.dead && (!s1.flags.pos ==> s1.eaten == [] && s1.spawn == [])
  {
    hide AllInside, Watching, OnMap, TailInside, Sane;
  }

  /** All clients mirror the food at the position. */
  ghost predicate AllMirrored(sv: Server, at: Pos) {
    forall h :: h in sv.clients ==> Mirrored(sv.clients[h], sv.food, at)
  }

  /** Snapshot plus overlapping log, one timer step and one position: whatever the order of the change list, every
      client ends right about the position if it has its sector in view. */
  lemma TimerMirrored(sv: Server, dt: nat, env: Env, at: Pos)
    requires StepOk(sv, dt, env) && Linked(sv) && CleanAt(sv.food, at) && AllMirrored(sv, at) && FreshStep(sv, dt, env, at)
    ensures CleanAt(Timer(sv, dt, env).food, at) && AllMirrored(Timer(sv, dt, env), at)
  {
    hide FoodOk, AllSizesOk, EnvOk, AllCalm, MidOf, ChangesOf, Linked, CleanAt, Explains, LogOf, OnTheWay, FreshDeaths, FreshTicks, Turns, Timer, Lively;
    MidExplained(sv, dt, env, at);
    MidLively(sv, dt, env);
    MidSessions(sv, dt, env);
    var mid, changes := MidOf(sv, dt, env), ChangesOf(sv, dt, env);
    forall h | h in mid.clients
      ensures OnTheWay(mid.clients[h], LogOf(mid.snakes, changes), mid.food, at)
    {
      StartOnTheWay(mid.clients[h], LogOf(mid.snakes, changes), sv.food, mid.food, at);
    }
    TurnsMarch(mid, changes, env, |changes|, at);
    assert changes[|changes|..] == [];
    LogNone(mid.snakes);
    TimerFood(sv, dt, env);
    TimerClients(sv, dt, env);
  }

  lemma TimerFood(sv: Server, dt: nat, env: Env)
    requires FoodOk(sv.food)
    ensures var mid, changes := MidOf(sv, dt, env), ChangesOf(sv, dt, env);
            Timer(sv, dt, env).food == Turns(Broadcast(mid, []), changes, env, |changes|).sv.food
  {
    hide TickWorld, Turns, FoodOk;
  }

  // ---------------------------------------------------------------- what a misfiled piece leads to

  /** A piece the client knows, or is shown in this update, is forgotten if and only if the update drops the sector
      the piece lies in, whatever sector it is filed in. */
  lemma ForgottenIff(c: Client, s: SnakeState, food: FoodMap, k: nat, f: Food)
    requires k < |food| && f in food[k] && (PosOf(f) in c.food || k in s.newS)
    ensures PosOf(f) !in PointOfView(c, s, food).food <==> Home(PosOf(f)) in s.oldS
  {
    hide Home;
  }

  /** Sectors (72, 72) and (71, 71) from a head at (22500, 22500) that moves on to the east: the first stays in view,
      the second drops out. */
  lemma CornerDrops(d: real)
    requires 10.0 <= d <= 50.0
    ensures Meets(Index(72, 72), ViewCircle(Body(22500.0, 22500.0))) && Meets(Index(71, 71), ViewCircle(Body(22500.0, 22500.0)))
    ensures Meets(Index(72, 72), ViewCircle(Body(22500.0 + d, 22500.0)))
    ensures !Meets(Index(71, 71), ViewCircle(Body(22500.0 + d, 22500.0)))
  {
    assert Centre(Index(72, 72)) == Body(21750.0, 21750.0) && Centre(Index(71, 71)) == Body(21450.0, 21450.0);
    ProductMonotone(750.0 + d, 800.0, 750.0 + d, 800.0);
    ProductMonotone(1060.0, 1050.0 + d, 1060.0, 1050.0 + d);
  }

  lemma AdvanceDrops(s: SnakeState, d: real)
    requires !s.bot && s.parts != [] && s.parts[0] == Body(22500.0, 22500.0) && 10.0 <= d <= 50.0
    requires Index(72, 72) in s.vp && Index(71, 71) in s.vp && s.oldS == {}
    ensures var r := Advance(s, d, EAST);
            && Index(72, 72) in r.vp && Index(71, 71) in r.oldS && Index(72, 72) !in r.oldS
  {
    hide Follow, EnteredUpTo, Appearing, Centroid, BoxRadius, Meets;
    CornerDrops(d);
    assert s.parts[0].Plus(EAST.Times(d)) == Body(22500.0 + d, 22500.0);
    InMeeting(Index(72, 72), ViewCircle(Body(22500.0 + d, 22500.0)));
    InMeeting(Index(71, 71), ViewCircle(Body(22500.0 + d, 22500.0)));
  }

  lemma InMeeting(k: nat, c: Circle)
    requires k < SECTORS
    ensures k in Meeting(c) <==> Meets(k, c)
  {
    hide Meets;
  }

  /** The wrong client: the misfiled piece of `DeathFood.Misfiled` lies in sector (71, 71) and is filed in (72, 72).
      A player with both in view, whose client knows the piece, moves on by a step. Its update drops the first
      sector, and with it the piece, while the second stays in view and still holds it. */
  lemma MisfiledForgotten(c: Client, s: SnakeState, food: FoodMap, f: Food, d: real)
    requires f == Scatter(Body(21600.0, 21600.0), 3, 1.0, 1.0, 0.0) && 10.0 <= d <= 50.0
    requires Index(72, 72) < |food| && f in food[Index(72, 72)] && PosOf(f) in c.food
    requires !s.bot && s.parts != [] && s.parts[0] == Body(22500.0, 22500.0) && c.view == s.vp
    requires Index(72, 72) in s.vp && Index(71, 71) in s.vp && s.newS == {} && s.oldS == {}
    ensures var r := PointOfView(c, Advance(s, d, EAST), food);
            Index(72, 72) in r.view && f in food[Index(72, 72)] && PosOf(f) !in r.food
  {
    hide Scatter, Advance, Home, Shown;
    Misfiled();
    AdvanceDrops(s, d);
    ForgottenIff(c, Advance(s, d, EAST), food, Index(72, 72), f);
  }
}
