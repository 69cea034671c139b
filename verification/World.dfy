/** The mutable world: the snake table, the change list, and the sector registry they share. */
module WorldObject {
  import opened Geometry
  import opened Config
  import opened Movement
  import opened Birth
  import FoodList
  import opened Boot
  import opened Grid
  import opened SortedVec
  import opened SnakeModel
  import opened Collision
  import opened Ticks
  import opened BodyLaws
  import opened Sectors
  import opened SnakeObject
  import opened WorldModel

  function BoxOf(snakes: SnakeMap, id: nat): set<nat> {
    if id in snakes then snakes[id].sbb else {}
  }

  /** The registry lists `id` exactly once in each sector of its box, and nowhere if no snake has that id. */
  ghost predicate Agreed(reg: seq<seq<nat>>, snakes: SnakeMap, id: nat) {
    Registered(reg, id, BoxOf(snakes, id))
  }

  ghost predicate Agree(reg: seq<seq<nat>>, snakes: SnakeMap) {
    forall id: nat :: Agreed(reg, snakes, id)
  }

  /** What a snake is at the start of a step: dying or dead, or quiet and wholly inside the death disc. */
  ghost predicate Steady(s: SnakeState) {
    Sane(s) && (s.flags.dying || s.flags.dead || (Quiet(s) && AllInside(s.parts, CENTRE, DEATH)))
  }

  ghost predicate AllSteady(snakes: SnakeMap) {
    forall id :: id in snakes ==> Steady(snakes[id])
  }

  lemma AgreeStep(reg: seq<seq<nat>>, reg': seq<seq<nat>>, snakes: SnakeMap, id: nat, s: SnakeState)
    requires Agree(reg, snakes) && OthersKept(reg, reg', id) && Registered(reg', id, s.sbb)
    ensures Agree(reg', snakes[id := s])
  {
    hide Registered;
    var after := snakes[id := s];
    forall j: nat
      ensures Agreed(reg', after, j)
    {
      assert Agreed(reg, snakes, j);
      if j != id {
        KeptRegistered(reg, reg', id, j, BoxOf(snakes, j));
      }
    }
  }

  lemma KeptRegistered(reg: seq<seq<nat>>, reg': seq<seq<nat>>, id: nat, j: nat, S: set<nat>)
    requires OthersKept(reg, reg', id) && j != id && Registered(reg, j, S)
    ensures Registered(reg', j, S)
  {
    assert forall k :: 0 <= k < |reg| ==> multiset(reg[k])[j] == multiset(reg'[k])[j];
  }

  /** A steady snake can be ticked: its head will find a food sector. */
  lemma ReadyToTick(s: SnakeState, food: FoodMap, dt: nat, inp: Input)
    requires Steady(s) && FoodOk(food) && dt <= 517 && Dot(inp.dir, inp.dir) == 1.0
    ensures Able(s) && TickOne(s, food, dt, inp) == Tick(s, food, dt, inp)
    ensures !s.flags.dying && !s.flags.dead && Moves(s, dt) ==> OnMap(NewHead(s, dt, inp.dir))
  {
    hide Tick, OnMap, AllInside, NewHead, Moves;
    if !s.flags.dying && !s.flags.dead && Moves(s, dt) {
      HeadStays(s, dt, inp.dir);
    }
  }

  lemma SteadyTick(s: SnakeState, food: FoodMap, dt: nat, inp: Input)
    requires Steady(s) && FoodOk(food)
    ensures |TickOne(s, food, dt, inp).s.parts| >= 3
  {
    if s.flags.dying || s.flags.dead {
      return;
    }
    hide Tick, AllInside, Follow;
    TickBody(s, food, dt, inp);
  }

  /** All objects the snakes of a table are made of. */
  ghost function Bodies(m: map<nat, Snake>): set<object> {
    (set id | id in m :: m[id] as object)
    + (set id | id in m :: m[id].sbb as object)
    + (set id | id in m :: m[id].vp as object)
  }

  lemma InBodies(m: map<nat, Snake>, id: nat)
    requires id in m
    ensures m[id] in Bodies(m) && m[id].sbb in Bodies(m) && m[id].vp in Bodies(m)
  {
  }

  lemma WorldNotBody(m: map<nat, Snake>, w: World)
    ensures (w as object) !in Bodies(m)
  {
  }

  /** The table as a value. */
  ghost function Table(m: map<nat, Snake>): (r: SnakeMap)
    reads Bodies(m)
    ensures r.Keys == m.Keys
  {
    map id | id in m :: m[id].State()
  }

  /** Every snake sits under its own id, so no two share an object. */
  ghost predicate Owned(m: map<nat, Snake>) {
    forall id :: id in m ==> m[id].id == id && m[id].sbb.id == id && m[id].vp.id == id
  }

  /** Ids are in use up to `last`, all boxes are well formed, and the registry agrees with them. */
  ghost predicate Sound(m: map<nat, Snake>, ss: SectorSeq, last: nat)
    reads ss, Bodies(m)
  {
    && Owned(m) && ss.Valid()
    && (forall id :: id in m ==> 0 < id <= last && m[id].Valid())
    && Agree(ss.snakes, Table(m))
  }

  lemma TableIs(m: map<nat, Snake>, abs: SnakeMap, id: nat)
    requires id in m && abs.Keys == m.Keys
    requires forall j :: j in m && j != id ==> m[j].State() == abs[j]
    ensures Table(m) == abs[id := m[id].State()]
  {
    hide Snake.State;
  }

  class World {
    const sectors: SectorSeq
    var snakes: map<nat, Snake>
    var changes: seq<nat>       // ids of the changed snakes
    var dead: seq<nat>
    var lastSnakeId: nat
    var ticks: nat

    ghost predicate Valid()
      reads this, sectors, Bodies(snakes)
    {
      Sound(snakes, sectors, lastSnakeId)
    }

    lemma ValidSound()
      ensures Valid() <==> Sound(snakes, sectors, lastSnakeId)
    {
    }

    constructor ()
      ensures Valid() && fresh(sectors) && snakes == map[] && changes == [] && dead == [] && lastSnakeId == 0 && ticks == 0
      ensures forall k :: 0 <= k < SECTORS ==> sectors.food[k] == []
    {
      sectors := new SectorSeq();
      snakes, changes, dead, lastSnakeId, ticks := map[], [], [], 0, 0;
      new;
      hide Registered;
      forall id: nat
        ensures Agreed(sectors.snakes, Table(snakes), id)
      {
        assert Registered(sectors.snakes, id, {});
      }
    }

    /** Ticking one snake of the table. */
    method TickSnake(id: nat, dt: nat, inp: Input) returns (changed: bool)
      requires Valid() && id in snakes && Steady(Table(snakes)[id]) && dt <= 517 && Dot(inp.dir, inp.dir) == 1.0
      modifies snakes[id], snakes[id].sbb, snakes[id].vp, sectors
      ensures Valid()
      ensures var r := TickOne(old(Table(snakes))[id], old(sectors.food), dt, inp);
              Table(snakes) == old(Table(snakes))[id := r.s] && sectors.food == r.food && changed == r.changed
    {
      hide Snake.State, Snake.Valid, Registered, OthersKept, SnakeModel.Tick, TickOne, NewHead, OnMap, Steady, Agree, Moves, FoodOk, Bodies, Dot;
      var s := snakes[id];
      ghost var reg, abs := sectors.snakes, Table(snakes);
      ReadyToTick(s.State(), sectors.food, dt, inp);
      AgreeIn(reg, abs, id);
      changed := s.Tick(sectors, dt, inp);
      assert forall j :: j in snakes && j != id ==> snakes[j].State() == abs[j];
      TableIs(snakes, abs, id);
      AgreeStep(reg, sectors.snakes, abs, id, s.State());
    }

    /** Append to the change list. */
    method Record(id: nat)
      requires Valid()
      modifies this`changes
      ensures Valid() && Table(snakes) == old(Table(snakes)) && changes == old(changes) + [id]
    {
      hide Snake.State, Snake.Valid, Sound, Table, Bodies;
      WorldNotBody(snakes, this);
      changes := changes + [id];
    }

    /** A dead bot is to be removed at the end of the step. */
    method AddDead(id: nat)
      requires Valid()
      modifies this`dead
      ensures Valid() && Table(snakes) == old(Table(snakes)) && dead == old(dead) + [id]
    {
      hide Snake.State, Snake.Valid, Sound, Table, Bodies;
      WorldNotBody(snakes, this);
      dead := dead + [id];
    }

    /** The world stands where the first n ticks of a pass lead. */
    ghost predicate Standing(t: TickedAll)
      reads this, sectors, Bodies(snakes)
    {
      Valid() && Table(snakes) == t.snakes && sectors.food == t.food && changes == t.changes
    }

    /** One round of the first loop of `World::TickSnakes`. */
    method TickNext(n: nat, dt: nat, env: Env, ghost abs0: SnakeMap, ghost food0: FoodMap)
      requires FoodOk(food0) && n < |env.order| && Standing(TickAll(abs0, food0, dt, env, n))
      requires EnvOk(env, abs0) && AllSteady(abs0) && dt <= 517 && env.order[n] in snakes
      modifies this`changes, Bodies(snakes), sectors
      ensures Standing(TickAll(abs0, food0, dt, env, n + 1))
    {
      hide Snake.State, Snake.Valid, Sound, Table, TickOne, Steady, EnvOk, Bodies, Dot;
      var id := env.order[n];
      Unticked(abs0, food0, dt, env, n);
      EnvOrder(env, abs0, n);
      InBodies(snakes, id);
      var changed := TickSnake(id, dt, env.inputs(id));
      if changed {
        Record(id);
      }
    }

    lemma StandingStart(dt: nat, env: Env)
      requires Valid() && changes == []
      ensures FoodOk(sectors.food) && Standing(TickAll(Table(snakes), sectors.food, dt, env, 0))
    {
    }

    /** The first loop of `World::TickSnakes`. */
    method TickAllSnakes(dt: nat, env: Env)
      requires Valid() && changes == [] && EnvOk(env, Table(snakes)) && AllSteady(Table(snakes)) && dt <= 517
      modifies this`changes, Bodies(snakes), sectors
      ensures Standing(TickAll(old(Table(snakes)), old(sectors.food), dt, env, |env.order|))
    {
      hide World.Standing, World.Valid, Table, FoodOk, EnvOk, Bodies, TickAll, AllSteady;
      StandingStart(dt, env);
      ghost var abs0, food0 := Table(snakes), sectors.food;
      for n := 0 to |env.order|
        invariant snakes == old(snakes) && Standing(TickAll(abs0, food0, dt, env, n))
      {
        WorldNotBody(snakes, this);
        EnvOrder(env, abs0, n);
        TickNext(n, dt, env, abs0, food0);
      }
    }

    // -------------------------------------------------------------- collisions

    /** Checking one sector's snakes against the cache of ids already tested. */
    method ScanSector(id: nat, check: Circle, list: seq<nat>, ghost table: SnakeMap, cache: seq<nat>)
      returns (hit: bool, after: seq<nat>)
      requires Mirrors(snakes, table) && (forall j :: j in list ==> j in snakes) && Cleared(table, id, check, cache)
      ensures Mirrors(snakes, table)
      ensures hit ==> exists j :: j in list && j != id && j in table && Hits(table[j].parts, check)
      ensures !hit ==> Cleared(table, id, check, after) && (forall j :: j in cache ==> j in after)
                       && (forall j :: j in list && j != id ==> j in after)
    {
      hide Hits;
      after := cache;
      for n := 0 to |list|
        invariant Cleared(table, id, check, after) && (forall j :: j in cache ==> j in after)
        invariant forall m :: 0 <= m < n && list[m] != id ==> list[m] in after
      {
        var j := list[n];
        if j != id && j !in after {
          hit := snakes[j].Intersect(check);
          if hit {
            return;
          }
          after := after + [j];
        }
      }
      hit := false;
    }

    /** The decision of `World::CheckSnakeBounds`: the 3 x 3 window, the id cache and the early returns find
        exactly the doomed heads. */
    method Collides(id: nat, ghost table: SnakeMap, ghost reg: seq<seq<nat>>) returns (doomed: bool)
      requires Mirrors(snakes, table) && Agree(reg, table) && |reg| == SECTORS && sectors.snakes == reg && id in snakes
      ensures doomed <==> Doomed(table, id)
    {
      hide Hits, Registered, Agree, Scanned, Meets, BodyRadius, IntersectCircle, Inside, OutsideDeath, Cleared, Covered;
      var s := snakes[id];
      var head := s.parts[0];
      if OutsideDeath(head) {
        return true;
      }
      var check, zone := Circle(head.x, head.y, BodyRadius(|s.parts|)), Circle(head.x, head.y, 42.0);
      var sx, sy := Cell(head.x), Cell(head.y);
      var cache := [];
      ghost var all := Meeting(zone);
      ScanStart(all, sx - 1, sx + 1, sy - 1);
      NothingCovered(reg, table, id, check);
      for j := sy - 1 to sy + 2
        invariant Mirrors(snakes, table) && Cleared(table, id, check, cache)
        invariant Covered(reg, id, Visited(all, sx - 1, sx + 1, sy - 1, sx - 1, j), cache)
      {
        for i := sx - 1 to sx + 2
          invariant Mirrors(snakes, table) && Cleared(table, id, check, cache)
          invariant Covered(reg, id, Visited(all, sx - 1, sx + 1, sy - 1, i, j), cache)
        {
          ScanStep(all, sx - 1, sx + 1, sy - 1, i, j);
          ghost var seen := Visited(all, sx - 1, sx + 1, sy - 1, i, j);
          if InMap(i, j) && Meets(Index(i, j), zone) {
            var k := Index(i, j);
            ghost var before := cache;
            var hit;
            AllListed(reg, table, k);
            hit, cache := ScanSector(id, check, sectors.snakes[k], table, cache);
            if hit {
              HitDooms(reg, table, id, k);
              return true;
            }
            CoveredMore(reg, id, seen, k, before, cache);
          } else {
            assert Visited(all, sx - 1, sx + 1, sy - 1, i + 1, j) == seen;
          }
        }
        ScanRow(all, sx - 1, sx + 1, sy - 1, j);
      }
      ScanDone(zone, head);
      MissSpares(reg, table, id, cache);
      return false;
    }

    method MarkSnake(s: Snake)
      requires Valid() && s.id in snakes && snakes[s.id] == s
      modifies s`update
      ensures Valid()
      ensures Table(snakes) == old(Table(snakes))[s.id := Marked(old(Table(snakes))[s.id])]
    {
      hide Agree, Bodies, Snake.State, Snake.Valid;
      ghost var table, id := Table(snakes), s.id;
      s.MarkDying();
      assert forall j :: j in snakes && j != id ==> snakes[j].State() == table[j];
      TableIs(snakes, table, id);
      AgreeSame(sectors.snakes, table, Table(snakes));
    }

    /** `World::CheckSnakeBounds`. */
    method CheckSnakeBounds(s: Snake)
      requires Valid() && s.id in snakes && snakes[s.id] == s && Bodied(Table(snakes))
      modifies s`update
      ensures Valid()
      ensures var table, id := old(Table(snakes)), s.id;
              Table(snakes) == table[id := if Doomed(table, id) then Marked(table[id]) else table[id]]
    {
      hide Doomed, Agree, Bodied, Bodies, Snake.State, Snake.Valid, Mirrors;
      SoundParts(snakes, sectors, lastSnakeId);
      TableMirrors(snakes);
      ghost var table := Table(snakes);
      var doomed := Collides(s.id, table, sectors.snakes);
      assert Table(snakes) == table;
      if doomed {
        MarkSnake(s);
      }
    }

    // -------------------------------------------------------------- ticking everything

    ghost predicate MarkedTo(t: TickedAll, n: nat)
      reads this, sectors, Bodies(snakes)
      requires n <= |t.changes|
    {
      Valid() && Table(snakes) == MarkAll(t.snakes, t.changes[..n]) && sectors.food == t.food && changes == t.changes
    }

    /** One round of the second loop of `World::TickSnakes`. */
    method MarkNext(n: nat, ghost t: TickedAll)
      requires n < |t.changes| && MarkedTo(t, n) && t.changes[n] in snakes && Bodied(t.snakes)
      modifies Bodies(snakes)
      ensures MarkedTo(t, n + 1)
    {
      hide Doomed, Bodied, Bodies, Snake.State, Snake.Valid, Sound, Table, MarkAll, Marked;
      var s := snakes[changes[n]];
      SoundId(snakes, sectors, lastSnakeId, changes[n]);
      ghost var before := Table(snakes);
      MarkBodied(t.snakes, t.changes[..n]);
      MarkRound(t.snakes, t.changes, n);
      InBodies(snakes, changes[n]);
      WorldNotBody(snakes, this);
      SectorsNotBody(snakes, sectors);
      TableFlags(snakes, changes[n]);
      if s.update.pos {
        CheckSnakeBounds(s);
      } else {
        assert before[changes[n] := before[changes[n]]] == before;
      }
    }

    /** `World::TickSnakes`. */
    method TickSnakes(dt: nat, env: Env)
      requires Valid() && changes == [] && EnvOk(env, Table(snakes)) && AllSteady(Table(snakes)) && dt <= 517
      modifies this`changes, Bodies(snakes), sectors
      ensures Standing(WorldModel.TickSnakes(old(Table(snakes)), old(sectors.food), dt, env))
    {
      hide Bodied, Bodies, Snake.State, Sound, Table, MarkAll, EnvOk, AllSteady, TickAll, World.MarkedTo, World.Standing;
      ghost var table, food := Table(snakes), sectors.food;
      StandingStart(dt, env);
      WorldNotBody(snakes, this);
      TickAllSnakes(dt, env);
      ghost var t := TickAll(table, food, dt, env, |env.order|);
      AllTicked(table, food, dt, env, |env.order|);
      WorldNotBody(snakes, this);
      SectorsNotBody(snakes, sectors);
      MarkingStart(t);
      for n := 0 to |changes|
        invariant snakes == old(snakes) && changes == t.changes && MarkedTo(t, n)
      {
        MarkNext(n, t);
      }
      MarkingDone(t);
    }

    /** `World::Tick`. */
    method Tick(dt: nat, env: Env)
      requires Valid() && changes == [] && EnvOk(env, Table(snakes)) && AllSteady(Table(snakes))
      requires WholeFrames(ticks, dt) <= 517
      modifies this`changes, this`ticks, Bodies(snakes), sectors
      ensures Valid() && FoodOk(old(sectors.food))
      ensures WorldState(Table(snakes), sectors.food, changes, ticks)
              == TickWorld(WorldState(old(Table(snakes)), old(sectors.food), [], old(ticks)), dt, env)
    {
      hide Bodies, Snake.State, Sound, Table, EnvOk, AllSteady, WorldModel.TickSnakes;
      SoundFood(snakes, sectors, lastSnakeId);
      WorldNotBody(snakes, this);
      ticks := ticks + dt;
      var frames := ticks / FRAME_MS;
      if frames > 0 {
        var time := frames * FRAME_MS;
        TickSnakes(time, env);
        ticks := ticks - time;
      }
    }

    lemma MarkingStart(t: TickedAll)
      requires Standing(t)
      ensures MarkedTo(t, 0) && changes == t.changes && snakes.Keys == t.snakes.Keys
    {
      hide Sound, Doomed, Snake.State;
      assert t.changes[..0] == [];
      assert MarkAll(t.snakes, []) == t.snakes;
    }

    lemma MarkingDone(t: TickedAll)
      requires MarkedTo(t, |t.changes|)
      ensures Standing(t.(snakes := MarkAll(t.snakes, t.changes)))
    {
      hide Sound, Doomed, Snake.State;
      assert t.changes[..|t.changes|] == t.changes;
    }

    // -------------------------------------------------------------- coming and going

    /** `World::CreateSnake`, or `World::CreateSnakeBot`. */
    method CreateSnake(d: Draws, bot: bool) returns (s: Snake)
      requires sectors.Valid() && Registered(sectors.snakes, lastSnakeId + 1, {})
      modifies this`lastSnakeId, sectors`snakes
      ensures lastSnakeId == old(lastSnakeId) + 1 && s.id == lastSnakeId && fresh(s) && fresh(s.sbb) && fresh(s.vp)
      ensures sectors.Valid() && s.Valid() && s.sbb.id == s.id && s.vp.id == s.id
      ensures s.State() == Placed(Blank(s.id, d.skin, Drawn(d), d.angle)).(bot := bot)
      ensures Registered(sectors.snakes, s.id, s.State().sbb) && OthersKept(old(sectors.snakes), sectors.snakes, s.id)
    {
      hide Registered, OthersKept, Placed, Blank, OnGrid, Laid;
      var body := LayBody(CutBody(CENTRE.Plus(d.out.Times(d.dist))), d.out.Times(-1.0), 3 + d.extra);
      s := new Snake(lastSnakeId + 1, d.skin, body, d.angle);
      assert Elems(s.sbb.sectors) == {};
      s.InitBoxNewSectors(sectors);
      s.bot := bot;
      lastSnakeId := lastSnakeId + 1;
    }

    /** Creation among the snakes of a table: none of them is touched. */
    method CreateAmong(ghost m: map<nat, Snake>, d: Draws, bot: bool) returns (s: Snake)
      requires sectors.Valid() && Registered(sectors.snakes, lastSnakeId + 1, {}) && forall j :: j in m ==> m[j].Valid()
      modifies this`lastSnakeId, sectors`snakes
      ensures lastSnakeId == old(lastSnakeId) + 1 && s.id == lastSnakeId && fresh(s) && fresh(s.sbb) && fresh(s.vp)
      ensures sectors.Valid() && s.Valid() && s.sbb.id == s.id && s.vp.id == s.id
      ensures s.State() == Placed(Blank(s.id, d.skin, Drawn(d), d.angle)).(bot := bot)
      ensures Registered(sectors.snakes, s.id, s.State().sbb) && OthersKept(old(sectors.snakes), sectors.snakes, s.id)
      ensures forall j :: j in m ==> m[j].State() == old(m[j].State()) && m[j].Valid()
    {
      hide Registered, OthersKept, Placed, Blank, OnGrid, Snake.State, Snake.Valid, Drawn;
      s := CreateSnake(d, bot);
    }

    /** Creation followed by `World::AddSnake`. */
    method AddNewSnake(d: Draws, bot: bool) returns (s: Snake)
      requires Valid()
      modifies this`snakes, this`lastSnakeId, sectors`snakes
      ensures Valid() && lastSnakeId == old(lastSnakeId) + 1 && s.id == lastSnakeId && fresh(s) && fresh(s.sbb) && fresh(s.vp)
      ensures snakes == old(snakes)[s.id := s]
      ensures Table(snakes) == old(Table(snakes))[s.id := Placed(Blank(s.id, d.skin, Drawn(d), d.angle)).(bot := bot)]
    {
      hide Agree, Bodies, Registered, OthersKept, Placed, Blank, OnGrid, Drawn, Snake.State, Snake.Valid, Table, Sound;
      SoundAll(snakes, sectors, lastSnakeId);
      ghost var table, m, reg := Table(snakes), snakes, sectors.snakes;
      AgreeOut(reg, table, lastSnakeId + 1);
      s := CreateAmong(m, d, bot);
      snakes := snakes[s.id := s];
      TableGrown(m, table, s);
      AgreeStep(reg, sectors.snakes, table, s.id, s.State());
      SoundGrown(m, sectors, lastSnakeId, s);
    }

    /** One sector of `World::InitFood`. */
    method SowSector(k: nat, draw: Sower)
      requires sectors.Valid() && k < SECTORS && sectors.food[k] == []
      modifies sectors`food
      ensures sectors.Valid() && sectors.food == old(sectors.food)[k := Sown(k, draw, Density(k))]
    {
      hide Density, Piece, FoodList.Insert;
      ghost var food := sectors.food;
      for i := 0 to Density(k)
        invariant sectors.Valid() && sectors.food == food[k := Sown(k, draw, i)]
      {
        sectors.food := sectors.food[k := FoodList.Insert(sectors.food[k], Piece(k, draw(k, i)))];
      }
    }

    /** `World::InitFood`. */
    method InitFood(draw: Sower)
      requires sectors.Valid() && forall k :: 0 <= k < SECTORS ==> sectors.food[k] == []
      modifies sectors`food
      ensures sectors.Valid() && forall k :: 0 <= k < SECTORS ==> sectors.food[k] == Sown(k, draw, Density(k))
    {
      hide Density, Sown;
      for k := 0 to SECTORS
        invariant sectors.Valid()
        invariant forall j :: 0 <= j < k ==> sectors.food[j] == Sown(j, draw, Density(j))
        invariant forall j :: k <= j < SECTORS ==> sectors.food[j] == []
      {
        SowSector(k, draw);
      }
    }

    /** `World::SpawnNumSnakes`. */
    method SpawnNumSnakes(count: nat, d: nat -> Draws)
      requires Valid() && snakes == map[]
      modifies this`snakes, this`lastSnakeId, sectors`snakes
      ensures Valid() && lastSnakeId == old(lastSnakeId) + count && Table(snakes) == Bots(old(lastSnakeId), d, count)
      ensures fresh(Bodies(snakes))
    {
      hide World.Valid, Snake.State, Table, Bodies, Placed, Blank, Drawn;
      ghost var last := lastSnakeId;
      NoTable();
      for i := 0 to count
        invariant Valid() && lastSnakeId == last + i && Table(snakes) == Bots(last, d, i) && fresh(Bodies(snakes))
      {
        ghost var m := snakes;
        var s := AddNewSnake(d(i), true);
        OneBody(m, s);
      }
    }

    /** `World::FlushChanges`. */
    method FlushChanges()
      requires Valid()
      modifies this`changes
      ensures Valid() && Table(snakes) == old(Table(snakes)) && changes == []
    {
      hide Snake.State, Snake.Valid, Sound, Table, Bodies;
      WorldNotBody(snakes, this);
      changes := [];
    }

    /** `World::FlushChanges` of one snake. */
    method FlushChangesOf(id: nat)
      requires Valid()
      modifies this`changes
      ensures Valid() && Table(snakes) == old(Table(snakes)) && changes == Without(old(changes), id)
    {
      hide Snake.State, Snake.Valid, Sound, Table, Bodies;
      WorldNotBody(snakes, this);
      changes := Without(changes, id);
    }

    method EraseSnake(id: nat)
      requires Valid() && id in snakes
      modifies this`snakes, sectors`snakes
      ensures Valid() && snakes == old(snakes) - {id} && Table(snakes) == old(Table(snakes)) - {id}
    {
      hide Agree, Bodies, Registered, OthersKept, Snake.State, Snake.Valid, Table, Sound;
      SoundAll(snakes, sectors, lastSnakeId);
      ghost var table, m := Table(snakes), snakes;
      TableBox(snakes, id);
      Deregister(snakes[id], table, m);
      snakes := snakes - {id};
      TableShrunk(m, table, id);
      SoundShrunk(m, sectors, lastSnakeId, id);
    }

    /** `World::RemoveSnake`: afterwards no sector, change or table entry has the id. */
    method RemoveSnake(id: nat)
      requires Valid()
      modifies this`snakes, this`changes, sectors`snakes
      ensures Valid() && snakes == old(snakes) - {id} && changes == Without(old(changes), id)
      ensures Table(snakes) == old(Table(snakes)) - {id}
      ensures forall k :: 0 <= k < SECTORS ==> id !in sectors.snakes[k]
    {
      hide Agree, Bodies, Snake.State, Snake.Valid, Table, Sound;
      FlushChangesOf(id);
      if id in snakes {
        EraseSnake(id);
      } else {
        assert snakes - {id} == snakes && Table(snakes) - {id} == Table(snakes);
      }
      SoundAll(snakes, sectors, lastSnakeId);
      GoneFrom(sectors.snakes, Table(snakes), id);
    }

    /** The loop of `World::RemoveSnake` over the snake's sectors. */
    method Deregister(s: Snake, ghost table: SnakeMap, ghost m: map<nat, Snake>)
      requires sectors.Valid() && s.Valid() && s.id in table && table[s.id].sbb == Elems(s.sbb.sectors)
      requires Agree(sectors.snakes, table)
      modifies sectors`snakes
      ensures sectors.Valid() && Agree(sectors.snakes, table - {s.id})
      ensures forall j :: j in m ==> m[j].State() == old(m[j].State()) && m[j].Valid() == old(m[j].Valid())
    {
      hide Agree, Registered, OthersKept;
      ghost var reg, list := sectors.snakes, s.sbb.sectors;
      AgreeIn(reg, table, s.id);
      OthersKeptSelf(reg, s.id);
      assert Elems(list) - Elems(list[..0]) == Elems(list);
      for n := 0 to |s.sbb.sectors|
        invariant sectors.Valid() && OthersKept(reg, sectors.snakes, s.id)
        invariant Registered(sectors.snakes, s.id, Elems(list) - Elems(list[..n]))
      {
        ghost var before := sectors.snakes;
        assert list[n] in list;
        Deregistered(before, s.id, Elems(list) - Elems(list[..n]), list[n]);
        sectors.RemoveSnake(s.sbb.sectors[n], s.id);
        OthersKeptTwice(reg, before, sectors.snakes, s.id);
        assert Elems(list[..n + 1]) == Elems(list[..n]) + {list[n]};
        assert Elems(list) - Elems(list[..n]) - {list[n]} == Elems(list) - Elems(list[..n + 1]);
      }
      assert list[..|list|] == list;
      assert Elems(list) - Elems(list) == {};
      AgreeGone(reg, sectors.snakes, table, s.id);
    }
  }

  lemma NoTable()
    ensures Table(map[]) == map[] && Bodies(map[]) == {}
  {
  }

  lemma OneBody(m: map<nat, Snake>, s: Snake)
    ensures Bodies(m[s.id := s]) <= Bodies(m) + {s, s.sbb, s.vp}
  {
  }

  /** The pieces of `Sound`. */
  lemma SoundAll(m: map<nat, Snake>, ss: SectorSeq, last: nat)
    requires Sound(m, ss, last)
    ensures Owned(m) && ss.Valid() && |ss.snakes| == SECTORS && Agree(ss.snakes, Table(m))
    ensures forall id :: id in m ==> 0 < id <= last && m[id].Valid() && Table(m)[id] == m[id].State()
  {
  }

  lemma TableBox(m: map<nat, Snake>, id: nat)
    requires id in m
    ensures Table(m)[id].sbb == Elems(m[id].sbb.sectors)
  {
  }

  lemma TableShrunk(m: map<nat, Snake>, table: SnakeMap, id: nat)
    requires table.Keys == m.Keys && forall j :: j in m ==> m[j].State() == table[j]
    ensures Table(m - {id}) == table - {id}
  {
    hide Snake.State;
  }

  lemma SoundGrown(m: map<nat, Snake>, ss: SectorSeq, last: nat, s: Snake)
    requires Owned(m) && ss.Valid() && s.id == last && s.id !in m && last > 0
    requires s.Valid() && s.sbb.id == s.id && s.vp.id == s.id
    requires forall id :: id in m ==> 0 < id <= last && m[id].Valid()
    requires Agree(ss.snakes, Table(m[s.id := s]))
    ensures Sound(m[s.id := s], ss, last)
  {
    hide Agree, Snake.Valid, Snake.State, Table;
  }

  lemma SoundShrunk(m: map<nat, Snake>, ss: SectorSeq, last: nat, id: nat)
    requires Owned(m) && ss.Valid()
    requires forall j :: j in m ==> 0 < j <= last && m[j].Valid()
    requires Agree(ss.snakes, Table(m - {id}))
    ensures Sound(m - {id}, ss, last)
  {
    hide Agree, Snake.Valid, Snake.State, Table;
  }

  lemma AgreeGone(reg: seq<seq<nat>>, reg': seq<seq<nat>>, snakes: SnakeMap, id: nat)
    requires Agree(reg, snakes) && OthersKept(reg, reg', id) && Registered(reg', id, {})
    ensures Agree(reg', snakes - {id})
  {
    hide Registered, OthersKept;
    var after := snakes - {id};
    forall j: nat
      ensures Agreed(reg', after, j)
    {
      assert Agreed(reg, snakes, j);
      if j != id {
        KeptRegistered(reg, reg', id, j, BoxOf(snakes, j));
      }
    }
  }

  lemma GoneFrom(reg: seq<seq<nat>>, snakes: SnakeMap, id: nat)
    requires Agree(reg, snakes) && |reg| == SECTORS && id !in snakes
    ensures forall k :: 0 <= k < SECTORS ==> id !in reg[k]
  {
    hide Agree;
    forall k | 0 <= k < SECTORS
      ensures id !in reg[k]
    {
      ListedIs(reg, snakes, k, id);
    }
  }

  lemma TableGrown(m: map<nat, Snake>, table: SnakeMap, s: Snake)
    requires s.id !in m && table.Keys == m.Keys && forall j :: j in m ==> m[j].State() == table[j]
    ensures Table(m[s.id := s]) == table[s.id := s.State()]
  {
    hide Snake.State;
  }

  lemma AgreeOut(reg: seq<seq<nat>>, snakes: SnakeMap, id: nat)
    requires Agree(reg, snakes) && id !in snakes
    ensures Registered(reg, id, {})
  {
    hide Registered;
    assert Agreed(reg, snakes, id);
  }

  lemma SoundFood(m: map<nat, Snake>, ss: SectorSeq, last: nat)
    requires Sound(m, ss, last)
    ensures FoodOk(ss.food)
  {
  }

  lemma MarkBodied(snakes: SnakeMap, changes: seq<nat>)
    requires Bodied(snakes)
    ensures MarkAll(snakes, changes).Keys == snakes.Keys && Bodied(MarkAll(snakes, changes))
  {
  }

  lemma SectorsNotBody(m: map<nat, Snake>, ss: SectorSeq)
    ensures (ss as object) !in Bodies(m)
  {
  }

  lemma SoundId(m: map<nat, Snake>, ss: SectorSeq, last: nat, id: nat)
    requires Sound(m, ss, last) && id in m
    ensures m[id].id == id
  {
  }

  lemma TableFlags(m: map<nat, Snake>, id: nat)
    requires id in m
    ensures Table(m)[id].flags == m[id].update
  {
  }

  /** Marking one more changed snake, decided on the table as it stands, gives the next set-level marking. */
  lemma MarkRound(snakes: SnakeMap, changes: seq<nat>, n: nat)
    requires n < |changes| && changes[n] in snakes
    ensures var cur, id := MarkAll(snakes, changes[..n]), changes[n];
            MarkAll(snakes, changes[..n + 1])
            == cur[id := if cur[id].flags.pos && Doomed(cur, id) then Marked(cur[id]) else cur[id]]
    ensures MarkAll(snakes, changes[..n])[changes[n]].flags.pos == snakes[changes[n]].flags.pos
  {
    hide Doomed;
    DoomedByShape(snakes, MarkAll(snakes, changes[..n]), changes[n]);
    assert changes[..n + 1] == changes[..n] + [changes[n]];
    MarkMore(snakes, changes[..n], changes[n]);
  }

  lemma MarkMore(snakes: SnakeMap, list: seq<nat>, id: nat)
    requires id in snakes
    ensures var cur := MarkAll(snakes, list);
            MarkAll(snakes, list + [id])
            == cur[id := if cur[id].flags.pos && Doomed(snakes, id) then Marked(cur[id]) else cur[id]]
  {
    hide Doomed, Marked;
    var cur, next := MarkAll(snakes, list), MarkAll(snakes, list + [id]);
    assert Marked(Marked(snakes[id])) == Marked(snakes[id]) && Marked(snakes[id]).flags.pos == snakes[id].flags.pos by {
      MarkTwice(snakes[id]);
    }
    forall j | j in snakes && j != id
      ensures next[j] == cur[j]
    {
      assert j in list + [id] <==> j in list;
    }
    assert id in list + [id];
  }

  lemma MarkTwice(s: SnakeState)
    ensures Marked(Marked(s)) == Marked(s) && Marked(s).flags.pos == s.flags.pos
  {
  }

  /** After the ticks of a pass the table has the same ids, every change is one of them, and all have bodies. */
  lemma {:induction false} AllTicked(snakes: SnakeMap, food: FoodMap, dt: nat, env: Env, n: nat)
    requires EnvOk(env, snakes) && AllSteady(snakes) && FoodOk(food) && n <= |env.order|
    ensures var t := TickAll(snakes, food, dt, env, n);
            && t.snakes.Keys == snakes.Keys
            && (forall i :: 0 <= i < |t.changes| ==> t.changes[i] in snakes)
            && Bodied(t.snakes)
  {
    hide TickOne, Steady, EnvOk;
    if n > 0 {
      AllTicked(snakes, food, dt, env, n - 1);
      Unticked(snakes, food, dt, env, n - 1);
      EnvOrder(env, snakes, n - 1);
      var t := TickAll(snakes, food, dt, env, n - 1);
      SteadyTick(snakes[env.order[n - 1]], t.food, dt, env.inputs(env.order[n - 1]));
    } else {
      forall id | id in snakes
        ensures |snakes[id].parts| >= 3
      {
        SteadyBody(snakes[id]);
      }
    }
  }

  lemma SteadyBody(s: SnakeState)
    requires Steady(s)
    ensures |s.parts| >= 3
  {
  }

  /** Every snake has a body to test against. */
  ghost predicate Bodied(snakes: SnakeMap) {
    forall id :: id in snakes ==> |snakes[id].parts| >= 3
  }

  /** All cached ids are other snakes that do not hit. */
  ghost predicate Cleared(snakes: SnakeMap, id: nat, check: Circle, cache: seq<nat>) {
    forall j :: j in cache ==> j in snakes && j != id && !Hits(snakes[j].parts, check)
  }

  /** Every other snake listed in one of the sectors is cached. */
  ghost predicate Covered(reg: seq<seq<nat>>, id: nat, seen: set<nat>, cache: seq<nat>) {
    |reg| == SECTORS && forall k, j :: k in seen && k < SECTORS && j in reg[k] && j != id ==> j in cache
  }

  predicate OutsideDeath(p: Body)
    ensures OutsideDeath(p) <==> !Inside(p, CENTRE, DEATH)
  {
    Dist2(p, CENTRE) >= DEATH * DEATH
  }

  /** The value table shows the current bodies. */
  ghost predicate Mirrors(m: map<nat, Snake>, table: SnakeMap)
    reads set id | id in m :: m[id]
  {
    m.Keys == table.Keys && forall id :: id in m ==> m[id].parts == table[id].parts && |m[id].parts| >= 3
  }

  lemma TableMirrors(m: map<nat, Snake>)
    requires Bodied(Table(m))
    ensures Mirrors(m, Table(m))
  {
    forall id | id in m
      ensures m[id].parts == Table(m)[id].parts && |m[id].parts| >= 3
    {
      assert Table(m)[id] == m[id].State();
    }
  }

  lemma NothingCovered(reg: seq<seq<nat>>, snakes: SnakeMap, id: nat, check: Circle)
    requires |reg| == SECTORS
    ensures Cleared(snakes, id, check, []) && Covered(reg, id, {}, [])
  {
  }

  lemma CoveredMore(reg: seq<seq<nat>>, id: nat, seen: set<nat>, k: nat, before: seq<nat>, after: seq<nat>)
    requires Covered(reg, id, seen, before) && k < SECTORS
    requires forall j :: j in before ==> j in after
    requires forall j :: j in reg[k] && j != id ==> j in after
    ensures Covered(reg, id, seen + {k}, after)
  {
  }

  lemma AllListed(reg: seq<seq<nat>>, snakes: SnakeMap, k: nat)
    requires Agree(reg, snakes) && |reg| == SECTORS && k < SECTORS
    ensures forall j :: j in reg[k] ==> j in snakes
  {
    hide Agree;
    forall j | j in reg[k]
      ensures j in snakes
    {
      ListedIs(reg, snakes, k, j);
    }
  }

  lemma SoundParts(m: map<nat, Snake>, ss: SectorSeq, last: nat)
    requires Sound(m, ss, last)
    ensures Agree(ss.snakes, Table(m)) && |ss.snakes| == SECTORS
  {
  }

  /** In agreement, a sector lists exactly the snakes whose box contains it. */
  lemma ListedIs(reg: seq<seq<nat>>, snakes: SnakeMap, k: nat, j: nat)
    requires Agree(reg, snakes) && |reg| == SECTORS && k < SECTORS
    ensures j in reg[k] <==> j in snakes && k in snakes[j].sbb
  {
    assert Agreed(reg, snakes, j);
    assert j in reg[k] <==> multiset(reg[k])[j] > 0;
  }

  lemma HitDooms(reg: seq<seq<nat>>, snakes: SnakeMap, id: nat, k: nat)
    requires Agree(reg, snakes) && |reg| == SECTORS && id in snakes && Bodied(snakes)
    requires k in Meeting(Circle(Head(snakes[id]).x, Head(snakes[id]).y, 42.0))
    requires exists j :: j in reg[k] && j != id && j in snakes && Hits(snakes[j].parts, HeadCircle(snakes[id]))
    ensures Doomed(snakes, id)
  {
    hide Hits, Registered, Meets, BodyRadius, Inside, Agree;
    var j :| j in reg[k] && j != id && j in snakes && Hits(snakes[j].parts, HeadCircle(snakes[id]));
    ListedIs(reg, snakes, k, j);
    assert Bumps(snakes, id, j);
  }

  lemma MissSpares(reg: seq<seq<nat>>, snakes: SnakeMap, id: nat, cache: seq<nat>)
    requires Agree(reg, snakes) && id in snakes && Inside(Head(snakes[id]), CENTRE, DEATH)
    requires Cleared(snakes, id, HeadCircle(snakes[id]), cache)
    requires Covered(reg, id, Meeting(Circle(Head(snakes[id]).x, Head(snakes[id]).y, 42.0)), cache)
    ensures !Doomed(snakes, id)
  {
    hide Hits, Registered, Meets, BodyRadius, Inside, Agree;
    forall j | Bumps(snakes, id, j)
      ensures false
    {
      var k :| k in snakes[j].sbb && k in Meeting(Circle(Head(snakes[id]).x, Head(snakes[id]).y, 42.0));
      ListedIs(reg, snakes, k, j);
    }
  }

  lemma AgreeSame(reg: seq<seq<nat>>, a: SnakeMap, b: SnakeMap)
    requires Agree(reg, a) && a.Keys == b.Keys && forall id :: id in a ==> a[id].sbb == b[id].sbb
    ensures Agree(reg, b)
  {
    hide Registered;
    forall id: nat
      ensures Agreed(reg, b, id)
    {
      assert Agreed(reg, a, id);
      assert BoxOf(a, id) == BoxOf(b, id);
    }
  }

  lemma AgreeIn(reg: seq<seq<nat>>, snakes: SnakeMap, id: nat)
    requires Agree(reg, snakes) && id in snakes
    ensures Registered(reg, id, snakes[id].sbb)
  {
    hide Registered;
    assert Agreed(reg, snakes, id);
  }
}
