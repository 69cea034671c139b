/** Death food on a position that a pending eat packet is about. */
module Reuse {
  import opened Geometry
  import opened Config
  import opened Grid
  import opened FoodList
  import opened SnakeModel
  import opened DeathFood
  import opened WorldModel
  import opened Packets
  import opened ServerModel
  import opened FoodMirror

  /** A dying snake drops a single, well-filed piece on a free position, and after it the packets ps of the snakes
      behind it in the change list go out. The piece is on the map, and a client that was on its way ends up
      knowing it if and only if none of those packets is about its position. */
  lemma ReusedIff(c: Client, id: nat, eaten: seq<Food>, spawn: seq<Food>, d: seq<Drop>, ps: seq<Packet>, food: FoodMap, at: Pos)
    requires CleanAt(food, at) && FreshDrops(d, [], food, at) && OnMapDrops(d) && Has(FoodsOf(d), at)
    requires FoodOnly(ps) && OnTheWay(c, FoodPackets(id, eaten, spawn) + ps, food, at)
    ensures FoodOk(food) && forall i :: 0 <= i < |d| ==> d[i].sector < SECTORS
    ensures Holds(Fallen(food, d), at)
    ensures at in ApplyAll(c, FoodPackets(id, eaten, spawn + FoodsOf(d)) + ps).food <==> Last(ps, at) == Untouched
  {
    hide Holds, Home, Has, CleanAt, FoodPackets, FoodsOf, Fallen, ApplyAll, FoodOnly;
    FallenHolds(food, d, [], at);
    DropQuiet(d, [], food, at);
    MoreSpawn(id, eaten, spawn, FoodsOf(d));
    var a, b := FoodPackets(id, eaten, spawn), FoodPackets(id, [], FoodsOf(d));
    LastSpawned(id, FoodsOf(d), at);
    LastConcat(a, ps, at);
    LastConcat(a, b, at);
    LastConcat(a + b, ps, at);
    FoodPacketsOnly(id, eaten, spawn + FoodsOf(d));
    OnlyBoth(a + b, ps);
    LastWord(c, a + b + ps, at);
  }

  lemma OnlyBoth(a: seq<Packet>, b: seq<Packet>)
    requires FoodOnly(a) && FoodOnly(b)
    ensures FoodOnly(a + b)
  {
  }

  // ---------------------------------------------------------------- a broadcast that loses a piece

  /** What a live snake's turn leaves a bystander knowing of a position. */
  lemma LiveTurn(b: Broadcast, id: nat, env: Env, h: nat, at: Pos)
    requires FoodOk(b.sv.food) && id in b.sv.snakes && h in b.sv.clients
    requires var s := b.sv.snakes[id]; s.bot && s.flags.pos && !s.flags.dying && !s.flags.dead
    ensures var s, r := b.sv.snakes[id], TakeTurn(b, id, env).sv;
            && r.food == b.sv.food && h in r.clients && r.snakes == b.sv.snakes[id := Reported(s)]
            && (at in r.clients[h].food
                <==> at in ApplyAll(b.sv.clients[h], FoodPackets(s.id, s.eaten, s.spawn)).food)
  {
    hide FoodPackets, ApplyAll, Neutral, FoodOnly, RotationPackets, LengthPackets, MovePackets, Reported, FoodOk, Last;
    var s, c := b.sv.snakes[id], b.sv.clients[h];
    var head, meal := RotationPackets(s) + (LengthPackets(s) + MovePackets(s)), FoodPackets(s.id, s.eaten, s.spawn);
    HeaderNeutral(s);
    FoodPacketsOnly(s.id, s.eaten, s.spawn);
    ApplyConcat(c, head, meal);
    NeutralApply(c, head);
    LastWord(c, meal, at);
    LastWord(ApplyAll(c, head), meal, at);
  }

  /** What a dying snake's turn leaves any client knowing of a position. */
  lemma DyingTurn(b: Broadcast, id: nat, env: Env, h: nat, at: Pos)
    requires FoodOk(b.sv.food) && id in b.sv.snakes && h in b.sv.clients
    requires var s := b.sv.snakes[id]; s.flags.dying && !s.flags.dead
    ensures var s, r := b.sv.snakes[id], TakeTurn(b, id, env).sv;
            && r.food == Fallen(b.sv.food, Remains(s, env)) && h in r.clients && r.snakes == b.sv.snakes[id := Buried(s)]
            && (at in r.clients[h].food
                <==> at in ApplyAll(b.sv.clients[h], FoodPackets(s.id, s.eaten, s.spawn + FoodsOf(Remains(s, env)))).food)
  {
    hide FoodPackets, ApplyAll, Neutral, FoodsOf, Remains, Fallen, Buried, FoodOk;
    var s, c := b.sv.snakes[id], b.sv.clients[h];
    var foods := FoodPackets(s.id, s.eaten, s.spawn + FoodsOf(Remains(s, env)));
    var last := [Packet.RemoveSnake(s.id, true), Packet.RemoveSnake(s.id, false)];
    RemovalNeutral(s.id);
    FoodPacketsOnly(s.id, s.eaten, s.spawn + FoodsOf(Remains(s, env)));
    LastWord(c, foods, at);
    forall d | d == c || d == Apply(c, End)
      ensures at in ApplyAll(d, ObituaryPackets(s, env)).food <==> at in ApplyAll(c, foods).food
    {
      ApplyConcat(d, foods, last);
      NeutralApply(ApplyAll(d, foods), last);
      LastWord(d, foods, at);
    }
  }

  lemma RemovalNeutral(id: nat)
    ensures Neutral([Packet.RemoveSnake(id, true), Packet.RemoveSnake(id, false)])
  {
  }

  /** Two turns, a dying snake's and that of a bot that ate at `at`: with the dying snake first, its piece at `at` is
      on the map and no client knows it; with the bot first, every client does. */
  lemma OrderMatters(sv: Server, a: nat, b: nat, env: Env, h: nat, at: Pos)
    requires FoodOk(sv.food) && CleanAt(sv.food, at) && a != b && a in sv.snakes && b in sv.snakes && h in sv.clients
    requires var s := sv.snakes[a];
             && s.flags.dying && !s.flags.dead && s.eaten == [] && s.spawn == []
             && FreshDrops(Remains(s, env), [], sv.food, at) && Has(FoodsOf(Remains(s, env)), at)
    requires var s := sv.snakes[b];
             && s.bot && s.flags.pos && !s.flags.dying && !s.flags.dead && s.spawn == [] && Has(s.eaten, at)
    ensures var lost, kept := Turns(Broadcast(sv, []), [a, b], env, 2).sv, Turns(Broadcast(sv, []), [b, a], env, 2).sv;
            && Holds(lost.food, at) && h in lost.clients && at !in lost.clients[h].food
            && Holds(kept.food, at) && h in kept.clients && at in kept.clients[h].food
  {
    hide CleanAt, FreshDrops, Has, Holds, FoodsOf, Remains, Fallen, FoodPackets, FoodOk, Last, Reported, Buried, TakeTurn, ApplyAll, FoodOnly;
    var start, sa, sb := Broadcast(sv, []), sv.snakes[a], sv.snakes[b];
    var drops := FoodsOf(Remains(sa, env));
    assert [] + drops == drops;
    FallenHolds(sv.food, Remains(sa, env), [], at);
    TwoTurns(start, a, b, env);
    TwoTurns(start, b, a, env);
    LastSpawned(sa.id, drops, at);
    LastEaten(sb.id, sb.eaten, at);
    FoodPacketsOnly(sa.id, [], drops);
    FoodPacketsOnly(sb.id, sb.eaten, []);
    var first := TakeTurn(start, a, env);
    DyingTurn(start, a, env, h, at);
    LiveTurn(first, b, env, h, at);
    LastWord(first.sv.clients[h], FoodPackets(sb.id, sb.eaten, []), at);
    var other := TakeTurn(start, b, env);
    LiveTurn(start, b, env, h, at);
    DyingTurn(other, a, env, h, at);
    LastWord(other.sv.clients[h], FoodPackets(sa.id, [], drops), at);
  }

  lemma TwoTurns(b: Broadcast, a: nat, c: nat, env: Env)
    requires FoodOk(b.sv.food)
    ensures Turns(b, [a, c], env, 2) == TakeTurn(TakeTurn(b, a, env), c, env)
  {
    hide TakeTurn, FoodOk;
    assert Turns(b, [a, c], env, 0) == b;
    assert Turns(b, [a, c], env, 1) == TakeTurn(b, a, env);
  }

  // ---------------------------------------------------------------- one such broadcast

  const HERE: Pos := (22614, 21614)

  /** The first three draws are 0, all others 1. */
  function Luck(n: nat): real {
    if n < 3 then 0.0 else 1.0
  }

  lemma LowPieces(p: Body, k: nat, draw: nat -> real, from: nat)
    requires p.x <= 22600.0 && p.x >= 22000.0 && forall n: nat :: n >= from ==> draw(n) == 1.0
    ensures forall i :: 0 <= i < 2 ==> PartDrops(p, k, 3, draw, from, 2)[i].food.x <= 22571
  {
    assert BodyRadius(3) == 14.5;
    assert PartDrops(p, k, 3, draw, from, 0) == [];
    assert PartDrops(p, k, 3, draw, from, 1) == [Drop(k, Scatter(p, 3, draw(from), draw(from + 1), draw(from + 2)))];
  }

  lemma FirstPieces(k: nat, draw: nat -> real)
    requires forall n: nat :: draw(n) == Luck(n)
    ensures var d := PartDrops(Body(22600.0, 21600.0), k, 3, draw, 0, 2);
            PosOf(d[0].food) == HERE && d[1].food.x <= 22571
  {
    var p := Body(22600.0, 21600.0);
    assert BodyRadius(3) == 14.5;
    assert PartDrops(p, k, 3, draw, 0, 0) == [];
    assert PartDrops(p, k, 3, draw, 0, 1) == [Drop(k, Scatter(p, 3, draw(0), draw(1), draw(2)))];
  }

  lemma PieceCount()
    ensures DropCount(3) == 2
  {
  }

  /** With these draws a newborn body leaves exactly one piece at `HERE`, and it is filed where it lies. */
  lemma OnePieceHere(parts: seq<Body>, draw: nat -> real)
    requires parts == [Body(22600.0, 21600.0), Body(22558.0, 21600.0), Body(22516.0, 21600.0)]
    requires forall n: nat :: draw(n) == Luck(n)
    ensures var d := Drops(parts, draw, 3);
            && |d| == 6 && d[0].sector == Home(HERE) && PosOf(d[0].food) == HERE
            && forall i :: 0 < i < 6 ==> PosOf(d[i].food) != HERE
  {
    hide PartDrops, DropCount;
    PieceCount();
    var k := Index(75, 72);
    FirstPieces(k, draw);
    LowPieces(parts[1], k, draw, 6);
    LowPieces(parts[2], k, draw, 12);
    var a, b, c := PartDrops(parts[0], k, 3, draw, 0, 2), PartDrops(parts[1], k, 3, draw, 6, 2), PartDrops(parts[2], k, 3, draw, 12, 2);
    assert Drops(parts, draw, 0) == [];
    assert Drops(parts, draw, 1) == a;
    assert Drops(parts, draw, 2) == a + b;
    assert Drops(parts, draw, 3) == a + b + c;
  }

  function Victim(): SnakeState {
    var s := Blank(1, 9, [Body(22600.0, 21600.0), Body(22558.0, 21600.0), Body(22516.0, 21600.0)], 0.0);
    s.(flags := s.flags.(pos := true, dying := true))
  }

  /** A bot that has just eaten at `HERE`. */
  function Eater(): SnakeState {
    var s := Blank(2, 9, [Body(22640.0, 21640.0), Body(22682.0, 21640.0), Body(22724.0, 21640.0)], 0.0);
    s.(bot := true, flags := s.flags.(pos := true), eaten := [Food(22614, 21614, 5, 0)])
  }

  function Bare(): (food: FoodMap)
    ensures FoodOk(food) && |food| == SECTORS && forall k :: 0 <= k < SECTORS ==> food[k] == []
  {
    seq(SECTORS, k requires 0 <= k < SECTORS => [])
  }

  function Scene(): Server {
    Server(map[1 := Victim(), 2 := Eater()], Bare(), 2, 0, map[], map[], map[7 := FRESH])
  }

  lemma BareClean(at: Pos)
    ensures CleanAt(Bare(), at) && !Holds(Bare(), at)
  {
    hide Home;
  }

  /** The scene: no food on the map, a bystander, a snake that dies and a bot that ate where a piece of it falls.
      If the dying snake is listed first, the piece is on the map and the bystander never learns of it. */
  lemma PieceLost(env: Env)
    requires forall n: nat :: env.random(1, n) == Luck(n)
    ensures var sv := Scene();
            var lost, kept := Turns(Broadcast(sv, []), [1, 2], env, 2).sv, Turns(Broadcast(sv, []), [2, 1], env, 2).sv;
            && Holds(lost.food, HERE) && 7 in lost.clients && HERE !in lost.clients[7].food
            && Holds(kept.food, HERE) && 7 in kept.clients && HERE in kept.clients[7].food
  {
    hide CleanAt, Holds, Turns, Home, Drops, Bare;
    BareClean(HERE);
    var s := Victim();
    OnePieceHere(s.parts, (n: nat) => env.random(s.id, n));
    var d := Remains(s, env);
    assert FoodsOf(d)[0] == d[0].food;
    assert Eater().eaten[0] == Food(22614, 21614, 5, 0);
    OrderMatters(Scene(), 1, 2, env, 7, HERE);
  }
}
