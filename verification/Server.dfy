/** The mutable game server: the world, the session tables, and what has been sent to each session.
    Every handler is proved to compute the function of `ServerModel` that carries its name. */
module ServerObject {
  import opened Geometry
  import opened Config
  import opened Movement
  import opened Birth
  import opened Grid
  import opened SortedVec
  import opened SnakeModel
  import opened SnakeLaws
  import opened BodyLaws
  import opened Sectors
  import opened SnakeObject
  import opened DeathFood
  import opened WorldModel
  import opened WorldObject
  import opened Packets
  import opened ServerModel
  import opened StepLaws
  import opened MirrorLaws
  import opened Boot
  import opened Runs
  import opened RunLaws

  // ---------------------------------------------------------------- sending

  lemma TellNothing(clients: map<nat, Client>)
    ensures Tell(clients, []) == clients
  {
  }

  lemma TellMore(clients: map<nat, Client>, a: seq<Packet>, b: seq<Packet>)
    ensures Tell(Tell(clients, a), b) == Tell(clients, a + b)
  {
    forall h | h in clients
      ensures ApplyAll(ApplyAll(clients[h], a), b) == ApplyAll(clients[h], a + b)
    {
      ApplyConcat(clients[h], a, b);
    }
  }

  /** What has been sent to each open session, in order. */
  class Endpoint {
    var log: map<nat, seq<Packet>>

    constructor ()
      ensures log == map[]
    {
      log := map[];
    }

    /** The clients these logs lead to. */
    ghost function Clients(): (r: map<nat, Client>)
      reads this
      ensures r.Keys == log.Keys
    {
      map h | h in log :: Replay(log[h])
    }

    /** `send_binary`. */
    method Send(h: nat, p: Packet)
      requires h in log
      modifies this
      ensures log.Keys == old(log.Keys)
      ensures Clients() == old(Clients())[h := Apply(old(Clients())[h], p)]
    {
      hide Apply;
      ApplySnoc(FRESH, log[h], p);
      log := log[h := log[h] + [p]];
    }

    /** `broadcast_binary`. */
    method Broadcast(p: Packet)
      modifies this
      ensures log.Keys == old(log.Keys)
      ensures Clients() == Tell(old(Clients()), [p])
    {
      hide Apply, ApplyAll, Replay;
      ghost var was := log;
      var todo := log.Keys;
      while todo != {}
        invariant log.Keys == was.Keys && todo <= log.Keys
        invariant forall h :: h in log ==> log[h] == if h in todo then was[h] else was[h] + [p]
        decreases |todo|
      {
        var h :| h in todo;
        log := log[h := log[h] + [p]];
        todo := todo - {h};
      }
      forall h | h in log
        ensures Replay(log[h]) == ApplyAll(Replay(was[h]), [p])
      {
        ReplayMore(was[h], [p]);
      }
    }

    method Join(h: nat)
      modifies this
      ensures log.Keys == old(log.Keys) + {h} && Clients() == old(Clients())[h := FRESH]
    {
      log := log[h := []];
    }

    method Leave(h: nat)
      modifies this
      ensures log.Keys == old(log.Keys) - {h} && Clients() == old(Clients()) - {h}
    {
      log := log - {h};
    }
  }

  lemma ReplayMore(log: seq<Packet>, ps: seq<Packet>)
    ensures Replay(log + ps) == ApplyAll(Replay(log), ps)
  {
    ApplyConcat(FRESH, log, ps);
  }

  // ---------------------------------------------------------------- food and viewport updates

  lemma FoodPacketsFrom(id: nat, eaten: seq<Food>, i: nat)
    requires i < |eaten|
    ensures FoodPackets(id, eaten[..i + 1], []) == FoodPackets(id, eaten[..i], []) + [Eaten(id, eaten[i])]
  {
  }

  lemma SpawnPacketsFrom(id: nat, eaten: seq<Food>, spawn: seq<Food>, i: nat)
    requires i < |spawn|
    ensures FoodPackets(id, eaten, spawn[..i + 1]) == FoodPackets(id, eaten, spawn[..i]) + [Spawned(spawn[i])]
  {
  }

  /** A client that gains the sectors of a list, with their food. */
  function Gained(c: Client, ks: seq<nat>, food: FoodMap): Client {
    c.(view := c.view + Elems(ks), food := c.food + Shown(food, Elems(ks)))
  }

  /** A client that loses the sectors of a list, with their food. */
  function Lost(c: Client, ks: seq<nat>): Client {
    c.(view := c.view - Elems(ks), food := set p | p in c.food && Home(p) !in Elems(ks))
  }

  lemma GainOne(c: Client, ks: seq<nat>, i: nat, food: FoodMap)
    requires i < |ks| && ks[i] < |food|
    ensures Gained(c, ks[..i + 1], food)
            == Apply(Apply(Gained(c, ks[..i], food), AddSector(ks[i])), SetFood(food[ks[i]]))
  {
    assert Elems(ks[..i + 1]) == Elems(ks[..i]) + {ks[i]};
    assert Shown(food, Elems(ks[..i + 1])) == Shown(food, Elems(ks[..i])) + Positions(food[ks[i]]);
    assert c.view + Elems(ks[..i + 1]) == c.view + Elems(ks[..i]) + {ks[i]};
  }

  lemma LoseOne(c: Client, ks: seq<nat>, i: nat)
    requires i < |ks|
    ensures Lost(c, ks[..i + 1]) == Apply(Lost(c, ks[..i]), RemoveSector(ks[i]))
  {
    hide Home;
    assert Elems(ks[..i + 1]) == Elems(ks[..i]) + {ks[i]};
    assert c.view - Elems(ks[..i + 1]) == c.view - Elems(ks[..i]) - {ks[i]};
  }

  lemma NoneGained(c: Client, food: FoodMap)
    ensures Gained(c, [], food) == c && Lost(c, []) == c
  {
    assert Elems<nat>([]) == {};
    assert Shown(food, {}) == {};
    assert Lost(c, []).food == c.food;
  }

  /** Gaining, then losing, is the point-of-view update of the model. */
  lemma GainedThenLost(c: Client, s: SnakeState, gained: seq<nat>, lost: seq<nat>, food: FoodMap)
    requires s.newS == Elems(gained) && s.oldS == Elems(lost)
    ensures Lost(Gained(c, gained, food), lost) == PointOfView(c, s, food)
  {
    hide Home, Shown;
  }

  /** The session of a snake, if it has one. */
  predicate Connected(sessions: map<nat, nat>, connections: map<nat, nat>, id: nat) {
    id in connections && connections[id] in sessions
  }

  class GameServer {
    const world: World
    const wire: Endpoint
    var sessions: map<nat, nat>
    var connections: map<nat, nat>

    constructor ()
      ensures fresh(world) && fresh(wire) && fresh(world.sectors) && world.Valid() && wire.log == map[]
      ensures sessions == map[] && connections == map[] && world.snakes == map[] && world.changes == [] && world.dead == []
    {
      world := new World();
      wire := new Endpoint();
      sessions, connections := map[], map[];
    }

    /** `GameServer::LoadSessionIter`. */
    method LoadSession(id: nat) returns (found: bool, h: nat)
      ensures found <==> Connected(sessions, connections, id)
      ensures found ==> h == connections[id]
    {
      if id !in connections || connections[id] !in sessions {
        return false, 0;
      }
      return true, connections[id];
    }

    /** `GameServer::SendFoodUpdate`. */
    method SendFoodUpdate(s: Snake)
      modifies wire, s`eaten, s`spawn
      ensures wire.log.Keys == old(wire.log.Keys)
      ensures wire.Clients() == Tell(old(wire.Clients()), FoodPackets(s.id, old(s.eaten), old(s.spawn)))
      ensures s.State() == old(s.State()).(eaten := [], spawn := [])
    {
      hide Tell, Apply, Endpoint.Clients, FoodPackets;
      ghost var c0, eaten, spawn := wire.Clients(), s.eaten, s.spawn;
      NoPackets(s.id, c0);
      for i := 0 to |s.eaten|
        invariant wire.log.Keys == old(wire.log.Keys) && s.eaten == eaten && s.spawn == spawn
        invariant wire.Clients() == Tell(c0, FoodPackets(s.id, eaten[..i], []))
      {
        wire.Broadcast(Eaten(s.id, s.eaten[i]));
        FoodPacketsFrom(s.id, eaten, i);
        TellMore(c0, FoodPackets(s.id, eaten[..i], []), [Eaten(s.id, eaten[i])]);
      }
      assert eaten[..|eaten|] == eaten && spawn[..0] == [];
      s.eaten := [];
      for i := 0 to |s.spawn|
        invariant wire.log.Keys == old(wire.log.Keys) && s.eaten == [] && s.spawn == spawn
        invariant wire.Clients() == Tell(c0, FoodPackets(s.id, eaten, spawn[..i]))
      {
        wire.Broadcast(Spawned(s.spawn[i]));
        SpawnPacketsFrom(s.id, eaten, spawn, i);
        TellMore(c0, FoodPackets(s.id, eaten, spawn[..i]), [Spawned(spawn[i])]);
      }
      assert spawn[..|spawn|] == spawn;
      s.spawn := [];
    }

    /** The loop over the gained sectors, each with its food as it is now. */
    method SendGained(h: nat, v: ViewPort)
      requires h in wire.log && |world.sectors.food| == SECTORS && forall k :: k in v.newSectors ==> k < SECTORS
      modifies wire, v`newSectors
      ensures wire.log.Keys == old(wire.log.Keys) && v.newSectors == []
      ensures wire.Clients() == old(wire.Clients())[h := Gained(old(wire.Clients())[h], old(v.newSectors), world.sectors.food)]
    {
      hide Apply, Endpoint.Clients, Gained;
      ghost var c0, c, gained := wire.Clients(), wire.Clients()[h], v.newSectors;
      NoneGained(c, world.sectors.food);
      for i := 0 to |v.newSectors|
        invariant wire.log.Keys == old(wire.log.Keys) && v.newSectors == gained
        invariant wire.Clients() == c0[h := Gained(c, gained[..i], world.sectors.food)]
      {
        assert gained[i] in gained;
        GainOne(c, gained, i, world.sectors.food);
        wire.Send(h, AddSector(v.newSectors[i]));
        wire.Send(h, SetFood(world.sectors.food[v.newSectors[i]]));
      }
      assert gained[..|gained|] == gained;
      v.newSectors := [];
    }

    /** The loop over the lost sectors. */
    method SendLost(h: nat, v: ViewPort)
      requires h in wire.log
      modifies wire, v`oldSectors
      ensures wire.log.Keys == old(wire.log.Keys) && v.oldSectors == []
      ensures wire.Clients() == old(wire.Clients())[h := Lost(old(wire.Clients())[h], old(v.oldSectors))]
    {
      hide Apply, Endpoint.Clients, Lost;
      ghost var c0, c, lost := wire.Clients(), wire.Clients()[h], v.oldSectors;
      NoneGained(c, []);
      for i := 0 to |v.oldSectors|
        invariant wire.log.Keys == old(wire.log.Keys) && v.oldSectors == lost
        invariant wire.Clients() == c0[h := Lost(c, lost[..i])]
      {
        LoseOne(c, lost, i);
        wire.Send(h, RemoveSector(v.oldSectors[i]));
      }
      assert lost[..|lost|] == lost;
      v.oldSectors := [];
    }

    /** `GameServer::SendPOVUpdateTo`. */
    method SendPOVUpdateTo(h: nat, s: Snake)
      requires h in wire.log && s.vp.Valid() && |world.sectors.food| == SECTORS
      modifies wire, s.vp`newSectors, s.vp`oldSectors
      ensures wire.log.Keys == old(wire.log.Keys) && s.vp.Valid()
      ensures wire.Clients() == old(wire.Clients())[h := PointOfView(old(wire.Clients())[h], old(s.State()), world.sectors.food)]
      ensures s.State() == old(s.State()).(newS := {}, oldS := {})
    {
      hide Endpoint.Clients, Gained, Lost, PointOfView, OnGrid;
      GainedThenLost(wire.Clients()[h], s.State(), s.vp.newSectors, s.vp.oldSectors, world.sectors.food);
      SendGained(h, s.vp);
      SendLost(h, s.vp);
    }

    // -------------------------------------------------------------- one snake's turn

    /** Clearing the bits of the rotation and speed part of a turn. */
    method ClearRotation(s: Snake) returns (due: bool)
      modifies s`update
      ensures due <==> old(s.update).angle || old(s.update).speed
      ensures var f := old(s.update);
              s.State() == old(s.State()).(flags := f.(angle := false, speed := false, wangle := f.wangle && !f.angle))
    {
      var flags := s.update;
      due := flags.angle || flags.speed;
      if flags.angle {
        s.update := s.update.(angle := false);
        if flags.wangle {
          s.update := s.update.(wangle := false);
        }
      }
      if flags.speed {
        s.update := s.update.(speed := false);
      }
    }

    /** The rotation and speed part of a turn. */
    method SendRotation(s: Snake)
      modifies wire, s`update
      ensures wire.log.Keys == old(wire.log.Keys)
      ensures wire.Clients() == Tell(old(wire.Clients()), RotationPackets(old(s.State())))
      ensures var f := old(s.update);
              s.State() == old(s.State()).(flags := f.(angle := false, speed := false, wangle := f.wangle && !f.angle))
    {
      hide Endpoint.Clients, Tell;
      TellNothing(wire.Clients());
      var rotation := Rotation(s.id, if s.update.angle then Some(s.angle) else None, if s.update.speed then Some(s.speed) else None);
      var due := ClearRotation(s);
      if due {
        wire.Broadcast(rotation);
      }
    }

    /** The move part of a turn: one part longer, or perhaps one part shorter and then a plain move. */
    method SendMove(s: Snake)
      requires s.update.pos
      modifies wire, s`update, s`clientPartsIndex
      ensures wire.log.Keys == old(wire.log.Keys)
      ensures wire.Clients() == Tell(old(wire.Clients()), LengthPackets(old(s.State())) + MovePackets(old(s.State())))
      ensures var n, k := |s.parts|, old(s.clientPartsIndex);
              s.State() == old(s.State()).(flags := old(s.update).(pos := false),
                                           clientParts := if k < n then k + 1 else if k > n then k - 1 else k)
    {
      hide Endpoint.Clients, Tell;
      ghost var c0 := wire.Clients();
      NowIs(s);
      var head := HeadNow(s);
      s.update := s.update.(pos := false);
      if s.clientPartsIndex < |s.parts| {
        assert [Inc(s.id, head, s.fullness)] + [] == [Inc(s.id, head, s.fullness)];
        wire.Broadcast(Inc(s.id, head, s.fullness));
        s.clientPartsIndex := s.clientPartsIndex + 1;
      } else {
        if s.clientPartsIndex > |s.parts| {
          wire.Broadcast(RemovePart(s.id, s.fullness));
          s.clientPartsIndex := s.clientPartsIndex - 1;
        } else {
          TellNothing(c0);
        }
        TellMore(c0, LengthPackets(old(s.State())), [Packet.Move(s.id, head)]);
        wire.Broadcast(Packet.Move(s.id, head));
      }
    }

    /** What only the snake's own session gets. */
    method SendOwn(s: Snake, full: bool)
      requires s.vp.Valid() && |world.sectors.food| == SECTORS && wire.log.Keys == sessions.Keys
      requires !s.bot ==> Connected(sessions, connections, s.id)
      modifies wire, s`update, s.vp`newSectors, s.vp`oldSectors
      ensures wire.log.Keys == old(wire.log.Keys) && s.vp.Valid()
      ensures var s0, f := old(s.State()), old(s.update);
              && s.State() == (if s.bot then s0
                               else s0.(newS := {}, oldS := {}, flags := f.(fullness := f.fullness && !full)))
              && wire.Clients() == Seen(old(wire.Clients()), connections, s0.(flags := f.(pos := true, fullness := full)), world.sectors.food)
    {
      hide Endpoint.Clients, PointOfView, OnGrid, NoDup, Apply;
      if !s.bot {
        var found, h := LoadSession(s.id);
        ghost var c0, s1 := wire.Clients(), s.State().(flags := s.update.(pos := true, fullness := full));
        SamePointOfView(c0[h], s.State(), s1, world.sectors.food);
        SeenIs(c0, connections, s1, world.sectors.food);
        SendPOVUpdateTo(h, s);
        if full {
          PutTwice(c0, h, PointOfView(c0[h], s1, world.sectors.food), OwnUpdate(c0[h], s1, world.sectors.food));
          SendFullness(h, s);
        }
      }
    }

    /** The part of a turn a snake has when it moved. */
    method SendStep(s: Snake)
      requires s.update.pos
      modifies wire, s`update, s`clientPartsIndex, s`eaten, s`spawn
      ensures wire.log.Keys == old(wire.log.Keys)
      ensures var s0 := old(s.State());
              wire.Clients() == Tell(old(wire.Clients()), (LengthPackets(s0) + MovePackets(s0)) + FoodPackets(s.id, s0.eaten, s0.spawn))
      ensures var n, k := |s.parts|, old(s.clientPartsIndex);
              s.State() == old(s.State()).(flags := old(s.update).(pos := false), eaten := [], spawn := [],
                                           clientParts := if k < n then k + 1 else if k > n then k - 1 else k)
    {
      hide Endpoint.Clients, Tell, LengthPackets, MovePackets, FoodPackets;
      ghost var c0, s0 := wire.Clients(), s.State();
      SendMove(s);
      SendFoodUpdate(s);
      TellMore(c0, LengthPackets(s0) + MovePackets(s0), FoodPackets(s.id, s0.eaten, s0.spawn));
    }

    /** The turn of a live snake in `GameServer::BroadcastUpdates`. */
    method ReportSnake(s: Snake)
      requires s.vp.Valid() && |world.sectors.food| == SECTORS && wire.log.Keys == sessions.Keys
      requires !s.bot ==> Connected(sessions, connections, s.id)
      modifies wire, s`update, s`clientPartsIndex, s`eaten, s`spawn, s.vp`newSectors, s.vp`oldSectors
      ensures wire.log.Keys == old(wire.log.Keys) && s.vp.Valid()
      ensures s.State() == Reported(old(s.State()))
      ensures wire.Clients() == Seen(Tell(old(wire.Clients()), PublicPackets(old(s.State()))), connections, old(s.State()), world.sectors.food)
    {
      hide Endpoint.Clients, Tell, RotationPackets, LengthPackets, MovePackets, FoodPackets, PointOfView;
      ghost var c0, s0 := wire.Clients(), s.State();
      ghost var f := s.update;
      var moved, full := s.update.pos, s.update.fullness;
      SendRotation(s);
      if moved {
        SameLengths(s0, s.State());
        SendStep(s);
        StepPackets(s0);
        TellMore(c0, RotationPackets(s0), (LengthPackets(s0) + MovePackets(s0)) + FoodPackets(s.id, s0.eaten, s0.spawn));
        SeenSame(wire.Clients(), connections, s.State(), s0, world.sectors.food);
        SendOwn(s, full);
      } else {
        QuietPackets(s0);
      }
    }

    /** The goodbye to a dying player. */
    method SendEnd(s: Snake)
      requires wire.log.Keys == sessions.Keys
      modifies wire
      ensures wire.log.Keys == old(wire.log.Keys)
      ensures wire.Clients() == Ended(old(wire.Clients()), connections, s.State())
    {
      hide Endpoint.Clients, Apply;
      if !s.bot {
        var found, h := LoadSession(s.id);
        if found {
          wire.Send(h, End);
        }
      }
    }

    /** The turn of a dying snake in `GameServer::BroadcastUpdates`. */
    method BurySnake(s: Snake, env: Env)
      requires world.sectors.Valid() && wire.log.Keys == sessions.Keys
      modifies wire, s`update, s`eaten, s`spawn, world.sectors`food
      ensures wire.log.Keys == old(wire.log.Keys) && world.sectors.Valid()
      ensures s.State() == Buried(old(s.State()))
      ensures world.sectors.food == Fallen(old(world.sectors.food), Remains(old(s.State()), env))
      ensures wire.Clients() == Tell(Ended(old(wire.Clients()), connections, old(s.State())), ObituaryPackets(old(s.State()), env))
    {
      hide Endpoint.Clients, Tell, FoodPackets, Drops, Fallen, FoodOk, Ended;
      ghost var s0, d := s.State(), Remains(s.State(), env);
      SendEnd(s);
      ghost var c0 := wire.Clients();
      s.OnDeadFoodSpawn(world.sectors, (n: nat) => env.random(s.id, n));
      SendFoodUpdate(s);
      ghost var foods := FoodPackets(s.id, s0.eaten, s0.spawn + FoodsOf(d));
      wire.Broadcast(Packet.RemoveSnake(s.id, true));
      TellMore(c0, foods, [Packet.RemoveSnake(s.id, true)]);
      wire.Broadcast(Packet.RemoveSnake(s.id, false));
      TellMore(c0, foods + [Packet.RemoveSnake(s.id, true)], [Packet.RemoveSnake(s.id, false)]);
      assert foods + [Packet.RemoveSnake(s.id, true)] + [Packet.RemoveSnake(s.id, false)] == ObituaryPackets(s0, env);
      s.update := s.update.(dead := true);
    }

    method SendFullness(h: nat, s: Snake)
      requires h in wire.log
      modifies wire, s`update
      ensures wire.log.Keys == old(wire.log.Keys)
      ensures wire.Clients() == Put(old(wire.Clients()), h, Apply(old(wire.Clients())[h], Fullness(s.id, s.fullness)))
      ensures s.State() == old(s.State()).(flags := old(s.update).(fullness := false))
    {
      hide Endpoint.Clients, Apply;
      wire.Send(h, Fullness(s.id, s.fullness));
      s.update := s.update.(fullness := false);
    }

    // -------------------------------------------------------------- the whole server

    ghost predicate Valid()
      reads this, world, world.sectors, wire, Bodies(world.snakes)
    {
      world.Valid() && wire.log.Keys == sessions.Keys
    }

    /** The server as a value. */
    ghost function Abs(): Server
      reads this, world, world.sectors, wire, Bodies(world.snakes)
    {
      Server(Table(world.snakes), world.sectors.food, world.lastSnakeId, world.ticks, sessions, connections, wire.Clients())
    }

    /** One turn of `GameServer::BroadcastUpdates`, on the snake and what it touches. */
    method Act(s: Snake, env: Env)
      requires s.Valid() && world.sectors.Valid() && wire.log.Keys == sessions.Keys
      requires !s.bot ==> Connected(sessions, connections, s.id)
      modifies wire, s, s.vp, world.sectors`food
      ensures s.Valid() && world.sectors.Valid() && wire.log.Keys == old(wire.log.Keys)
      ensures s.State() == TurnOf(old(s.State()))
      ensures world.sectors.food == Ground(old(world.sectors.food), old(s.State()), env)
      ensures wire.Clients() == Heard(old(wire.Clients()), connections, old(s.State()), old(world.sectors.food), env)
    {
      hide Snake.State, Reported, Buried, Fallen, Remains, FoodOk, Seen, Endpoint.Clients, Tell, PublicPackets, ObituaryPackets, OnGrid, NoDup;
      StateParts(s);
      FoodSize(world.sectors.food);
      if s.update.dead {
      } else if s.update.dying {
        BurySnake(s, env);
      } else {
        ReportSnake(s);
      }
    }

    /** The same among all snakes: nobody else is touched. */
    method ActAmong(ghost m: map<nat, Snake>, s: Snake, env: Env)
      requires Owned(m) && s.id in m && m[s.id] == s && forall j :: j in m ==> m[j].Valid()
      requires world.sectors.Valid() && wire.log.Keys == sessions.Keys
      requires !s.bot ==> Connected(sessions, connections, s.id)
      modifies wire, s, s.vp, world.sectors`food
      ensures world.sectors.Valid() && wire.log.Keys == old(wire.log.Keys)
      ensures forall j :: j in m ==> m[j].Valid() && (j != s.id ==> m[j].State() == old(m[j].State()))
      ensures s.State() == TurnOf(old(s.State()))
      ensures world.sectors.food == Ground(old(world.sectors.food), old(s.State()), env)
      ensures wire.Clients() == Heard(old(wire.Clients()), connections, old(s.State()), old(world.sectors.food), env)
    {
      hide Snake.State, Snake.Valid, TurnOf, FoodOk, Ground, Heard, Endpoint.Clients, Connected;
      Act(s, env);
    }

    /** The same on the snake table. */
    method ActOn(id: nat, env: Env) returns (died: bool)
      requires Valid() && id in world.snakes
      requires !world.snakes[id].bot ==> Connected(sessions, connections, id)
      modifies wire, world.snakes[id], world.snakes[id].vp, world.sectors`food
      ensures Valid() && FoodOk(old(world.sectors.food))
      ensures old(Table(world.snakes)[id]) == old(world.snakes[id].State()) && old(world.snakes[id].State()).id == id
      ensures Table(world.snakes) == old(Table(world.snakes))[id := TurnOf(old(world.snakes[id].State()))]
      ensures world.sectors.food == Ground(old(world.sectors.food), old(world.snakes[id].State()), env)
      ensures wire.Clients() == Heard(old(wire.Clients()), connections, old(world.snakes[id].State()), old(world.sectors.food), env)
      ensures died == DiesNow(old(world.snakes[id].State()))
    {
      hide World.Valid, Snake.State, Snake.Valid, Agree, Table, Bodies, Sound, TurnOf, FoodOk, Ground, Heard, Endpoint.Clients, Connected;
      ghost var m, table := world.snakes, Table(world.snakes);
      var s := world.snakes[id];
      world.ValidSound();
      SoundAll(m, world.sectors, world.lastSnakeId);
      StateParts(s);
      TurnKeepsBox(s.State());
      died := !s.update.dead && s.update.dying && s.bot;
      Apart(world, wire, s);
      ActAmong(m, s, env);
      SettleTable(world, table, id);
    }

    /** One turn of `GameServer::BroadcastUpdates`. */
    method TurnSnake(id: nat, env: Env)
      requires Valid() && id in world.snakes
      requires !world.snakes[id].bot ==> Connected(sessions, connections, id)
      modifies wire, world`dead, world.snakes[id], world.snakes[id].vp, world.sectors`food
      ensures Valid() && FoodOk(old(Abs()).food)
      ensures Broadcast(Abs(), world.dead) == TakeTurn(Broadcast(old(Abs()), old(world.dead)), id, env)
    {
      hide Snake.State, Snake.Valid, Table, Bodies, Sound, TurnOf, FoodOk, Ground, Heard, DiesNow, Endpoint.Clients, TakeTurn, Connected;
      ghost var b := Broadcast(Abs(), world.dead);
      var died := ActOn(id, env);
      if died {
        world.AddDead(id);
      }
      TurnIs(b, id, env);
    }

    // -------------------------------------------------------------- the timer

    lemma ValidFood()
      requires Valid()
      ensures FoodOk(Abs().food) && Abs().food == world.sectors.food && Abs().snakes.Keys == world.snakes.Keys
    {
      SoundFood(world.snakes, world.sectors, world.lastSnakeId);
    }

    lemma ThisNotBody(m: map<nat, Snake>)
      ensures (this as object) !in Bodies(m)
    {
    }

    lemma Alone()
      ensures (this as object) != world && (this as object) != world.sectors && (this as object) != wire
      ensures (wire as object) != world && (wire as object) != world.sectors
    {
    }

    /** A player's session is found, by the invariant of the session tables. */
    lemma ReachableOne(id: nat)
      requires Reachable(Abs()) && id in world.snakes
      ensures !world.snakes[id].bot ==> Connected(sessions, connections, id)
    {
      assert Abs().snakes[id] == world.snakes[id].State();
    }

    /** One round of `GameServer::BroadcastUpdates`, from the start b0 of the broadcast. */
    method NextTurn(n: nat, env: Env, ghost changes: seq<nat>, ghost b0: Broadcast)
      requires Valid() && Reachable(Abs()) && world.changes == changes && n < |changes| && changes[n] in world.snakes
      requires FoodOk(b0.sv.food) && Broadcast(Abs(), world.dead) == Turns(b0, changes, env, n)
      modifies wire, world`dead, Bodies(world.snakes), world.sectors`food
      ensures Valid() && Reachable(Abs())
      ensures Broadcast(Abs(), world.dead) == Turns(b0, changes, env, n + 1)
    {
      hide GameServer.Valid, GameServer.Abs, Bodies, FoodOk, Reachable, TakeTurn, Connected;
      var id := world.changes[n];
      ReachableOne(id);
      InBodies(world.snakes, id);
      TurnReachable(Turns(b0, changes, env, n), id, env);
      TurnSnake(id, env);
    }

    /** `GameServer::BroadcastUpdates`. */
    method BroadcastUpdates(env: Env)
      requires Valid() && Reachable(Abs()) && world.dead == []
      requires forall i :: 0 <= i < |world.changes| ==> world.changes[i] in world.snakes
      modifies wire, world`dead, world`changes, Bodies(world.snakes), world.sectors`food
      ensures Valid() && world.changes == [] && FoodOk(old(Abs()).food) && world.snakes == old(world.snakes)
      ensures Broadcast(Abs(), world.dead) == Turns(Broadcast(old(Abs()), []), old(world.changes), env, |old(world.changes)|)
    {
      hide GameServer.Valid, GameServer.Abs, Bodies, FoodOk, Reachable, TakeTurn;
      ghost var b0, m, changes := Broadcast(Abs(), []), world.snakes, world.changes;
      ValidFood();
      for n := 0 to |world.changes|
        invariant world.snakes == m && world.changes == changes && Valid() && Reachable(Abs())
        invariant Broadcast(Abs(), world.dead) == Turns(b0, changes, env, n)
      {
        WorldNotBody(m, world);
        NextTurn(n, env, changes, b0);
      }
      Flush();
    }

    method Flush()
      requires Valid()
      modifies world`changes
      ensures Valid() && Abs() == old(Abs()) && world.changes == [] && world.snakes == old(world.snakes)
    {
      hide Bodies, Table, Sound;
      WorldNotBody(world.snakes, world);
      world.FlushChanges();
    }

    /** `GameServer::RemoveSnake`. */
    method RemoveSnake(id: nat)
      requires Valid()
      modifies this`connections, world`snakes, world`changes, world.sectors`snakes
      ensures Valid() && world.changes == Without(old(world.changes), id) && world.snakes == old(world.snakes) - {id}
      ensures var sv := old(Abs()); Abs() == sv.(snakes := sv.snakes - {id}, connections := sv.connections - {id})
    {
      hide Bodies, Table, Sound;
      ThisNotBody(world.snakes);
      connections := connections - {id};
      world.RemoveSnake(id);
    }

    /** `GameServer::RemoveDeadSnakes`. */
    method RemoveDeadSnakes()
      requires Valid() && world.changes == []
      modifies this`connections, world`snakes, world`changes, world`dead, world.sectors`snakes
      ensures Valid() && world.changes == [] && world.dead == []
      ensures Abs() == Bury(old(Abs()), old(world.dead)) && Fewer(world.snakes, old(world.snakes))
    {
      hide GameServer.Valid, GameServer.Abs, Bodies;
      ghost var sv, dead := Abs(), world.dead;
      for n := 0 to |world.dead|
        invariant Valid() && world.changes == [] && world.dead == dead && Fewer(world.snakes, old(world.snakes))
        invariant Abs() == Bury(sv, dead[..n])
      {
        assert dead[..n + 1][..n] == dead[..n];
        RemoveSnake(world.dead[n]);
      }
      assert dead[..|dead|] == dead;
      ForgetDead();
    }

    method ForgetDead()
      requires Valid()
      modifies world`dead
      ensures Valid() && Abs() == old(Abs()) && world.dead == []
    {
      hide Bodies, Table, Sound;
      WorldNotBody(world.snakes, world);
      world.dead := [];
    }

    /** The world's part of a timer step. */
    method TickWorld(dt: nat, env: Env)
      requires Valid() && world.changes == [] && Good(Abs()) && Proper(Abs(), Timed(dt, env))
      modifies world`changes, world`ticks, Bodies(world.snakes), world.sectors
      ensures Valid() && FoodOk(old(Abs()).food) && world.snakes == old(world.snakes) && world.dead == old(world.dead)
      ensures Abs() == MidOf(old(Abs()), dt, env) && world.changes == ChangesOf(old(Abs()), dt, env)
    {
      hide Bodies, Table, Sound, Good, EnvOk, WorldModel.TickWorld, AllSteady, Endpoint.Clients;
      ValidFood();
      GoodSteady(Abs(), dt);
      WorldNotBody(world.snakes, world);
      WireNotBody(world.snakes, wire);
      ThisNotBody(world.snakes);
      world.Tick(dt, env);
    }

    /** `GameServer::on_timer`: from a quiescent point a timer step computes the model's step. */
    method OnTimer(dt: nat, env: Env)
      requires Valid() && world.changes == [] && world.dead == [] && Good(Abs()) && Proper(Abs(), Timed(dt, env))
      modifies wire, this`connections, world, Bodies(world.snakes), world.sectors
      ensures Valid() && world.changes == [] && world.dead == []
      ensures Good(old(Abs())) && Abs() == Next(old(Abs()), Timed(dt, env)) && Good(Abs())
      ensures Fewer(world.snakes, old(world.snakes))
    {
      hide GameServer.Valid, GameServer.Abs, Bodies, Good, EnvOk, Turns, MidOf, ChangesOf;
      ghost var sv := Abs();
      NextGood(sv, Timed(dt, env));
      MidReachable(sv, dt, env);
      TickWorld(dt, env);
      ValidFood();
      BroadcastUpdates(env);
      RemoveDeadSnakes();
      TimerIs(sv, dt, env);
    }

    // -------------------------------------------------------------- connections and messages

    method Forget(hdl: nat)
      requires Valid()
      modifies this`sessions, wire
      ensures Valid()
      ensures var sv := old(Abs()); Abs() == sv.(sessions := sv.sessions - {hdl}, clients := sv.clients - {hdl})
    {
      hide Table, Sound, Endpoint.Clients;
      ThisNotBody(world.snakes);
      WireNotBody(world.snakes, wire);
      Alone();
      sessions := sessions - {hdl};
      wire.Leave(hdl);
    }

    /** `GameServer::on_close`. */
    method OnClose(hdl: nat)
      requires Valid() && world.changes == []
      modifies this`sessions, this`connections, wire, world`snakes, world`changes, world.sectors`snakes
      ensures Valid() && world.changes == [] && Abs() == Close(old(Abs()), hdl)
      ensures Fewer(world.snakes, old(world.snakes)) && world.dead == old(world.dead)
    {
      hide GameServer.Valid, Bodies, Table, Sound, Endpoint.Clients;
      if hdl in sessions {
        var id := sessions[hdl];
        Forget(hdl);
        RemoveSnake(id);
      }
    }

    /** What a message does to its snake. */
    method Obey(s: Snake, m: Message)
      modifies s`wangle, s`update, s`acceleration, s`skin
      ensures s.State() == ServerModel.Obey(old(s.State()), m)
    {
      match m
      case Angle(b) =>
        s.wangle := PI * b as real / 125.0;
        s.update := s.update.(wangle := true);
      case Accelerate(on) => s.acceleration := on;
      case Skin(k) => s.skin := k;
      case Ping =>
      case Other =>
    }

    /** `GameServer::DoSnake`. */
    method DoSnake(id: nat, m: Message)
      requires Valid() && id in world.snakes
      modifies world.snakes[id]
      ensures Valid()
      ensures id in old(Abs()).snakes && Abs() == old(Abs()).(snakes := old(Abs()).snakes[id := ServerModel.Obey(old(Abs()).snakes[id], m)])
    {
      hide World.Valid, Snake.State, Snake.Valid, Agree, Table, Bodies, Sound, Endpoint.Clients, ServerModel.Obey;
      ghost var map0, table := world.snakes, Table(world.snakes);
      var s := world.snakes[id];
      world.ValidSound();
      SoundAll(map0, world.sectors, world.lastSnakeId);
      ObeyKeepsBox(s.State(), m);
      Apart(world, wire, s);
      StateParts(s);
      Obey(s, m);
      ValidFrom(s);
      assert forall j :: j in map0 && j != id ==> map0[j].State() == table[j];
      SettleTable(world, table, id);
    }

    /** `GameServer::on_message`: the snake of a session is always there. */
    method OnMessage(hdl: nat, binary: bool, payload: seq<nat>, stored: int)
      requires Valid() && Linked(Abs())
      modifies wire, Bodies(world.snakes)
      ensures Valid() && Abs() == Receive(old(Abs()), hdl, Parse(binary, payload, stored))
      ensures world.snakes == old(world.snakes) && world.changes == old(world.changes) && world.dead == old(world.dead)
    {
      hide GameServer.Valid, Bodies, Table, Sound, Endpoint.Clients, ServerModel.Obey, Parse;
      var m := Parse(binary, payload, stored);
      WorldNotBody(world.snakes, world);
      Alone();
      if hdl in sessions {
        var id := sessions[hdl];
        assert Abs().sessions[hdl] == id;
        InBodies(world.snakes, id);
        if m == Ping || m == Other {
          Idle(Abs(), id, m);
          if m == Ping {
            SendPong(hdl);
          }
        } else {
          DoSnake(id, m);
        }
      }
    }

    method SendPong(hdl: nat)
      requires Valid() && hdl in sessions
      modifies wire
      ensures Valid() && Abs() == old(Abs())
    {
      hide Table, Sound, Endpoint.Clients;
      WireNotBody(world.snakes, wire);
      Alone();
      ghost var c0 := wire.Clients();
      wire.Send(hdl, Pong);
      assert wire.Clients() == c0;
    }

    /** One introduction. */
    method IntroduceOne(hdl: nat, j: nat, ghost table: SnakeMap)
      requires hdl in wire.log && j in world.snakes && Shows(world.snakes, table)
      modifies wire
      ensures wire.log.Keys == old(wire.log.Keys) && Shows(world.snakes, table)
      ensures j in table
      ensures wire.Clients() == Put(old(wire.Clients()), hdl, Met(old(wire.Clients())[hdl], table[j]))
    {
      hide Endpoint.Clients, Trunc, Apply;
      WireApart(world.snakes, wire);
      var s := world.snakes[j];
      ghost var c := wire.Clients()[hdl];
      MeetStep(c, table[j]);
      wire.Send(hdl, AddSnake(j, |s.parts|, StatusNow(s)));
      wire.Send(hdl, Packet.Move(j, HeadNow(s)));
    }

    /** The introduction of all other snakes to a new session. */
    method Introduce(hdl: nat, id: nat, ghost table: SnakeMap)
      requires hdl in wire.log && Shows(world.snakes, table)
      modifies wire
      ensures wire.log.Keys == old(wire.log.Keys)
      ensures wire.Clients() == Put(old(wire.Clients()), hdl, MetAll(old(wire.Clients())[hdl], table, table.Keys - {id}))
    {
      hide Endpoint.Clients, Met, MetAll, Shows, Put;
      Alone();
      ghost var c0, c, met := wire.Clients(), wire.Clients()[hdl], {};
      var todo := world.snakes.Keys - {id};
      ShowsKeys(world.snakes, table);
      MetNone(c, table);
      PutSame(c0, hdl);
      while todo != {}
        invariant wire.log.Keys == old(wire.log.Keys) && Shows(world.snakes, table)
        invariant table.Keys - {id} == met + todo && forall j :: j in todo ==> j in world.snakes
        invariant wire.Clients() == Put(c0, hdl, MetAll(c, table, met))
        decreases |todo|
      {
        var j :| j in todo;
        ShowsKeys(world.snakes, table);
        MetMore(c, table, met, j);
        PutTwice(c0, hdl, MetAll(c, table, met), MetAll(c, table, met + {j}));
        IntroduceOne(hdl, j, table);
        met, todo := met + {j}, todo - {j};
      }
      assert met + {} == met;
    }

    /** A new snake and its session, before anything is sent. */
    method Admit(hdl: nat, d: Draws) returns (id: nat)
      requires Valid()
      modifies this`sessions, this`connections, wire, world`snakes, world`lastSnakeId, world.sectors`snakes
      ensures Valid() && id in world.snakes && hdl in wire.log && world.snakes == old(world.snakes)[id := world.snakes[id]]
      ensures fresh(world.snakes[id]) && fresh(world.snakes[id].sbb) && fresh(world.snakes[id].vp)
      ensures id == old(Abs()).lastId + 1 && Abs() == Admitted(old(Abs()), hdl, Placed(Blank(id, d.skin, Drawn(d), d.angle)))
    {
      hide Table, Sound, Endpoint.Clients, Placed, Blank, Drawn;
      ThisNotBody(world.snakes);
      Alone();
      var s := world.AddNewSnake(d, false);
      NoBot(s.id, d.skin, Drawn(d), d.angle);
      PlacedParts(s.id, d.skin, Drawn(d), d.angle);
      id := s.id;
      Enter(hdl, id);
    }

    method Enter(hdl: nat, id: nat)
      requires Valid()
      modifies this`sessions, this`connections, wire
      ensures Valid() && hdl in wire.log
      ensures var sv := old(Abs());
              Abs() == sv.(sessions := sv.sessions[hdl := id], connections := sv.connections[id := hdl], clients := sv.clients[hdl := FRESH])
    {
      hide Table, Sound, Endpoint.Clients;
      ThisNotBody(world.snakes);
      WireNotBody(world.snakes, wire);
      Alone();
      sessions := sessions[hdl := id];
      connections := connections[id := hdl];
      wire.Join(hdl);
    }

    /** The init packet for the new session, and the new snake for all. */
    method Hail(hdl: nat, s: Snake)
      requires hdl in wire.log
      modifies wire
      ensures wire.log.Keys == old(wire.log.Keys)
      ensures wire.Clients() == Tell(old(wire.Clients()), Introduction(s.State()))
    {
      hide Endpoint.Clients, Tell, Trunc;
      ghost var c0 := wire.Clients();
      NowIs(s);
      var add, move := AddSnake(s.id, |s.parts|, StatusNow(s)), Packet.Move(s.id, HeadNow(s));
      wire.Send(hdl, Packet.Init);
      assert wire.Clients() == c0;
      wire.Broadcast(add);
      TellMore(c0, [add], [move]);
      assert [add] + [move] == Introduction(s.State());
      wire.Broadcast(move);
    }

    method Announce(hdl: nat, id: nat)
      requires Valid() && hdl in wire.log && id in world.snakes
      modifies wire
      ensures Valid() && hdl in wire.log
      ensures id in old(Abs()).snakes && Abs() == Announced(old(Abs()), id)
    {
      hide Table, Sound, Endpoint.Clients, Tell;
      WireNotBody(world.snakes, wire);
      Alone();
      TableAt(world.snakes, id);
      Hail(hdl, world.snakes[id]);
    }

    /** The new player's surroundings; no other snake is touched. */
    method SendPOVAmong(ghost m: map<nat, Snake>, hdl: nat, s: Snake)
      requires Owned(m) && s.id in m && m[s.id] == s && forall j :: j in m ==> m[j].Valid()
      requires hdl in wire.log && |world.sectors.food| == SECTORS
      modifies wire, s.vp
      ensures wire.log.Keys == old(wire.log.Keys)
      ensures forall j :: j in m ==> m[j].Valid() && (j != s.id ==> m[j].State() == old(m[j].State()))
      ensures s.State() == old(s.State()).(newS := {}, oldS := {})
      ensures wire.Clients() == Put(old(wire.Clients()), hdl, PointOfView(old(wire.Clients())[hdl], old(s.State()), world.sectors.food))
    {
      hide Snake.State, Snake.Valid, Endpoint.Clients, PointOfView;
      StateParts(s);
      SendPOVUpdateTo(hdl, s);
      ValidFrom(s);
    }

    method ShowAround(hdl: nat, id: nat)
      requires Valid() && hdl in wire.log && id in world.snakes
      modifies wire, world.snakes[id].vp
      ensures Valid() && hdl in wire.log
      ensures id in old(Abs()).snakes && hdl in old(Abs()).clients && Abs() == ShownAround(old(Abs()), hdl, id)
    {
      hide World.Valid, Snake.State, Snake.Valid, Agree, Table, Bodies, Sound, Endpoint.Clients, FoodOk, PointOfView, Put;
      ghost var m, table := world.snakes, Table(world.snakes);
      var s := world.snakes[id];
      world.ValidSound();
      SoundAll(m, world.sectors, world.lastSnakeId);
      FoodSize(world.sectors.food);
      StateParts(s);
      Apart(world, wire, s);
      Alone();
      SendPOVAmong(m, hdl, s);
      SettleTable(world, table, id);
    }

    method IntroduceAll(hdl: nat, id: nat)
      requires Valid() && hdl in wire.log
      modifies wire
      ensures Valid() && hdl in old(Abs()).clients && Abs() == AllMet(old(Abs()), hdl, id)
    {
      hide Table, Sound, Endpoint.Clients, Put, MetAll;
      WireNotBody(world.snakes, wire);
      Alone();
      SoundAll(world.snakes, world.sectors, world.lastSnakeId);
      TableShows(world.snakes);
      Introduce(hdl, id, Table(world.snakes));
    }

    /** `GameServer::on_open`, with the draws of `World::CreateSnake`. */
    method OnOpen(hdl: nat, d: Draws)
      requires Valid()
      modifies this`sessions, this`connections, wire, world`snakes, world`lastSnakeId, world.sectors`snakes
      ensures Valid() && world.changes == old(world.changes) && world.dead == old(world.dead)
      ensures Abs() == Open(old(Abs()), hdl, d.skin, Drawn(d), d.angle)
      ensures fresh(Bodies(world.snakes) - old(Bodies(world.snakes)))
    {
      hide GameServer.Valid, GameServer.Abs, Bodies, Placed, Blank, Open, Drawn, Admitted, Announced, ShownAround, AllMet;
      ghost var sv := Abs();
      Alone();
      var id := Admit(hdl, d);
      Announce(hdl, id);
      ShowAround(hdl, id);
      IntroduceAll(hdl, id);
      StepsMakeOpen(sv, hdl, d.skin, Drawn(d), d.angle);
      MoreBodies(old(world.snakes), id, world.snakes[id]);
    }

    // -------------------------------------------------------------- start and event loop

    /** `World::Init` on a new server: from proper draws it is at a quiescent point. */
    method Init(bots: nat, d: nat -> Draws, draw: Sower)
      requires Valid() && Fresh() && SowerOk(draw) && forall i :: 0 <= i < bots ==> StartBody(Drawn(d(i)))
      modifies world`snakes, world`lastSnakeId, world.sectors
      ensures Valid() && Good(Abs()) && world.changes == [] && world.dead == []
      ensures Abs().snakes == Bots(0, d, bots) && fresh(Bodies(world.snakes))
    {
      hide Good, StartBody, Drawn, Table, Sound, Bodies, Sown, Density, SowerOk, Bots;
      Alone();
      SoundFood(world.snakes, world.sectors, world.lastSnakeId);
      Sow(draw);
      world.SpawnNumSnakes(bots, d);
      InitGood(Abs(), bots, d, draw);
    }

    /** Nothing has happened yet. */
    ghost predicate Fresh()
      reads this, world, world.sectors, wire
    {
      && sessions == map[] && connections == map[] && wire.log == map[] && world.snakes == map[]
      && world.lastSnakeId == 0 && world.ticks == 0 && world.changes == [] && world.dead == []
      && |world.sectors.food| == SECTORS && forall k :: 0 <= k < SECTORS ==> world.sectors.food[k] == []
    }

    method Sow(draw: Sower)
      requires Valid() && Fresh()
      modifies world.sectors`food
      ensures Valid() && |world.sectors.food| == SECTORS
      ensures forall k :: 0 <= k < SECTORS ==> world.sectors.food[k] == Sown(k, draw, Density(k))
    {
      hide Sown, Density, Agree, Table;
      SectorsNotBody(world.snakes, world.sectors);
      world.InitFood(draw);
    }

    /** One call of a handler. */
    method Handle(c: Call)
      requires Valid() && world.changes == [] && world.dead == [] && Good(Abs()) && Proper(Abs(), EventOf(c))
      modifies this, wire, world, Bodies(world.snakes), world.sectors
      ensures Valid() && world.changes == [] && world.dead == [] && FoodOk(old(Abs()).food)
      ensures Good(Abs()) && Abs() == Next(old(Abs()), EventOf(c))
      ensures fresh(Bodies(world.snakes) - old(Bodies(world.snakes)))
    {
      hide GameServer.Valid, GameServer.Abs, Bodies, Good, Timer, Open, Close, Receive, Drawn, Parse, EnvOk, StartBody;
      Alone();
      ValidFood();
      NextGood(Abs(), EventOf(c));
      LinksOf(Abs());
      match c
      case Time(dt, env) =>
        OnTimer(dt, env);
        FewerBodies(world.snakes, old(world.snakes));
      case Connect(hdl, d) => OnOpen(hdl, d);
      case Leave(hdl) =>
        OnClose(hdl);
        FewerBodies(world.snakes, old(world.snakes));
      case Say(hdl, binary, payload, stored) => OnMessage(hdl, binary, payload, stored);
    }

    /** The event loop: handling proper calls one after the other goes through exactly the states of the run. */
    method Run(calls: seq<Call>, ghost states: seq<Server>)
      requires Valid() && world.changes == [] && world.dead == []
      requires IsRun(states, EventsOf(calls)) && Abs() == states[0]
      modifies this, wire, world, Bodies(world.snakes), world.sectors
      ensures Valid() && Abs() == states[|calls|] && Good(Abs())
      decreases |calls|
    {
      hide GameServer.Valid, GameServer.Abs, Bodies, Good, Next, Proper, IsRun;
      StartGood(states, EventsOf(calls));
      if calls != [] {
        FirstCall(calls, states);
        Handle(calls[0]);
        Run(calls[1..], states[1..]);
      }
    }
  }

  lemma StartGood(states: seq<Server>, events: seq<Event>)
    requires IsRun(states, events)
    ensures Good(states[0]) && |states| == |events| + 1
  {
    hide Good, Proper, Next;
  }

  /** The first call of a run, and the rest of it. */
  lemma FirstCall(calls: seq<Call>, states: seq<Server>)
    requires IsRun(states, EventsOf(calls)) && calls != []
    ensures FoodOk(states[0].food) && Proper(states[0], EventOf(calls[0])) && states[1] == Next(states[0], EventOf(calls[0]))
    ensures IsRun(states[1..], EventsOf(calls[1..])) && |states| == |calls| + 1
  {
    hide Good, Next, Proper;
    var events := EventsOf(calls);
    AlwaysGood(states, events, 1);
    assert EventsOf(calls[1..]) == events[1..];
    assert events[0] == EventOf(calls[0]);
  }

  /** What reaches the server from outside. */
  datatype Call =
    | Time(dt: nat, env: Env)
    | Connect(hdl: nat, d: Draws)
    | Leave(hdl: nat)
    | Say(hdl: nat, binary: bool, payload: seq<nat>, stored: int)

  function EventOf(c: Call): Event {
    match c
    case Time(dt, env) => Timed(dt, env)
    case Connect(hdl, d) => Opened(hdl, d.skin, Drawn(d), d.angle)
    case Leave(hdl) => Closed(hdl)
    case Say(hdl, binary, payload, stored) => Received(hdl, Parse(binary, payload, stored))
  }

  function EventsOf(calls: seq<Call>): (r: seq<Event>)
    ensures |r| == |calls|
  {
    seq(|calls|, i requires 0 <= i < |calls| => EventOf(calls[i]))
  }

  lemma LinksOf(sv: Server)
    requires Good(sv)
    ensures Linked(sv)
  {
    hide AllCalm, Linked, Synced, FoodOk;
  }

  /** Every snake of the one table is in the other. */
  ghost predicate Fewer(m: map<nat, Snake>, n: map<nat, Snake>) {
    forall id :: id in m ==> id in n && m[id] == n[id]
  }

  lemma FewerBodies(m: map<nat, Snake>, n: map<nat, Snake>)
    requires Fewer(m, n)
    ensures Bodies(m) <= Bodies(n)
  {
  }

  lemma MoreBodies(m: map<nat, Snake>, id: nat, s: Snake)
    ensures Bodies(m[id := s]) <= Bodies(m) + {s, s.sbb, s.vp}
  {
  }

  function Put(clients: map<nat, Client>, h: nat, c: Client): map<nat, Client> {
    clients[h := c]
  }

  lemma PutSame(clients: map<nat, Client>, h: nat)
    requires h in clients
    ensures Put(clients, h, clients[h]) == clients
  {
  }

  lemma PutTwice(clients: map<nat, Client>, h: nat, a: Client, b: Client)
    ensures h in Put(clients, h, a) && Put(clients, h, a)[h] == a
    ensures Put(Put(clients, h, a), h, b) == Put(clients, h, b)
  {
  }

  /** Head and status of a snake as packets carry them. */
  function HeadNow(s: Snake): Pos
    reads s
  {
    var p := if s.parts == [] then Body(0.0, 0.0) else s.parts[0];
    (Trunc(p.x), Trunc(p.y))
  }

  function StatusNow(s: Snake): Status
    reads s
  {
    Status(HeadNow(s), s.angle, s.speed, s.fullness)
  }

  lemma NowIs(s: Snake)
    ensures HeadNow(s) == HeadPos(s.State()) && StatusNow(s) == StatusOf(s.State())
    ensures s.State().id == s.id && s.State().parts == s.parts && s.State().fullness == s.fullness
  {
  }

  /** The value table shows what introductions tell of the snakes. */
  ghost predicate Shows(m: map<nat, Snake>, table: SnakeMap)
    reads set j | j in m :: m[j]
  {
    && m.Keys == table.Keys
    && forall j :: j in m ==> table[j].id == j && m[j].parts == table[j].parts && StatusNow(m[j]) == StatusOf(table[j])
  }

  lemma ShowsKeys(m: map<nat, Snake>, table: SnakeMap)
    requires Shows(m, table)
    ensures m.Keys == table.Keys && forall j :: j in table ==> table[j].id == j
  {
    hide Trunc;
  }

  lemma TableShows(m: map<nat, Snake>)
    requires Owned(m)
    ensures Shows(m, Table(m))
  {
    hide Trunc;
  }

  lemma MeetStep(c: Client, s: SnakeState)
    ensures Apply(Apply(c, AddSnake(s.id, |s.parts|, StatusOf(s))), Packet.Move(s.id, HeadPos(s))) == Met(c, s)
  {
  }

  lemma WireApart(m: map<nat, Snake>, e: Endpoint)
    ensures (e as object) !in (set j | j in m :: m[j] as object)
  {
  }

  lemma MetNone(c: Client, table: SnakeMap)
    ensures MetAll(c, table, {}) == c
  {
    assert c.lengths + Lengths(table, {}) == c.lengths;
    assert c.shows + Statuses(table, {}) == c.shows;
  }

  lemma OneLength(m: map<nat, int>, table: SnakeMap, ids: set<nat>, j: nat)
    requires j in table
    ensures m + Lengths(table, ids + {j}) == (m + Lengths(table, ids))[j := |table[j].parts|]
  {
  }

  lemma OneStatus(m: map<nat, Status>, table: SnakeMap, ids: set<nat>, j: nat)
    requires j in table
    ensures m + Statuses(table, ids + {j}) == (m + Statuses(table, ids))[j := StatusOf(table[j])]
  {
    hide StatusOf;
  }

  lemma MetMore(c: Client, table: SnakeMap, ids: set<nat>, j: nat)
    requires j in table && table[j].id == j
    ensures MetAll(c, table, ids + {j}) == Met(MetAll(c, table, ids), table[j])
  {
    hide StatusOf, Lengths, Statuses;
    OneLength(c.lengths, table, ids, j);
    OneStatus(c.shows, table, ids, j);
  }

  lemma TableAt(m: map<nat, Snake>, id: nat)
    requires id in m
    ensures Table(m)[id] == m[id].State()
  {
  }

  lemma NoBot(id: nat, skin: int, body: seq<Body>, angle: real)
    requires body != []
    ensures Placed(Blank(id, skin, body, angle)).(bot := false) == Placed(Blank(id, skin, body, angle))
  {
  }

  lemma OtherTable(c: Client, snakes: SnakeMap, id: nat, s: SnakeState)
    ensures MetAll(c, snakes[id := s], snakes[id := s].Keys - {id}) == MetAll(c, snakes, snakes.Keys - {id})
  {
    hide StatusOf;
    var after := snakes[id := s];
    assert Lengths(after, after.Keys - {id}) == Lengths(snakes, snakes.Keys - {id});
    assert Statuses(after, after.Keys - {id}) == Statuses(snakes, snakes.Keys - {id});
  }

  /** The clients of the steps of a connection, in the model's words. */
  lemma OpenClients(sv: Server, hdl: nat, s: SnakeState)
    ensures var told := Tell(sv.clients[hdl := FRESH], Introduction(s));
            var shown := Put(told, hdl, PointOfView(told[hdl], s, sv.food));
            var after := sv.snakes[s.id := s.(newS := {}, oldS := {})];
            Put(shown, hdl, MetAll(shown[hdl], after, after.Keys - {s.id}))
            == Tell(sv.clients, Introduction(s))[hdl :=
                 MetAll(PointOfView(Met(FRESH, s), s, sv.food), sv.snakes, sv.snakes.Keys - {s.id})]
  {
    hide Tell, PointOfView, MetAll, ApplyAll, Put, Met, Introduction;
    var c, after := ApplyAll(FRESH, Introduction(s)), sv.snakes[s.id := s.(newS := {}, oldS := {})];
    TellOne(sv.clients, hdl, FRESH, Introduction(s));
    IntroductionMeets(FRESH, s);
    OtherTable(PointOfView(c, s, sv.food), sv.snakes, s.id, s.(newS := {}, oldS := {}));
    LastPut(Tell(sv.clients, Introduction(s)), hdl, c, PointOfView(c, s, sv.food), MetAll(PointOfView(c, s, sv.food), after, after.Keys - {s.id}));
  }

  /** The four steps of a connection. */
  function Admitted(sv: Server, hdl: nat, s: SnakeState): Server {
    sv.(snakes := sv.snakes[s.id := s], lastId := s.id, sessions := sv.sessions[hdl := s.id],
        connections := sv.connections[s.id := hdl], clients := sv.clients[hdl := FRESH])
  }

  function Announced(sv: Server, id: nat): Server
    requires id in sv.snakes
  {
    sv.(clients := Tell(sv.clients, Introduction(sv.snakes[id])))
  }

  function ShownAround(sv: Server, hdl: nat, id: nat): Server
    requires id in sv.snakes && hdl in sv.clients
  {
    sv.(snakes := sv.snakes[id := sv.snakes[id].(newS := {}, oldS := {})],
        clients := Put(sv.clients, hdl, PointOfView(sv.clients[hdl], sv.snakes[id], sv.food)))
  }

  function AllMet(sv: Server, hdl: nat, id: nat): Server
    requires hdl in sv.clients
  {
    sv.(clients := Put(sv.clients, hdl, MetAll(sv.clients[hdl], sv.snakes, sv.snakes.Keys - {id})))
  }

  lemma StepsMakeOpen(sv: Server, hdl: nat, skin: int, body: seq<Body>, angle: real)
    requires body != []
    ensures var id, s := sv.lastId + 1, Placed(Blank(sv.lastId + 1, skin, body, angle));
            && s.id == id
            && hdl in ShownAround(Announced(Admitted(sv, hdl, s), id), hdl, id).clients
            && AllMet(ShownAround(Announced(Admitted(sv, hdl, s), id), hdl, id), hdl, id) == Open(sv, hdl, skin, body, angle)
  {
    hide Blank, Tell, PointOfView, MetAll, Met, Introduction;
    var id, s := sv.lastId + 1, Placed(Blank(sv.lastId + 1, skin, body, angle));
    PlacedParts(id, skin, body, angle);
    OpenClients(sv, hdl, s);
    assert sv.snakes[id := s][id := s.(newS := {}, oldS := {})] == sv.snakes[id := s.(newS := {}, oldS := {})];
  }

  lemma LastPut(m: map<nat, Client>, h: nat, a: Client, b: Client, c: Client)
    ensures Put(Put(m[h := a], h, b), h, c) == m[h := c] && m[h := a][h] == a && Put(m[h := a], h, b)[h] == b
  {
  }

  lemma TellOne(clients: map<nat, Client>, h: nat, c: Client, ps: seq<Packet>)
    ensures Tell(clients[h := c], ps) == Tell(clients, ps)[h := ApplyAll(c, ps)]
  {
    hide ApplyAll;
  }

  lemma PlacedParts(id: nat, skin: int, body: seq<Body>, angle: real)
    requires body != []
    ensures Placed(Blank(id, skin, body, angle)).parts == body && Placed(Blank(id, skin, body, angle)).id == id
  {
  }

  lemma Idle(sv: Server, id: nat, m: Message)
    requires id in sv.snakes && (m == Ping || m == Other)
    ensures sv.snakes[id := ServerModel.Obey(sv.snakes[id], m)] == sv.snakes
  {
  }

  lemma ObeyKeepsBox(s: SnakeState, m: Message)
    ensures ServerModel.Obey(s, m).sbb == s.sbb
  {
  }

  lemma ValidFrom(s: Snake)
    requires s.sbb.id == s.id && s.vp.id == s.id && s.sbb.Valid() && s.vp.Valid()
    ensures s.Valid()
  {
  }

  /** Every player has a connection with a session. */
  ghost predicate Reachable(sv: Server) {
    forall id :: id in sv.snakes && !sv.snakes[id].bot ==> Connected(sv.sessions, sv.connections, id)
  }

  lemma TurnReachable(b: Broadcast, id: nat, env: Env)
    requires FoodOk(b.sv.food) && Reachable(b.sv)
    ensures Reachable(TakeTurn(b, id, env).sv)
  {
    hide FoodOk, Fallen, Remains, Tell, PublicPackets, ObituaryPackets, PointOfView;
  }

  lemma MidReachable(sv: Server, dt: nat, env: Env)
    requires Good(sv) && Proper(sv, Timed(dt, env))
    ensures FoodOk(sv.food) && Reachable(MidOf(sv, dt, env))
    ensures forall i :: 0 <= i < |ChangesOf(sv, dt, env)| ==> ChangesOf(sv, dt, env)[i] in MidOf(sv, dt, env).snakes
  {
    hide MidOf, ChangesOf, After, AllCalm, AllSizesOk, FoodOk, EnvOk, Synced;
    TimerGood(sv, dt, env);
    MidFacts(sv, dt, env);
  }

  lemma GoodSteady(sv: Server, dt: nat)
    requires Good(sv) && dt <= 510
    ensures AllSteady(sv.snakes) && WholeFrames(sv.ticks, dt) <= 517
  {
    hide AllSizesOk, FoodOk, Linked, Synced, AllInside, Watching;
    WholeBound(sv.ticks, dt);
  }

  lemma TimerIs(sv: Server, dt: nat, env: Env)
    requires FoodOk(sv.food)
    ensures var mid, changes := MidOf(sv, dt, env), ChangesOf(sv, dt, env);
            var b := Turns(Broadcast(mid, []), changes, env, |changes|);
            Timer(sv, dt, env) == Bury(b.sv, b.dead)
  {
    hide WorldModel.TickWorld, Turns, FoodOk;
  }

  lemma WireNotBody(m: map<nat, Snake>, e: Endpoint)
    ensures (e as object) !in Bodies(m)
  {
  }

  /** A bot that is buried in this turn. */
  predicate DiesNow(s: SnakeState) {
    !s.flags.dead && s.flags.dying && s.bot
  }

  /** Food after the turn of a snake. */
  function Ground(food: FoodMap, s: SnakeState, env: Env): FoodMap
    requires FoodOk(food)
  {
    if !s.flags.dead && s.flags.dying then Fallen(food, Remains(s, env)) else food
  }

  /** Clients after the turn of a snake. */
  function Heard(clients: map<nat, Client>, connections: map<nat, nat>, s: SnakeState, food: FoodMap, env: Env): map<nat, Client> {
    if s.flags.dead then clients
    else if s.flags.dying then Tell(Ended(clients, connections, s), ObituaryPackets(s, env))
    else Seen(Tell(clients, PublicPackets(s)), connections, s, food)
  }

  /** The turn of the model, taken apart. */
  lemma TurnIs(b: Broadcast, id: nat, env: Env)
    requires FoodOk(b.sv.food) && id in b.sv.snakes && b.sv.snakes[id].id == id
    ensures var sv, s := b.sv, b.sv.snakes[id];
            TakeTurn(b, id, env)
            == Broadcast(sv.(snakes := sv.snakes[id := TurnOf(s)], food := Ground(sv.food, s, env),
                             clients := Heard(sv.clients, sv.connections, s, sv.food, env)),
                         if DiesNow(s) then b.dead + [id] else b.dead)
  {
    hide FoodOk, Fallen, Remains, Tell, PublicPackets, ObituaryPackets, PointOfView, Reported, Buried;
    var s := b.sv.snakes[id];
    if s.flags.dead {
      assert b.sv.snakes[id := s] == b.sv.snakes;
    }
  }

  lemma SeenIs(told: map<nat, Client>, connections: map<nat, nat>, s: SnakeState, food: FoodMap)
    requires s.flags.pos && !s.bot && s.id in connections && connections[s.id] in told
    ensures Seen(told, connections, s, food) == Put(told, connections[s.id], OwnUpdate(told[connections[s.id]], s, food))
    ensures OwnUpdate(told[connections[s.id]], s, food)
            == if s.flags.fullness then Apply(PointOfView(told[connections[s.id]], s, food), Fullness(s.id, s.fullness))
               else PointOfView(told[connections[s.id]], s, food)
  {
  }

  lemma SameLengths(a: SnakeState, b: SnakeState)
    requires a.id == b.id && a.parts == b.parts && a.clientParts == b.clientParts && a.flags.pos == b.flags.pos
    requires a.fullness == b.fullness
    ensures LengthPackets(a) == LengthPackets(b) && MovePackets(a) == MovePackets(b)
  {
  }

  lemma SamePointOfView(c: Client, a: SnakeState, b: SnakeState, food: FoodMap)
    requires a.newS == b.newS && a.oldS == b.oldS
    ensures PointOfView(c, a, food) == PointOfView(c, b, food)
  {
  }

  lemma SeenSame(told: map<nat, Client>, connections: map<nat, nat>, a: SnakeState, b: SnakeState, food: FoodMap)
    requires a.id == b.id && a.bot == b.bot && a.newS == b.newS && a.oldS == b.oldS && b.flags.pos && a.fullness == b.fullness
    ensures Seen(told, connections, a.(flags := a.flags.(pos := true, fullness := b.flags.fullness)), food)
            == Seen(told, connections, b, food)
  {
  }

  lemma StepPackets(s: SnakeState)
    requires s.flags.pos
    ensures PublicPackets(s)
            == RotationPackets(s) + ((LengthPackets(s) + MovePackets(s)) + FoodPackets(s.id, s.eaten, s.spawn))
  {
  }

  lemma QuietPackets(s: SnakeState)
    requires !s.flags.pos
    ensures PublicPackets(s) == RotationPackets(s)
  {
  }

  lemma NoPackets(id: nat, clients: map<nat, Client>)
    ensures Tell(clients, FoodPackets(id, [], [])) == clients
  {
    assert FoodPackets(id, [], []) == [];
  }

  /** Objects of different classes are different. */
  lemma Apart(w: World, e: Endpoint, s: Snake)
    ensures (w as object) != s && (w as object) != s.vp && (w as object) != e
    ensures (w.sectors as object) != s && (w.sectors as object) != s.vp && (w.sectors as object) != e
    ensures (e as object) != s && (e as object) != s.vp
  {
  }

  lemma StateParts(s: Snake)
    requires s.Valid()
    ensures s.State().flags == s.update && s.State().bot == s.bot && s.State().id == s.id
    ensures s.sbb.id == s.id && s.vp.id == s.id && s.sbb.Valid() && s.vp.Valid()
    ensures s.State().sbb == Elems(s.sbb.sectors) && s.State().parts == s.parts
  {
  }

  lemma FoodSize(food: FoodMap)
    requires FoodOk(food)
    ensures |food| == SECTORS
  {
  }

  lemma TurnKeepsBox(s: SnakeState)
    ensures TurnOf(s).sbb == s.sbb
  {
  }

  lemma SettleTable(w: World, table: SnakeMap, id: nat)
    requires Owned(w.snakes) && w.sectors.Valid() && id in w.snakes && Agree(w.sectors.snakes, table)
    requires forall j :: j in w.snakes ==> 0 < j <= w.lastSnakeId && w.snakes[j].Valid()
    requires table.Keys == w.snakes.Keys && forall j :: j in w.snakes && j != id ==> w.snakes[j].State() == table[j]
    requires w.snakes[id].State().sbb == table[id].sbb
    ensures w.Valid() && Table(w.snakes) == table[id := w.snakes[id].State()]
  {
    hide Snake.State, Snake.Valid, Agree, Table, Sound, Owned;
    TableIs(w.snakes, table, id);
    SoundAfter(w.snakes, w.sectors, w.lastSnakeId, table, id);
  }

  /** The pieces of `Sound` after a turn that left all boxes alone. */
  lemma SoundAfter(m: map<nat, Snake>, ss: SectorSeq, last: nat, table: SnakeMap, id: nat)
    requires Owned(m) && ss.Valid() && id in m && Agree(ss.snakes, table)
    requires forall j :: j in m ==> 0 < j <= last && m[j].Valid()
    requires Table(m) == table[id := m[id].State()] && table.Keys == m.Keys && m[id].State().sbb == table[id].sbb
    ensures Sound(m, ss, last)
  {
    hide Snake.State, Snake.Valid, Agree, Table;
    AgreeSame(ss.snakes, table, Table(m));
  }
}
