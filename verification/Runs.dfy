/** Whole runs of the server: timer steps, connections, disconnections and messages in any order. */
module Runs {
  import opened Geometry
  import opened Config
  import opened Movement
  import opened Birth
  import opened Grid
  import opened SnakeModel
  import opened SnakeLaws
  import opened BodyLaws
  import opened DeathFood
  import opened WorldModel
  import opened Packets
  import opened ServerModel
  import opened StepLaws
  import opened MirrorLaws
  import opened FoodMirror
  import opened LengthMirror

  datatype Event =
    | Timed(dt: nat, env: Env)
    | Opened(hdl: nat, skin: int, body: seq<Body>, angle: real)
    | Closed(hdl: nat)
    | Received(hdl: nat, m: Message)

  /** What the outside guarantees: ticks of at most 510 ms with unit headings, and a fresh handle per connection. */
  ghost predicate Proper(sv: Server, e: Event) {
    match e
    case Timed(dt, env) => dt <= 510 && EnvOk(env, sv.snakes)
    case Opened(h, _, body, _) => h !in sv.sessions && StartBody(body)
    case Closed(_) => true
    case Received(_, _) => true
  }

  ghost function Next(sv: Server, e: Event): (r: Server)
    requires FoodOk(sv.food) && Proper(sv, e)
    ensures FoodOk(r.food)
  {
    match e
    case Timed(dt, env) => Timer(sv, dt, env)
    case Opened(h, skin, body, angle) => Open(sv, h, skin, body, angle)
    case Closed(h) => Close(sv, h)
    case Received(h, m) => Receive(sv, h, m)
  }

  /** The invariant of quiescent points. */
  ghost predicate Good(sv: Server) {
    && FoodOk(sv.food) && AllSizesOk(sv.food) && sv.ticks < FRAME_MS
    && AllCalm(sv.snakes) && Linked(sv) && Synced(sv) && Introduced(sv)
  }

  // ---------------------------------------------------------------- connections

  lemma PlacedCalm(id: nat, skin: int, body: seq<Body>, angle: real)
    requires StartBody(body)
    ensures var s := Placed(Blank(id, skin, body, angle));
            && Calm(s.(newS := {}, oldS := {})) && s.oldS == {} && s.vp == s.newS && s.id == id && !s.bot
            && s.clientParts == |body| && !s.flags.dead
  {
    hide Inside, InitEntered, Covers, Appearing, Centroid, BoxRadius;
    var p, b := body[0], Blank(id, skin, body, angle);
    DiscLeft(p);
    CoverageStart(p);
    var s, seen := Placed(b), Appearing(ViewCircle(p), p, ORIGIN);
    assert b.view == ViewCircle(p);
    assert s.vp == seen && s.newS == seen;
    assert Watching(s.(newS := {}, oldS := {}));
  }

  lemma DiscLeft(p: Body)
    requires Inside(p, CENTRE, DEATH)
    ensures p.x >= 300.0 && p.y >= 0.0
  {
    ShortAxis(p.Minus(CENTRE), DEATH);
  }

  /** Every client that hears the introduction has met the snake. */
  lemma IntroductionMeets(c: Client, s: SnakeState)
    ensures ApplyAll(c, Introduction(s)) == Met(c, s)
  {
    var a, b := AddSnake(s.id, |s.parts|, StatusOf(s)), Packet.Move(s.id, HeadPos(s));
    assert [a, b] == ([] + [a]) + [b];
    ApplySnoc(c, [] + [a], b);
    ApplySnoc(c, [], a);
  }

  /** What a connection changes, with the new snake's flushed state s and the new client c. */
  lemma OpenShape(sv: Server, h: nat, skin: int, body: seq<Body>, angle: real) returns (s: SnakeState, c: Client)
    requires StartBody(body)
    ensures Calm(s) && s.id == sv.lastId + 1 && !s.bot && s.clientParts == |body| && s.parts == body && !s.flags.dead
    ensures c.view == s.vp && c.lengths.Keys == c.shows.Keys == sv.snakes.Keys + {s.id} && !c.over
    ensures c.lengths[s.id] == |body| && c.shows[s.id] == StatusOf(s)
    ensures forall j :: j in sv.snakes && j != s.id ==> c.lengths[j] == |sv.snakes[j].parts| && c.shows[j] == StatusOf(sv.snakes[j])
    ensures var r, id := Open(sv, h, skin, body, angle), s.id;
            && r.snakes == sv.snakes[id := s] && r.lastId == id && r.food == sv.food && r.ticks == sv.ticks
            && r.sessions == sv.sessions[h := id] && r.connections == sv.connections[id := h]
            && r.clients.Keys == sv.clients.Keys + {h} && r.clients[h] == c
            && forall g :: g in sv.clients && g != h ==> r.clients[g] == Met(sv.clients[g], s)
  {
    hide Calm, Placed, Blank, ApplyAll, AllInside, Shown, Home, StatusOf, Introduction, MetAll, Met, PointOfView;
    var id, r := sv.lastId + 1, Open(sv, h, skin, body, angle);
    var p := Placed(Blank(id, skin, body, angle));
    PlacedCalm(id, skin, body, angle);
    PlacedBody(id, skin, body, angle);
    s, c := p.(newS := {}, oldS := {}), r.clients[h];
    SameStatus(p, s);
    NewcomerKnows(p, sv);
    forall g | g in sv.clients && g != h
      ensures r.clients[g] == Met(sv.clients[g], s)
    {
      IntroductionMeets(sv.clients[g], p);
    }
  }

  lemma SameStatus(p: SnakeState, s: SnakeState)
    requires s == p.(newS := {}, oldS := {})
    ensures StatusOf(s) == StatusOf(p) && forall c: Client :: Met(c, s) == Met(c, p)
  {
    hide Trunc;
  }

  /** What the new session's client knows. */
  lemma NewcomerKnows(p: SnakeState, sv: Server)
    ensures var c := MetAll(PointOfView(Met(FRESH, p), p, sv.food), sv.snakes, sv.snakes.Keys - {p.id});
            && c.view == p.newS - p.oldS && !c.over
            && c.lengths.Keys == c.shows.Keys == sv.snakes.Keys + {p.id}
            && c.lengths[p.id] == |p.parts| && c.shows[p.id] == StatusOf(p)
            && forall j :: j in sv.snakes && j != p.id ==> c.lengths[j] == |sv.snakes[j].parts| && c.shows[j] == StatusOf(sv.snakes[j])
  {
    hide StatusOf, Shown, Home;
  }

  lemma PlacedBody(id: nat, skin: int, body: seq<Body>, angle: real)
    requires body != []
    ensures Placed(Blank(id, skin, body, angle)).parts == body
  {
  }

  lemma OpenGood(sv: Server, h: nat, skin: int, body: seq<Body>, angle: real)
    requires Good(sv) && h !in sv.sessions && StartBody(body)
    ensures Good(Open(sv, h, skin, body, angle))
  {
    hide FoodOk, AllSizesOk, Calm, AllInside, Open, Linked, Synced, Introduced, AllCalm;
    var r := Open(sv, h, skin, body, angle);
    var s, c := OpenShape(sv, h, skin, body, angle);
    MoreCalm(sv.snakes, s);
    OpenLinked(sv, r, h, s.id, s);
    OpenSynced(sv, r, h, s, c);
    OpenIntroduced(sv, r, h, s, c);
  }

  lemma MoreCalm(snakes: SnakeMap, s: SnakeState)
    requires AllCalm(snakes) && Calm(s)
    ensures AllCalm(snakes[s.id := s])
  {
    hide Calm;
  }

  lemma OpenSynced(sv: Server, r: Server, h: nat, s: SnakeState, c: Client)
    requires Linked(sv) && Synced(sv) && h !in sv.sessions && s.id == sv.lastId + 1 && c.view == s.vp
    requires r.snakes == sv.snakes[s.id := s] && r.sessions == sv.sessions[h := s.id]
    requires r.clients.Keys == sv.clients.Keys + {h} && r.clients[h] == c
    requires forall g :: g in sv.clients && g != h ==> r.clients[g].view == sv.clients[g].view
    ensures Synced(r)
  {
    forall g | g in r.sessions && g != h
      ensures g in sv.sessions && sv.sessions[g] in sv.snakes && r.sessions[g] != s.id
    {
    }
  }

  lemma OpenIntroduced(sv: Server, r: Server, h: nat, s: SnakeState, c: Client)
    requires Introduced(sv) && r.snakes == sv.snakes[s.id := s] && c.lengths.Keys == sv.snakes.Keys + {s.id}
    requires r.clients.Keys == sv.clients.Keys + {h} && r.clients[h] == c
    requires forall g :: g in sv.clients && g != h ==>
               r.clients[g].lengths.Keys == sv.clients[g].lengths.Keys + {s.id}
    ensures Introduced(r)
  {
  }

  lemma OpenLinked(sv: Server, r: Server, h: nat, id: nat, s: SnakeState)
    requires Linked(sv) && h !in sv.sessions && id == sv.lastId + 1 && !s.bot
    requires r.snakes == sv.snakes[id := s] && r.lastId == id && r.sessions == sv.sessions[h := id]
    requires r.connections == sv.connections[id := h] && r.clients.Keys == sv.clients.Keys + {h}
    ensures Linked(r)
  {
    hide Linked;
    LinkedParts(sv, h, id);
    forall g | g in r.sessions
      ensures r.sessions[g] in r.snakes && !r.snakes[r.sessions[g]].bot
      ensures r.sessions[g] in r.connections && r.connections[r.sessions[g]] == g
    {
    }
    LinkedWhole(r);
  }

  lemma LinkedParts(sv: Server, h: nat, id: nat)
    requires Linked(sv) && h !in sv.sessions && id == sv.lastId + 1
    ensures sv.clients.Keys == sv.sessions.Keys && id !in sv.snakes && id !in sv.connections
    ensures forall g :: g in sv.sessions ==>
              sv.sessions[g] in sv.snakes && !sv.snakes[sv.sessions[g]].bot
              && sv.sessions[g] in sv.connections && sv.connections[sv.sessions[g]] == g && sv.sessions[g] != id
    ensures forall j :: j in sv.connections ==>
              sv.connections[j] in sv.sessions && sv.sessions[sv.connections[j]] == j && sv.connections[j] != h
    ensures forall j :: j in sv.snakes ==> 0 < j <= sv.lastId && (!sv.snakes[j].bot ==> j in sv.connections)
  {
  }

  lemma LinkedWhole(r: Server)
    requires r.clients.Keys == r.sessions.Keys
    requires forall g :: g in r.sessions ==>
               r.sessions[g] in r.snakes && !r.snakes[r.sessions[g]].bot
               && r.sessions[g] in r.connections && r.connections[r.sessions[g]] == g
    requires forall j :: j in r.connections ==> r.connections[j] in r.sessions && r.sessions[r.connections[j]] == j
    requires forall j :: j in r.snakes ==> 0 < j <= r.lastId && (!r.snakes[j].bot ==> j in r.connections)
    ensures Linked(r)
  {
  }

  lemma CloseGood(sv: Server, h: nat)
    requires Good(sv)
    ensures Good(Close(sv, h))
  {
    hide FoodOk, AllSizesOk, Calm, Linked, Synced, Introduced;
    CloseLinked(sv, h);
    CloseMirrors(sv, h);
  }

  lemma CloseLinked(sv: Server, h: nat)
    requires Linked(sv)
    ensures Linked(Close(sv, h))
  {
  }

  lemma CloseMirrors(sv: Server, h: nat)
    requires Linked(sv) && Synced(sv) && Introduced(sv)
    ensures Synced(Close(sv, h)) && Introduced(Close(sv, h))
  {
  }

  lemma ObeyCalm(s: SnakeState, m: Message)
    requires Calm(s)
    ensures Calm(Obey(s, m)) && Obey(s, m).id == s.id && Obey(s, m).bot == s.bot && Obey(s, m).vp == s.vp
    ensures Obey(s, m).flags.dead == s.flags.dead && Obey(s, m).clientParts == s.clientParts
  {
    hide AllInside, Covers, ViewCircle;
  }

  /** A snake may be replaced by one that looks the same from outside. */
  ghost predicate Alike(a: SnakeState, b: SnakeState) {
    a.bot == b.bot && a.vp == b.vp && a.flags.dead == b.flags.dead && a.clientParts == b.clientParts
  }

  lemma SwapLinked(sv: Server, id: nat, s: SnakeState)
    requires Linked(sv) && id in sv.snakes && Alike(s, sv.snakes[id])
    ensures Linked(sv.(snakes := sv.snakes[id := s]))
  {
  }

  lemma SwapMirrors(sv: Server, id: nat, s: SnakeState)
    requires Synced(sv) && Introduced(sv) && id in sv.snakes && Alike(s, sv.snakes[id])
    ensures Synced(sv.(snakes := sv.snakes[id := s])) && Introduced(sv.(snakes := sv.snakes[id := s]))
  {
  }

  lemma ReceiveGood(sv: Server, h: nat, m: Message)
    requires Good(sv)
    ensures Good(Receive(sv, h, m))
  {
    hide FoodOk, AllSizesOk, Calm, Obey, Linked, Synced, Introduced;
    if h in sv.sessions && sv.sessions[h] in sv.snakes {
      var id := sv.sessions[h];
      ObeyCalm(sv.snakes[id], m);
      SwapLinked(sv, id, Obey(sv.snakes[id], m));
      SwapMirrors(sv, id, Obey(sv.snakes[id], m));
    }
  }

  // ---------------------------------------------------------------- timer steps

  lemma {:induction false} FallenSizes(food: FoodMap, d: seq<Drop>)
    requires FoodOk(food) && AllSizesOk(food)
    requires forall i :: 0 <= i < |d| ==> d[i].sector < SECTORS && 0 <= d[i].food.size <= 100
    ensures AllSizesOk(Fallen(food, d))
  {
    if d != [] {
      FallenSizes(food, d[..|d| - 1]);
      var f, last := Fallen(food, d[..|d| - 1]), d[|d| - 1];
      forall g | g in FoodList.Insert(f[last.sector], last.food)
        ensures 0 <= g.size <= 100
      {
        assert g in multiset(FoodList.Insert(f[last.sector], last.food));
        assert SizesOk(f[last.sector]);
      }
    }
  }

  lemma {:induction false} PartDropSizes(p: Body, k: nat, n: nat, draw: nat -> real, from: nat, j: nat)
    ensures forall i :: 0 <= i < j ==> 0 <= PartDrops(p, k, n, draw, from, j)[i].food.size <= 100
  {
    hide BodyRadius, Trunc, Scale;
    if j > 0 {
      PartDropSizes(p, k, n, draw, from, j - 1);
      DropSize(n);
    }
  }

  lemma DropSize(n: nat)
    ensures DropCount(n) > 0 && 0 <= 100 / DropCount(n) <= 100
  {
  }

  lemma {:induction false} DropSizes(parts: seq<Body>, draw: nat -> real, m: nat)
    requires m <= |parts|
    ensures forall i :: 0 <= i < |Drops(parts, draw, m)| ==> 0 <= Drops(parts, draw, m)[i].food.size <= 100
  {
    hide PartDrops, DropCount;
    if m > 0 {
      DropSizes(parts, draw, m - 1);
      var p, d := parts[m - 1], Drops(parts, draw, m - 1);
      if Inner(p) {
        PartDropSizes(p, Index(Cell(p.x), Cell(p.y)), |parts|, draw, 3 * |d|, DropCount(|parts|));
      }
    }
  }

  /** Death food, like all other food, has a size of at most 100. */
  lemma {:induction false} TurnsSizes(mid: Server, changes: seq<nat>, env: Env, n: nat)
    requires FoodOk(mid.food) && AllSizesOk(mid.food) && n <= |changes|
    ensures AllSizesOk(Turns(Broadcast(mid, []), changes, env, n).sv.food)
  {
    hide FoodOk, AllSizesOk, Fallen, Drops, ApplyAll, PublicPackets, ObituaryPackets, PointOfView, Reported, Buried;
    if n > 0 {
      TurnsSizes(mid, changes, env, n - 1);
      var b, id := Turns(Broadcast(mid, []), changes, env, n - 1), changes[n - 1];
      if id in b.sv.snakes {
        var s := b.sv.snakes[id];
        DropSizes(s.parts, (n: nat) => env.random(s.id, n), |s.parts|);
        FallenSizes(b.sv.food, Remains(s, env));
      }
    }
  }

  lemma WholeBound(ticks: nat, dt: nat)
    requires ticks < FRAME_MS
    ensures WholeFrames(ticks, dt) <= dt + 7 && ticks + dt - WholeFrames(ticks, dt) < FRAME_MS
    ensures WholeFrames(ticks, dt) <= ticks + dt
  {
  }

  lemma TimerRest(sv: Server, dt: nat, env: Env)
    requires StepOk(sv, dt, env) && sv.ticks < FRAME_MS
    ensures AllSizesOk(Timer(sv, dt, env).food) && Timer(sv, dt, env).ticks < FRAME_MS
  {
    hide AllSizesOk, FoodOk, After, AllCalm, TickSnakes, Turns;
    WholeBound(sv.ticks, dt);
    WorldTickAfter(WorldOf(sv), dt, env);
    var mid, changes := MidOf(sv, dt, env), ChangesOf(sv, dt, env);
    TurnsSizes(mid, changes, env, |changes|);
    TurnsTicks(mid, changes, env, |changes|);
    TimerFood(sv, dt, env);
  }

  lemma {:induction false} TurnsTicks(mid: Server, changes: seq<nat>, env: Env, n: nat)
    requires FoodOk(mid.food) && n <= |changes|
    ensures Turns(Broadcast(mid, []), changes, env, n).sv.ticks == mid.ticks
  {
    hide FoodOk, Fallen, Remains, Tell, PublicPackets, ObituaryPackets, PointOfView, Reported, Buried;
    if n > 0 {
      TurnsTicks(mid, changes, env, n - 1);
    }
  }

  lemma TimerGood(sv: Server, dt: nat, env: Env)
    requires Good(sv) && dt <= 510 && EnvOk(env, sv.snakes)
    ensures StepOk(sv, dt, env) && Good(Timer(sv, dt, env))
  {
    hide FoodOk, AllSizesOk, EnvOk, AllCalm, Linked, Synced, Introduced, Timer;
    WholeBound(sv.ticks, dt);
    TimerCalms(sv, dt, env);
    TimerSynced(sv, dt, env);
    TimerLengths(sv, dt, env);
    TimerRest(sv, dt, env);
  }

  /** Every proper event leads from a quiescent point to a quiescent point. */
  lemma NextGood(sv: Server, e: Event)
    requires Good(sv) && Proper(sv, e)
    ensures Good(Next(sv, e))
  {
    hide Good, EnvOk, StartBody, Timer, Open, Close, Receive;
    match e
    case Timed(dt, env) => TimerGood(sv, dt, env);
    case Opened(h, skin, body, angle) => OpenGood(sv, h, skin, body, angle);
    case Closed(h) => CloseGood(sv, h);
    case Received(h, m) => ReceiveGood(sv, h, m);
  }
}
