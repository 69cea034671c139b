/** Whole runs once more: what the clients know of the food and of the body lengths. */
module RunMirrors {
  import opened Geometry
  import opened Config
  import opened Movement
  import opened Grid
  import opened FoodList
  import opened SnakeModel
  import opened SnakeLaws
  import opened WorldModel
  import opened Packets
  import opened ServerModel
  import opened StepLaws
  import opened MirrorLaws
  import opened FoodMirror
  import opened LengthMirror
  import opened Birth
  import opened Runs
  import opened RunLaws
  import opened RunBodies

  // ---------------------------------------------------------------- food

  lemma FreshMirrored(food: FoodMap, at: Pos)
    ensures Mirrored(FRESH, food, at)
  {
    hide Holds, Home;
  }

  lemma OpenClient(sv: Server, h: nat, skin: int, body: seq<Body>, angle: real, at: Pos)
    requires StartBody(body) && CleanAt(sv.food, at)
    ensures h in Open(sv, h, skin, body, angle).clients && Mirrored(Open(sv, h, skin, body, angle).clients[h], sv.food, at)
  {
    hide OnTheWay, CleanAt, PointOfView, Placed, Blank, ApplyAll, AllInside;
    var id := sv.lastId + 1;
    var s := Placed(Blank(id, skin, body, angle));
    var known := Met(FRESH, s);
    FreshMirrored(sv.food, at);
    OnlyFoodAndView(FRESH, known, [], sv.food, at);
    SnapshotOnTheWay(known, s, [], sv.food, at);
    OnlyFoodAndView(PointOfView(known, s, sv.food), Open(sv, h, skin, body, angle).clients[h], [], sv.food, at);
  }

  lemma IntroductionNeutral(s: SnakeState)
    ensures Neutral(Introduction(s))
  {
  }

  lemma OpenMirrored(sv: Server, h: nat, skin: int, body: seq<Body>, angle: real, at: Pos)
    requires StartBody(body) && CleanAt(sv.food, at) && AllMirrored(sv, at)
    ensures AllMirrored(Open(sv, h, skin, body, angle), at)
  {
    hide OnTheWay, CleanAt, PointOfView, Placed, Blank, ApplyAll, AllInside, Neutral;
    var r, id := Open(sv, h, skin, body, angle), sv.lastId + 1;
    OpenClient(sv, h, skin, body, angle, at);
    forall g | g in r.clients && g != h
      ensures Mirrored(r.clients[g], r.food, at)
    {
      IntroductionNeutral(Placed(Blank(id, skin, body, angle)));
      NeutralApply(sv.clients[g], Introduction(Placed(Blank(id, skin, body, angle))));
      OnlyFoodAndView(sv.clients[g], r.clients[g], [], sv.food, at);
    }
  }

  /** The event is fresh at the position, if it is a timer step. */
  ghost predicate FreshEvent(sv: Server, e: Event, at: Pos)
    requires FoodOk(sv.food)
  {
    e.Timed? ==> FreshStep(sv, e.dt, e.env, at)
  }

  lemma NextMirrored(sv: Server, e: Event, at: Pos)
    requires Good(sv) && Proper(sv, e) && FreshEvent(sv, e, at) && CleanAt(sv.food, at) && AllMirrored(sv, at)
    ensures CleanAt(Next(sv, e).food, at) && AllMirrored(Next(sv, e), at)
  {
    hide OnTheWay, CleanAt, Timer, FreshStep, EnvOk, StartBody, Open, FoodOk, AllSizesOk, AllCalm, Synced, Introduced;
    match e
    case Timed(dt, env) =>
      TimerGood(sv, dt, env);
      TimerMirrored(sv, dt, env, at);
    case Opened(h, skin, body, angle) =>
      OpenMirrored(sv, h, skin, body, angle, at);
      OpenFood(sv, h, skin, body, angle);
    case Closed(h) =>
    case Received(h, m) =>
  }

  lemma OpenFood(sv: Server, h: nat, skin: int, body: seq<Body>, angle: real)
    requires StartBody(body)
    ensures Open(sv, h, skin, body, angle).food == sv.food
  {
    hide PointOfView, Placed, Blank, ApplyAll, AllInside;
  }

  /** A run in which this position is used properly: at most one item there at first, filed where it lies, and
      every step puts food there only when it is free, nothing pending is about it, and its own sector gets it.
      What happens at all other positions is not restricted. */
  ghost predicate IsFreshAt(states: seq<Server>, events: seq<Event>, at: Pos) {
    && IsRun(states, events) && CleanAt(states[0].food, at) && AllMirrored(states[0], at)
    && forall i :: 0 <= i < |events| ==> FreshEvent(states[i], events[i], at)
  }

  lemma {:induction false} AlwaysMirrored(states: seq<Server>, events: seq<Event>, i: nat, at: Pos)
    requires IsFreshAt(states, events, at) && i < |states|
    ensures CleanAt(states[i].food, at) && AllMirrored(states[i], at)
  {
    hide Good, Proper, Next, CleanAt, AllMirrored, FreshStep;
    if i > 0 {
      AlwaysMirrored(states, events, i - 1, at);
      AlwaysGood(states, events, i - 1);
      NextMirrored(states[i - 1], events[i - 1], at);
    }
  }

  /** Snapshot plus overlapping log, whole runs, position by position: whatever is misfiled or reused elsewhere, at
      a position used properly every client that knows food there is right, and a living player's client knows
      of it exactly if it is there, as long as its sector is in the viewport. */
  lemma FoodConvergesAt(states: seq<Server>, events: seq<Event>, i: nat, h: nat, at: Pos)
    requires IsFreshAt(states, events, at) && i < |states| && h in states[i].sessions
    ensures var sv, id := states[i], states[i].sessions[h];
            && h in sv.clients && id in sv.snakes && |sv.food| == SECTORS
            && (at in sv.clients[h].food ==> 0 <= Home(at) && Has(sv.food[Home(at)], at))
            && (!sv.snakes[id].flags.dead && Home(at) in sv.snakes[id].vp ==>
                  0 <= Home(at) && (at in sv.clients[h].food <==> Has(sv.food[Home(at)], at)))
  {
    hide IsRun, Good, CleanAt, Has, Holds, Home, Covers, AllMirrored;
    AlwaysMirrored(states, events, i, at);
    DeltaSync(states, events, i, h);
    var sv := states[i];
    ClientMirrored(sv, h, at);
    CleanSize(sv.food, at);
    assert Last([], at) == Untouched;
    HeldAtHome(sv.food, at);
    HomeBound(at);
  }

  lemma ClientMirrored(sv: Server, h: nat, at: Pos)
    requires AllMirrored(sv, at) && h in sv.clients
    ensures Mirrored(sv.clients[h], sv.food, at)
  {
    hide Mirrored;
  }

  /** If all positions are used properly, a living player's client knows of each sector of its viewport exactly the
      positions of the food that lies there, and elsewhere nothing that is not there. */
  lemma FoodConverges(states: seq<Server>, events: seq<Event>, i: nat, h: nat)
    requires (forall at :: IsFreshAt(states, events, at)) && IsRun(states, events) && i < |states| && h in states[i].sessions
    ensures var sv, id := states[i], states[i].sessions[h];
            && h in sv.clients && id in sv.snakes && |sv.food| == SECTORS
            && (forall at :: at in sv.clients[h].food ==> 0 <= Home(at) && Has(sv.food[Home(at)], at))
            && (!sv.snakes[id].flags.dead ==>
                  forall k :: k in sv.snakes[id].vp && k < SECTORS ==>
                    (set at | at in sv.clients[h].food && Home(at) == k) == (set f | f in sv.food[k] :: PosOf(f)))
  {
    hide IsFreshAt, Has, Home, Covers, IsRun;
    DeltaSync(states, events, i, h);
    var sv, id := states[i], states[i].sessions[h];
    FoodConvergesAt(states, events, i, h, (0, 0));
    forall at
      ensures at in sv.clients[h].food ==> 0 <= Home(at) < |sv.food| && Has(sv.food[Home(at)], at)
    {
      HomeBound(at);
      FoodConvergesAt(states, events, i, h, at);
    }
    forall k | !sv.snakes[id].flags.dead && k in sv.snakes[id].vp && k < SECTORS
      ensures (set at | at in sv.clients[h].food && Home(at) == k) == (set f | f in sv.food[k] :: PosOf(f))
    {
      forall at: Pos
        ensures at in sv.clients[h].food && Home(at) == k <==> exists f :: f in sv.food[k] && PosOf(f) == at
      {
        FoodConvergesAt(states, events, i, h, at);
        HasMember(sv.food[k], at);
        HasHome(states, events, i, k, at);
      }
    }
  }

  lemma HasHome(states: seq<Server>, events: seq<Event>, i: nat, k: nat, at: Pos)
    requires IsFreshAt(states, events, at) && i < |states| && k < SECTORS
    ensures |states[i].food| == SECTORS && (Has(states[i].food[k], at) ==> Home(at) == k)
  {
    hide IsRun, AllMirrored, Home, Has;
    AlwaysMirrored(states, events, i, at);
  }

  lemma HasMember(s: seq<Food>, at: Pos)
    ensures Has(s, at) <==> exists f :: f in s && PosOf(f) == at
  {
    if f :| f in s && PosOf(f) == at {
      var i :| 0 <= i < |s| && s[i] == f;
    }
  }

  // ---------------------------------------------------------------- lengths

  /** The client of the session knows the snake, and both are still there. */
  ghost predicate Pair(sv: Server, h: nat, id: nat) {
    h in sv.clients && Alive(sv, id) && id in sv.clients[h].lengths
  }

  lemma OpenDrift(sv: Server, g: nat, skin: int, body: seq<Body>, angle: real, h: nat, id: nat)
    requires Good(sv) && g !in sv.sessions && StartBody(body)
    requires var r := Open(sv, g, skin, body, angle); Pair(r, h, id)
    ensures var r := Open(sv, g, skin, body, angle);
            && (h != g && id != r.lastId ==> Pair(sv, h, id) && Drift(r, h, id) == Drift(sv, h, id))
            && (id == r.lastId ==> Drift(r, h, id) == 0)
            && (h == g && id != r.lastId ==> Alive(sv, id) && Drift(r, h, id) == |sv.snakes[id].parts| - sv.snakes[id].clientParts)
  {
    hide FoodOk, AllSizesOk, Calm, AllInside, Open, Linked, Synced, AllCalm;
    var s, c := OpenShape(sv, g, skin, body, angle);
    OpenFresh(sv);
  }

  lemma OpenFresh(sv: Server)
    requires Good(sv)
    ensures sv.lastId + 1 !in sv.snakes && sv.clients.Keys == sv.sessions.Keys
  {
    hide AllCalm, FoodOk, AllSizesOk, Synced, Introduced;
  }

  lemma NextDrift(sv: Server, e: Event, h: nat, id: nat)
    requires Good(sv) && Proper(sv, e) && Pair(sv, h, id) && Pair(Next(sv, e), h, id)
    ensures Drift(Next(sv, e), h, id) == Drift(sv, h, id)
  {
    hide FoodOk, AllSizesOk, EnvOk, StartBody, Open, Timer, AllCalm, Synced, Introduced;
    match e
    case Timed(dt, env) =>
      TimerGood(sv, dt, env);
      TimerLengths(sv, dt, env);
    case Opened(g, skin, body, angle) =>
      OpenFresh(sv);
      OpenDrift(sv, g, skin, body, angle, h, id);
      OpenLast(sv, g, skin, body, angle);
    case Closed(_) =>
    case Received(_, m) =>
  }

  lemma OpenLast(sv: Server, g: nat, skin: int, body: seq<Body>, angle: real)
    requires StartBody(body)
    ensures Open(sv, g, skin, body, angle).lastId == sv.lastId + 1
  {
    hide PointOfView, Placed, Blank, ApplyAll, AllInside;
  }

  /** Length mirror, whole runs: while session and snake both last, the client's part count keeps its distance
      from the server's counter. A snake introduced when it is created is counted exactly for ever; a client that
      joins later is ahead of the server's counter by what was unreported at that moment. */
  lemma {:induction false} DriftIsForever(states: seq<Server>, events: seq<Event>, h: nat, id: nat, i: nat, j: nat)
    requires IsRun(states, events) && i <= j < |states|
    requires Pair(states[i], h, id) && Pair(states[j], h, id)
    requires forall k :: i <= k <= j ==> Pair(states[k], h, id)
    ensures Drift(states[j], h, id) == Drift(states[i], h, id)
  {
    hide Good, Proper, Next, Pair, Drift;
    if i < j {
      DriftIsForever(states, events, h, id, i, j - 1);
      AlwaysGood(states, events, j - 1);
      NextDrift(states[j - 1], events[j - 1], h, id);
    }
  }

  /** How much of a snake's length the server has not reported yet. */
  function Behind(s: SnakeState): int {
    |s.parts| - s.clientParts
  }

  /** A later joiner's count: the introduction tells it the length, and from then on it is what the server has
      reported plus what was unreported at the introduction. So it equals the length exactly when the server is
      again as far behind as it was then, and what the server has reported exactly when it was not behind then. */
  lemma JoinDrift(states: seq<Server>, events: seq<Event>, i: nat, j: nat, id: nat)
    requires IsRun(states, events) && i < j < |states| && events[i].Opened? && Alive(states[i], id)
    requires Pair(states[j], events[i].hdl, id)
    requires forall k :: i < k <= j ==> Pair(states[k], events[i].hdl, id)
    ensures var count, now, first := states[j].clients[events[i].hdl].lengths[id], states[j].snakes[id], states[i].snakes[id];
            && count == now.clientParts + Behind(first)
            && (count == |now.parts| <==> Behind(now) == Behind(first))
            && (count == now.clientParts <==> Behind(first) == 0)
    ensures Pair(states[i + 1], events[i].hdl, id)
    ensures states[i + 1].clients[events[i].hdl].lengths[id] == |states[i + 1].snakes[id].parts| == |states[i].snakes[id].parts|
  {
    hide Good, Open, AllInside;
    var e, h := events[i], events[i].hdl;
    AlwaysGood(states, events, i);
    OpenFresh(states[i]);
    OpenLast(states[i], e.hdl, e.skin, e.body, e.angle);
    assert states[i + 1] == Open(states[i], h, e.skin, e.body, e.angle) && Pair(states[i + 1], h, id);
    OpenDrift(states[i], h, e.skin, e.body, e.angle, h, id);
    OpenKeeps(states[i], h, e.skin, e.body, e.angle, id);
    DriftIsForever(states, events, h, id, i + 1, j);
  }

  lemma OpenKeeps(sv: Server, g: nat, skin: int, body: seq<Body>, angle: real, id: nat)
    requires Good(sv) && StartBody(body) && id in sv.snakes
    ensures id in Open(sv, g, skin, body, angle).snakes && Open(sv, g, skin, body, angle).snakes[id] == sv.snakes[id]
  {
    hide PointOfView, Placed, Blank, ApplyAll, AllInside, AllCalm, FoodOk, AllSizesOk, Linked, Synced, Introduced;
    OpenFresh(sv);
  }

  /** What becomes of a later joiner: once the snake has kept its length for as many moves as the server was behind,
      the joiner's count is off by exactly what was unreported when it was introduced. */
  lemma JoinedWrong(states: seq<Server>, events: seq<Event>, i: nat, m: nat, j: nat, id: nat, n: nat)
    requires IsRun(states, events) && i < m <= j < |states| && events[i].Opened? && Alive(states[i], id)
    requires Pair(states[j], events[i].hdl, id) && Alive(states[m], id) && Alive(states[j], id)
    requires forall k :: i < k <= j ==> Pair(states[k], events[i].hdl, id)
    requires KeepsLength(states, id, n, m, j) && |states[j].snakes[id].parts| == n
    requires Steps(states, events, id, m, j) >= RunBodies.Abs(states[m].snakes[id].clientParts - n)
    ensures states[j].clients[events[i].hdl].lengths[id] == n + Behind(states[i].snakes[id])
  {
    hide Good, Proper, Next, Pair, KeepsLength, Stepped, Alive;
    AliveThere(states[j], id);
    JoinDrift(states, events, i, j, id);
    AlwaysCatchesUp(states, events, id, n, m, j);
  }

  lemma AliveThere(sv: Server, id: nat)
    requires Alive(sv, id)
    ensures id in sv.snakes
  {
  }

  /** A client that is there when a snake is created counts its parts as the server does, for as long as both last. */
  lemma BornExact(states: seq<Server>, events: seq<Event>, i: nat, j: nat, h: nat)
    requires IsRun(states, events) && i < j < |states| && events[i].Opened?
    requires forall k :: i < k <= j ==> Pair(states[k], h, states[i + 1].lastId)
    ensures Pair(states[j], h, states[i + 1].lastId) && Drift(states[j], h, states[i + 1].lastId) == 0
  {
    hide Good, Open, AllInside, Drift;
    var e, id := events[i], states[i + 1].lastId;
    AlwaysGood(states, events, i);
    assert Pair(states[i + 1], h, id) && Pair(states[j], h, id);
    assert states[i + 1] == Open(states[i], e.hdl, e.skin, e.body, e.angle);
    OpenDrift(states[i], e.hdl, e.skin, e.body, e.angle, h, id);
    DriftIsForever(states, events, h, id, i + 1, j);
  }
}
