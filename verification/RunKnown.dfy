/** Whole runs: which snakes a client knows. */
module RunKnown {
  import opened Geometry
  import opened Movement
  import opened SnakeModel
  import opened SnakeLaws
  import opened Birth
  import opened DeathFood
  import opened WorldModel
  import opened Packets
  import opened ServerModel
  import opened StepLaws
  import opened MirrorLaws
  import opened LengthMirror
  import opened Runs
  import opened RunLaws

  /** Ids buried in the turns of the list. */
  ghost function BuriedIn(snakes: SnakeMap, list: seq<nat>): set<nat> {
    set id | id in list && id in snakes && snakes[id].flags.dying && !snakes[id].flags.dead
  }

  lemma TurnKnown(b: Broadcast, id: nat, env: Env, h: nat)
    requires FoodOk(b.sv.food) && id in b.sv.snakes && b.sv.snakes[id].id == id && !b.sv.snakes[id].flags.dead && h in b.sv.clients
    ensures var r, s := TakeTurn(b, id, env), b.sv.snakes[id];
            && h in r.sv.clients
            && r.sv.clients[h].lengths.Keys == b.sv.clients[h].lengths.Keys - (if s.flags.dying then {id} else {})
  {
    hide ApplyAll, Remains, Fallen, FoodOk, PublicPackets, ObituaryPackets, Reported, Buried, Shift;
    var s := b.sv.snakes[id];
    if s.flags.dying {
      ObituaryLengths(b.sv.clients[h], s, env);
      ObituaryLengths(Apply(b.sv.clients[h], End), s, env);
    } else {
      PublicLengths(b.sv.clients[h], s);
    }
  }

  lemma {:induction false} TurnsKnown(mid: Server, changes: seq<nat>, env: Env, n: nat, h: nat)
    requires FoodOk(mid.food) && n <= |changes| && Distinct(changes) && h in mid.clients
    requires forall i :: 0 <= i < |changes| ==>
               changes[i] in mid.snakes && mid.snakes[changes[i]].id == changes[i] && !mid.snakes[changes[i]].flags.dead
    ensures var b := Turns(Broadcast(mid, []), changes, env, n);
            && h in b.sv.clients
            && b.sv.clients[h].lengths.Keys == mid.clients[h].lengths.Keys - BuriedIn(mid.snakes, changes[..n])
  {
    hide FoodOk, TakeTurn, TurnedBy;
    if n > 0 {
      TurnsKnown(mid, changes, env, n - 1, h);
      TurnsTable(mid, changes, env, n - 1);
      var b, id := Turns(Broadcast(mid, []), changes, env, n - 1), changes[n - 1];
      NotYet(mid, changes, n - 1, b);
      assert changes[..n] == changes[..n - 1] + [id];
      TurnKnown(b, id, env, h);
    } else {
      assert changes[..0] == [];
    }
  }

  /** A timer step: every client forgets exactly the snakes buried in it. */
  lemma TimerKnown(sv: Server, dt: nat, env: Env, h: nat)
    requires Good(sv) && StepOk(sv, dt, env) && h in sv.clients
    ensures FoodOk(sv.food) && h in Timer(sv, dt, env).clients
    ensures Timer(sv, dt, env).clients[h].lengths.Keys == sv.clients[h].lengths.Keys - Buries(sv, dt, env)
  {
    hide Timer, FoodOk, AllSizesOk, EnvOk, After, Calm, Turns, MidOf, ChangesOf, Linked, AllCalm, Synced, Introduced;
    MidFacts(sv, dt, env);
    MidSessions(sv, dt, env);
    TimerClients(sv, dt, env);
    var mid, changes := MidOf(sv, dt, env), ChangesOf(sv, dt, env);
    assert changes[..|changes|] == changes;
    forall i | 0 <= i < |changes|
      ensures !mid.snakes[changes[i]].flags.dead
    {
      CalmOne(sv, changes[i]);
      AfterCount(sv.snakes[changes[i]], mid.snakes[changes[i]], true);
    }
    TurnsKnown(mid, changes, env, |changes|, h);
    assert BuriedIn(mid.snakes, changes) == Buries(sv, dt, env);
  }

  /** The ids client h knows after an event. */
  ghost function KnownAfter(sv: Server, e: Event, h: nat): set<nat>
    requires FoodOk(sv.food)
  {
    var known := if h in sv.clients then sv.clients[h].lengths.Keys else {};
    match e
    case Timed(dt, env) => known - Buries(sv, dt, env)
    case Opened(g, _, _, _) => (if h == g then sv.snakes.Keys else known) + {sv.lastId + 1}
    case Closed(_) => known
    case Received(_, _) => known
  }

  /** A timer step strikes the buried; a connection adds the new snake for all, and for the new session all in the
      table, dead ones included; nothing else changes what a client knows, in particular not a disconnection. */
  lemma NextKnown(sv: Server, e: Event, h: nat)
    requires Good(sv) && Proper(sv, e) && FoodOk(sv.food) && h in Next(sv, e).clients
    ensures Next(sv, e).clients[h].lengths.Keys == KnownAfter(sv, e, h)
  {
    hide Good, EnvOk, StartBody, Timer, Open, Buries, StepOk, FoodOk;
    match e
    case Timed(dt, env) =>
      TimerGood(sv, dt, env);
      TimerClientKeys(sv, dt, env);
      TimerKnown(sv, dt, env, h);
    case Opened(g, skin, body, angle) =>
      OpenKnown(sv, g, skin, body, angle, h);
    case Closed(_) =>
    case Received(_, _) =>
  }

  lemma TimerClientKeys(sv: Server, dt: nat, env: Env)
    requires StepOk(sv, dt, env)
    ensures Timer(sv, dt, env).clients.Keys == sv.clients.Keys
  {
    hide Timer, StepOk;
    TimerKeys(sv, dt, env);
  }

  lemma OpenKnown(sv: Server, g: nat, skin: int, body: seq<Body>, angle: real, h: nat)
    requires Good(sv) && StartBody(body) && g !in sv.sessions && h in Open(sv, g, skin, body, angle).clients
    ensures Open(sv, g, skin, body, angle).clients[h].lengths.Keys
            == (if h == g then sv.snakes.Keys else if h in sv.clients then sv.clients[h].lengths.Keys else {}) + {sv.lastId + 1}
  {
    hide Good, Open, AllInside;
    var s, c := OpenShape(sv, g, skin, body, angle);
  }

  // ---------------------------------------------------------------- runs

  lemma NextLast(sv: Server, e: Event)
    requires Good(sv) && Proper(sv, e) && FoodOk(sv.food)
    ensures Next(sv, e).lastId == if e.Opened? then sv.lastId + 1 else sv.lastId
  {
    hide Good, EnvOk, StartBody, Timer, FoodOk, PointOfView, Tell, Placed, Blank;
    if e.Timed? {
      TimerGood(sv, e.dt, e.env);
      TimerLast(sv, e.dt, e.env);
    }
  }

  lemma {:induction false} LastGrows(states: seq<Server>, events: seq<Event>, i: nat, j: nat)
    requires IsRun(states, events) && i <= j < |states|
    ensures states[i].lastId <= states[j].lastId
  {
    hide Good, Proper, Next;
    if i < j {
      LastGrows(states, events, i, j - 1);
      AlwaysGood(states, events, j - 1);
      assert states[j] == Next(states[j - 1], events[j - 1]);
      NextLast(states[j - 1], events[j - 1]);
    }
  }

  /** Some timer step between i and j buries the snake. */
  ghost predicate BuriedBetween(states: seq<Server>, events: seq<Event>, id: nat, i: nat, j: nat)
    requires IsRun(states, events) && i < j <= |events|
  {
    exists k :: i < k < j && BuriedAt(states, events, k, id)
  }

  /** Client h of the session opened by event i is connected until j. */
  ghost predicate Connected(states: seq<Server>, h: nat, i: nat, j: nat)
    requires i <= j < |states|
  {
    forall k :: i <= k <= j ==> h in states[k].clients
  }

  /** What a client knows, whole runs: exactly the snakes that were in the table when it joined and those created
      since, except the ones buried since. So beyond the living it knows the dead that were still in the table
      when it joined, and every snake whose session closed while it lived. */
  lemma {:induction false} KnownExactly(states: seq<Server>, events: seq<Event>, i: nat, j: nat, h: nat, id: nat)
    requires IsRun(states, events) && i < j < |states| && events[i].Opened? && events[i].hdl == h
    requires Connected(states, h, i + 1, j)
    ensures h in states[j].clients
    ensures id in states[j].clients[h].lengths
            <==> (id in states[i + 1].snakes || states[i + 1].lastId < id <= states[j].lastId)
                 && !BuriedBetween(states, events, id, i, j)
  {
    hide Good, Proper, Next, BuriedAt, KnownAfter;
    AlwaysGood(states, events, j - 1);
    assert states[j] == Next(states[j - 1], events[j - 1]);
    NextKnown(states[j - 1], events[j - 1], h);
    NextLast(states[j - 1], events[j - 1]);
    if i + 1 < j {
      KnownExactly(states, events, i, j - 1, h, id);
      HandleFresh(states[j - 1], events[j - 1]);
      KnownStep(states, events, i, j, h, id);
    } else {
      JoinKnows(states[i], events[i], h);
    }
  }

  lemma HandleFresh(sv: Server, e: Event)
    requires Good(sv) && Proper(sv, e)
    ensures e.Opened? ==> e.hdl !in sv.clients
  {
    hide AllCalm, FoodOk, AllSizesOk, Synced, Introduced, EnvOk;
  }

  lemma JoinKnows(sv: Server, e: Event, h: nat)
    requires Good(sv) && Proper(sv, e) && FoodOk(sv.food) && e.Opened? && e.hdl == h
    ensures KnownAfter(sv, e, h) == Next(sv, e).snakes.Keys && h in Next(sv, e).clients
  {
    hide Good, StartBody, PointOfView, Tell, Placed, Blank, FoodOk;
  }

  lemma KnownStep(states: seq<Server>, events: seq<Event>, i: nat, j: nat, h: nat, id: nat)
    requires IsRun(states, events) && i + 1 < j < |states| && h in states[j - 1].clients && FoodOk(states[j - 1].food)
    requires events[j - 1].Opened? ==> events[j - 1].hdl != h
    requires states[j].lastId == if events[j - 1].Opened? then states[j - 1].lastId + 1 else states[j - 1].lastId
    requires id in states[j - 1].clients[h].lengths
             <==> (id in states[i + 1].snakes || states[i + 1].lastId < id <= states[j - 1].lastId)
                  && !BuriedBetween(states, events, id, i, j - 1)
    ensures id in KnownAfter(states[j - 1], events[j - 1], h)
            <==> (id in states[i + 1].snakes || states[i + 1].lastId < id <= states[j].lastId)
                 && !BuriedBetween(states, events, id, i, j)
  {
    hide Good, Proper, Next, BuriedAt, Buries;
    LastGrows(states, events, i + 1, j - 1);
    BuriedMore(states, events, id, i, j);
    if id == states[j - 1].lastId + 1 {
      NotBuriedYet(states, events, id, i, j);
    }
    BuriedIs(states, events, j - 1, id);
  }

  lemma BuriedIs(states: seq<Server>, events: seq<Event>, k: nat, id: nat)
    requires IsRun(states, events) && k < |events|
    ensures FoodOk(states[k].food)
    ensures BuriedAt(states, events, k, id) <==> events[k].Timed? && id in Buries(states[k], events[k].dt, events[k].env)
  {
    hide Good, Proper, Next, Buries;
  }

  lemma BuriedMore(states: seq<Server>, events: seq<Event>, id: nat, i: nat, j: nat)
    requires IsRun(states, events) && i + 1 < j <= |events|
    ensures BuriedBetween(states, events, id, i, j)
            <==> BuriedBetween(states, events, id, i, j - 1) || BuriedAt(states, events, j - 1, id)
  {
    hide IsRun, BuriedAt;
  }

  /** An id not given out yet was never buried. */
  lemma NotBuriedYet(states: seq<Server>, events: seq<Event>, id: nat, i: nat, j: nat)
    requires IsRun(states, events) && i + 1 < j <= |events| && id > states[j - 1].lastId
    ensures !BuriedBetween(states, events, id, i, j) && (forall k :: i < k < j ==> id !in states[k].snakes)
  {
    hide Good, Proper, Next, BuriedAt;
    forall k | i < k < j
      ensures !BuriedAt(states, events, k, id) && id !in states[k].snakes
    {
      LastGrows(states, events, k, j - 1);
      AlwaysGood(states, events, k);
      GivenOut(states[k], id);
      StepBuries(states, events, k, id);
      BuriedIs(states, events, k, id);
      FinishedIsNotAlive(states[k], id);
    }
  }
}
