/** The server as a value: the world, the sessions, and for each session the client its packets lead to. */
module ServerModel {
  import opened Geometry
  import opened Config
  import opened Grid
  import opened SnakeModel
  import opened DeathFood
  import opened WorldModel
  import opened Packets

  /** Session handles are numbers; `clients` holds `Replay` of each session's log. */
  datatype Server = Server(
    snakes: SnakeMap, food: FoodMap, lastId: nat, ticks: nat,
    sessions: map<nat, nat>, connections: map<nat, nat>, clients: map<nat, Client>)

  // ---------------------------------------------------------------- one snake's turn

  /** The head in whole pixels, as packets carry it. */
  function HeadPos(s: SnakeState): Pos {
    (Trunc(Head(s).x), Trunc(Head(s).y))
  }

  function StatusOf(s: SnakeState): Status {
    Status(HeadPos(s), s.angle, s.speed, s.fullness)
  }

  function RotationPackets(s: SnakeState): seq<Packet> {
    if s.flags.angle || s.flags.speed then
      [Rotation(s.id, if s.flags.angle then Some(s.angle) else None, if s.flags.speed then Some(s.speed) else None)]
    else []
  }

  /** A body one part longer or shorter than last reported moves one part towards its length. */
  function LengthPackets(s: SnakeState): (ps: seq<Packet>)
    ensures |ps| <= 1
  {
    if s.flags.pos && s.clientParts < |s.parts| then [Inc(s.id, HeadPos(s), s.fullness)]
    else if s.flags.pos && s.clientParts > |s.parts| then [RemovePart(s.id, s.fullness)] else []
  }

  /** The increase packet moves the snake too; otherwise a move packet does. */
  function MovePackets(s: SnakeState): seq<Packet> {
    if s.flags.pos && s.clientParts >= |s.parts| then [Packet.Move(s.id, HeadPos(s))] else []
  }

  function MealPackets(s: SnakeState): seq<Packet> {
    if s.flags.pos then FoodPackets(s.id, s.eaten, s.spawn) else []
  }

  /** The packets every session gets when a live changed snake has its turn. */
  function PublicPackets(s: SnakeState): seq<Packet> {
    RotationPackets(s) + (LengthPackets(s) + MovePackets(s)) + MealPackets(s)
  }

  /** What a turn leaves of a live snake: reported bits and lists are cleared. */
  function Reported(s: SnakeState): SnakeState {
    var f := s.flags;
    var f1 := f.(angle := false, speed := false, wangle := f.wangle && !f.angle);
    if !f.pos then s.(flags := f1)
    else
      s.(flags := f1.(pos := false, fullness := f.fullness && s.bot),
         clientParts := if s.clientParts < |s.parts| then s.clientParts + 1
                        else if s.clientParts > |s.parts| then s.clientParts - 1 else s.clientParts,
         eaten := [], spawn := [],
         newS := if s.bot then s.newS else {}, oldS := if s.bot then s.oldS else {})
  }

  /** What a turn leaves of a dying snake. */
  function Buried(s: SnakeState): SnakeState {
    s.(flags := s.flags.(dead := true), eaten := [], spawn := [])
  }

  /** `GameServer::SendPOVUpdateTo`: gained sectors with their food as it is now, then lost sectors. */
  function PointOfView(c: Client, s: SnakeState, food: FoodMap): Client {
    c.(view := c.view + s.newS - s.oldS,
       food := set p | p in c.food + Shown(food, s.newS) && Home(p) !in s.oldS)
  }

  /** What only its own session gets of a moved player: its point of view, and its fullness if that changed. */
  function OwnUpdate(c: Client, s: SnakeState, food: FoodMap): Client {
    var d := PointOfView(c, s, food);
    if s.flags.fullness then Apply(d, Fullness(s.id, s.fullness)) else d
  }

  /** The clients after the session of the snake, if it has one and moved, got what only it gets. */
  function Seen(told: map<nat, Client>, connections: map<nat, nat>, s: SnakeState, food: FoodMap): map<nat, Client> {
    if s.flags.pos && !s.bot && s.id in connections && connections[s.id] in told
    then told[connections[s.id] := OwnUpdate(told[connections[s.id]], s, food)] else told
  }

  /** The clients after the session of the snake, if it has one, was told that it died. */
  function Ended(clients: map<nat, Client>, connections: map<nat, nat>, s: SnakeState): map<nat, Client> {
    if !s.bot && s.id in connections && connections[s.id] in clients
    then clients[connections[s.id] := Apply(clients[connections[s.id]], End)] else clients
  }

  /** Positions of all food of some sectors. */
  function Shown(food: FoodMap, S: set<nat>): set<Pos> {
    set k, f | k in S && k < |food| && f in food[k] :: PosOf(f)
  }

  datatype Broadcast = Broadcast(sv: Server, dead: seq<nat>)

  function Tell(clients: map<nat, Client>, ps: seq<Packet>): map<nat, Client> {
    map h | h in clients :: ApplyAll(clients[h], ps)
  }

  /** The pieces of food a dying snake leaves. */
  function Remains(s: SnakeState, env: Env): (d: seq<Drop>)
    ensures forall i :: 0 <= i < |d| ==> d[i].sector < SECTORS
  {
    Drops(s.parts, (n: nat) => env.random(s.id, n), |s.parts|)
  }

  /** The packets every session gets when a dying snake has its turn. */
  function ObituaryPackets(s: SnakeState, env: Env): seq<Packet> {
    FoodPackets(s.id, s.eaten, s.spawn + FoodsOf(Remains(s, env))) + [RemoveSnake(s.id, true), RemoveSnake(s.id, false)]
  }

  /** One round of `GameServer::BroadcastUpdates`. */
  function TakeTurn(b: Broadcast, id: nat, env: Env): (r: Broadcast)
    requires FoodOk(b.sv.food)
    ensures FoodOk(r.sv.food)
  {
    var sv := b.sv;
    if id !in sv.snakes || sv.snakes[id].flags.dead then b
    else
      var s := sv.snakes[id];
      if s.flags.dying then
        Broadcast(sv.(snakes := sv.snakes[id := Buried(s)], food := Fallen(sv.food, Remains(s, env)),
                      clients := Tell(Ended(sv.clients, sv.connections, s), ObituaryPackets(s, env))),
                  if s.bot then b.dead + [id] else b.dead)
      else
        b.(sv := sv.(snakes := sv.snakes[id := Reported(s)],
                     clients := Seen(Tell(sv.clients, PublicPackets(s)), sv.connections, s, sv.food)))
  }

  /** The first n rounds. */
  function Turns(b: Broadcast, changes: seq<nat>, env: Env, n: nat): (r: Broadcast)
    requires FoodOk(b.sv.food) && n <= |changes|
    ensures FoodOk(r.sv.food)
  {
    if n == 0 then b else TakeTurn(Turns(b, changes, env, n - 1), changes[n - 1], env)
  }

  // ---------------------------------------------------------------- events

  function WorldOf(sv: Server): WorldState {
    WorldState(sv.snakes, sv.food, [], sv.ticks)
  }

  /** `GameServer::on_timer`: tick, broadcast, then remove the bots that died. */
  ghost function Timer(sv: Server, dt: nat, env: Env): (r: Server)
    requires FoodOk(sv.food)
    ensures FoodOk(r.food)
  {
    var w := TickWorld(WorldOf(sv), dt, env);
    var b := Turns(Broadcast(sv.(snakes := w.snakes, food := w.food, ticks := w.ticks), []),
                   w.changes, env, |w.changes|);
    Bury(b.sv, b.dead)
  }

  /** `GameServer::RemoveDeadSnakes`. */
  function Bury(sv: Server, dead: seq<nat>): (r: Server)
    ensures r == sv.(snakes := r.snakes, connections := r.connections)
  {
    if dead == [] then sv
    else
      var r := Bury(sv, dead[..|dead| - 1]);
      var id := dead[|dead| - 1];
      r.(snakes := r.snakes - {id}, connections := r.connections - {id})
  }

  /** The packets that introduce a snake. */
  function Introduction(s: SnakeState): seq<Packet> {
    [AddSnake(s.id, |s.parts|, StatusOf(s)), Packet.Move(s.id, HeadPos(s))]
  }

  /** A client introduced to a snake. */
  function Met(c: Client, s: SnakeState): Client {
    c.(lengths := c.lengths[s.id := |s.parts|], shows := c.shows[s.id := StatusOf(s)])
  }

  /** Lengths and statuses of some snakes of a table. */
  function Lengths(table: SnakeMap, ids: set<nat>): map<nat, int> {
    map j | j in table && j in ids :: |table[j].parts|
  }

  function Statuses(table: SnakeMap, ids: set<nat>): map<nat, Status> {
    map j | j in table && j in ids :: StatusOf(table[j])
  }

  /** A client introduced to these snakes. */
  function MetAll(c: Client, table: SnakeMap, ids: set<nat>): Client {
    c.(lengths := c.lengths + Lengths(table, ids), shows := c.shows + Statuses(table, ids))
  }

  /** `GameServer::on_open`: a fresh snake is announced to all, shown its surroundings, and told of the others. */
  function Open(sv: Server, hdl: nat, skin: int, body: seq<Body>, angle: real): Server
    requires body != []
  {
    var id := sv.lastId + 1;
    var s := Placed(Blank(id, skin, body, angle));
    var shown := PointOfView(Met(FRESH, s), s, sv.food);
    sv.(snakes := sv.snakes[id := s.(newS := {}, oldS := {})], lastId := id,
        sessions := sv.sessions[hdl := id], connections := sv.connections[id := hdl],
        clients := Tell(sv.clients, Introduction(s))[hdl := MetAll(shown, sv.snakes, sv.snakes.Keys - {id})])
  }

  /** `GameServer::on_close`. */
  function Close(sv: Server, hdl: nat): Server {
    if hdl !in sv.sessions then sv
    else
      var id := sv.sessions[hdl];
      sv.(snakes := sv.snakes - {id}, sessions := sv.sessions - {hdl},
          connections := sv.connections - {id}, clients := sv.clients - {hdl})
  }

  /** Messages that reach the snake, and the one that is answered; all others change nothing here. */
  datatype Message = Angle(b: nat) | Accelerate(on: bool) | Skin(skin: int) | Ping | Other

  predicate White(b: nat) {
    b == 32 || 9 <= b <= 13
  }

  /** Where a character read from position i on ends, white space skipped; behind the end if there is none. */
  function AfterChar(payload: seq<nat>, i: nat): (j: nat)
    requires i <= |payload| + 1
    ensures i < j <= |payload| + 1 || j == |payload| + 1
    ensures j <= |payload| ==> !White(payload[j - 1])
    decreases |payload| - i
  {
    if i >= |payload| then |payload| + 1 else if White(payload[i]) then AfterChar(payload, i + 1) else i + 1
  }

  /** The branches of `GameServer::on_message` on the payload. A name packet without a skin character repeats
      the skin `stored` in the session. */
  function Parse(binary: bool, payload: seq<nat>, stored: int): (m: Message)
    ensures m.Angle? <==> binary && |payload| == 1 && payload[0] <= 250
    ensures m.Angle? ==> m.b <= 250 && payload == [m.b]
    ensures m == Accelerate(true) <==> binary && 0 < |payload| <= 255 && payload[0] == 253
    ensures m == Accelerate(false) <==> binary && 0 < |payload| <= 255 && payload[0] == 254
    ensures m.Skin? <==> binary && 2 <= |payload| <= 255 && payload[0] == 115
    ensures m == Ping <==> binary && 0 < |payload| <= 255 && payload[0] == 251
  {
    var kind := if payload == [] then 0 else payload[0];
    if !binary || |payload| > 255 then Other
    else if kind <= 250 && |payload| == 1 then Angle(kind)
    else if kind == 115 then
      var at := AfterChar(payload, AfterChar(payload, 1));
      Skin(if at <= |payload| then payload[at - 1] else stored)
    else if kind == 251 then Ping
    else if kind == 253 then Accelerate(true)
    else if kind == 254 then Accelerate(false)
    else Other
  }

  function Obey(s: SnakeState, m: Message): SnakeState {
    match m
    case Angle(b) => s.(wangle := PI * b as real / 125.0, flags := s.flags.(wangle := true))
    case Accelerate(on) => s.(accel := on)
    case Skin(k) => s.(skin := k)
    case Ping => s
    case Other => s
  }

  /** `GameServer::on_message`. */
  function Receive(sv: Server, hdl: nat, m: Message): Server {
    if hdl !in sv.sessions || sv.sessions[hdl] !in sv.snakes then sv
    else sv.(snakes := sv.snakes[sv.sessions[hdl] := Obey(sv.snakes[sv.sessions[hdl]], m)])
  }

  lemma {:induction false} SkipsWhite(payload: seq<nat>, i: nat, n: nat)
    requires i <= n < |payload| && (forall j :: i <= j < n ==> White(payload[j])) && !White(payload[n])
    ensures AfterChar(payload, i) == n + 1
    decreases n - i
  {
    if i < n {
      SkipsWhite(payload, i + 1, n);
    }
  }

  /** A name packet: the second character after its type that is not white space is the skin, whatever white space
      stands before it and between; without one the skin stays. */
  lemma ParsesSkin(payload: seq<nat>, stored: int, v: nat, k: nat)
    requires 2 <= |payload| <= 255 && payload[0] == 115 && 0 < v < k < |payload| && !White(payload[v]) && !White(payload[k])
    requires forall j :: 0 < j < k && j != v ==> White(payload[j])
    ensures Parse(true, payload, stored) == Skin(payload[k])
  {
    SkipsWhite(payload, 1, v);
    SkipsWhite(payload, v + 1, k);
  }
}
