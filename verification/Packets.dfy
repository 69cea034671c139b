/** What the server sends, and the part of a client's state those packets determine. */
module Packets {
  import opened Config
  import opened Grid
  import opened FoodList

  /** Packets without an effect on the mirrored state keep only the snake they are about. */
  datatype Packet =
    | Init
    | End
    | AddSnake(id: nat, length: int, status: Status)
    | RemoveSnake(id: nat, died: bool)
    | Move(id: nat, head: Pos)
    | Inc(id: nat, head: Pos, full: int)
    | RemovePart(id: nat, full: int)
    | Rotation(id: nat, angle: Opt<real>, speed: Opt<nat>)
    | Fullness(id: nat, full: int)
    | Pong
    | AddSector(k: nat)
    | SetFood(foods: seq<Food>)
    | RemoveSector(k: nat)
    | Eaten(eater: nat, f: Food)
    | Spawned(f: Food)

  /** A food item's identity on the wire is its position. */
  type Pos = (int, int)

  function PosOf(f: Food): Pos { (f.x, f.y) }

  /** The sector a position lies in; off-map positions lie in none. */
  function Home(p: Pos): int {
    var i, j := p.0 / SECTOR_SIZE, p.1 / SECTOR_SIZE;
    if InMap(i, j) then Index(i, j) else -1
  }

  datatype Opt<T> = Some(value: T) | None

  function Else<T>(o: Opt<T>, other: T): T {
    if o.Some? then o.value else other
  }

  /** What packets say of a snake besides its length: head in whole pixels, angle, speed, and fullness. */
  datatype Status = Status(head: Pos, angle: real, speed: nat, full: int)

  /** Sectors in view, food positions known, for each introduced snake its number of parts and its status, and
      whether the player was told that it died. */
  datatype Client = Client(view: set<nat>, food: set<Pos>, lengths: map<nat, int>, shows: map<nat, Status>, over: bool)

  const FRESH := Client({}, {}, map[], map[], false)

  function Positions(foods: seq<Food>): set<Pos> {
    set f | f in foods :: PosOf(f)
  }

  function Grow(c: Client, id: nat, n: int): Client {
    if id in c.lengths then c.(lengths := c.lengths[id := c.lengths[id] + n]) else c
  }

  /** A client with a new status of a snake it was introduced to. */
  function Amend(c: Client, id: nat, f: Status -> Status): Client {
    if id in c.shows then c.(shows := c.shows[id := f(c.shows[id])]) else c
  }

  /** One packet received. */
  function Apply(c: Client, p: Packet): Client {
    match p
    case AddSector(k) => c.(view := c.view + {k})
    case RemoveSector(k) => c.(view := c.view - {k}, food := set p | p in c.food && Home(p) != k)
    case SetFood(foods) => c.(food := c.food + Positions(foods))
    case Eaten(_, f) => c.(food := c.food - {PosOf(f)})
    case Spawned(f) => c.(food := c.food + {PosOf(f)})
    case AddSnake(id, n, st) => c.(lengths := c.lengths[id := n], shows := c.shows[id := st])
    case RemoveSnake(id, _) => c.(lengths := c.lengths - {id}, shows := c.shows - {id})
    case Move(id, head) => Amend(c, id, (st: Status) => st.(head := head))
    case Inc(id, head, full) => Amend(Grow(c, id, 1), id, (st: Status) => st.(head := head, full := full))
    case RemovePart(id, full) => Amend(Grow(c, id, -1), id, (st: Status) => if full > 0 then st.(full := full) else st)
    case Rotation(id, angle, speed) =>
      Amend(c, id, (st: Status) => st.(angle := Else(angle, st.angle), speed := Else(speed, st.speed)))
    case Fullness(id, full) => Amend(c, id, (st: Status) => st.(full := full))
    case End => c.(over := true)
    case _ => c
  }

  /** A packet sequence received in order. */
  function ApplyAll(c: Client, ps: seq<Packet>): Client {
    if ps == [] then c else Apply(ApplyAll(c, ps[..|ps| - 1]), ps[|ps| - 1])
  }

  /** The client a whole session log leads to. */
  function Replay(log: seq<Packet>): Client {
    ApplyAll(FRESH, log)
  }

  lemma ApplySnoc(c: Client, ps: seq<Packet>, p: Packet)
    ensures ApplyAll(c, ps + [p]) == Apply(ApplyAll(c, ps), p)
  {
    assert (ps + [p])[..|ps|] == ps;
  }

  lemma {:induction false} ApplyConcat(c: Client, a: seq<Packet>, b: seq<Packet>)
    ensures ApplyAll(c, a + b) == ApplyAll(ApplyAll(c, a), b)
  {
    hide Apply;
    if b == [] {
      assert a + b == a;
    } else {
      ApplyConcat(c, a, b[..|b| - 1]);
      assert (a + b)[..|a + b| - 1] == a + b[..|b| - 1];
    }
  }

  /** The eat packets, then the spawn packets, of `GameServer::SendFoodUpdate`. */
  function FoodPackets(id: nat, eaten: seq<Food>, spawn: seq<Food>): (ps: seq<Packet>)
    ensures |ps| == |eaten| + |spawn|
  {
    seq(|eaten|, i requires 0 <= i < |eaten| => Eaten(id, eaten[i]))
    + seq(|spawn|, i requires 0 <= i < |spawn| => Spawned(spawn[i]))
  }
}
