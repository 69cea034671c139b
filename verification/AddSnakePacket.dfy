/** The delta-coded body of the add-snake packet: the tail as two 24-bit fixed-point coordinates, then, from
    the tail towards the head, one byte per axis and part, the head itself excluded. */
module AddSnakePacket {
  import opened Geometry
  import opened Movement
  import opened Grid
  import opened BodyLaws
  import opened ServerModel
  import opened Runs
  import opened RunLaws
  import opened RunBodies

  /** A half-unit offset in one byte; out of range it wraps. */
  function DeltaByte(d: real): (b: nat)
    ensures b < 256
  {
    Trunc(d * 2.0 + 127.0) % 256
  }

  /** Three bytes, most significant first. */
  function Wide(v: int): (bytes: seq<nat>)
    ensures |bytes| == 3
  {
    [v / 65536 % 256, v / 256 % 256, v % 256]
  }

  /** The k-th part after the tail. */
  function FromTail(parts: seq<Body>, k: nat): Body
    requires k < |parts|
  {
    parts[|parts| - 1 - k]
  }

  /** Deltas of the first k parts after the tail. */
  function Deltas(parts: seq<Body>, k: nat): (bytes: seq<nat>)
    requires k < |parts|
    ensures |bytes| == 2 * k
  {
    if k == 0 then []
    else
      var d := FromTail(parts, k).Minus(FromTail(parts, k - 1));
      Deltas(parts, k - 1) + [DeltaByte(d.x), DeltaByte(d.y)]
  }

  function BodyBytes(parts: seq<Body>): (bytes: seq<nat>)
    requires |parts| >= 2
    ensures |bytes| == 2 * 3 + 2 * (|parts| - 2)
  {
    var tail := FromTail(parts, 0);
    Wide(Trunc(tail.x * 5.0)) + Wide(Trunc(tail.y * 5.0)) + Deltas(parts, |parts| - 2)
  }

  /** The body block of `operator<<` for the packet. A body of a single part would run past its end. */
  method WriteBody(parts: seq<Body>) returns (out: seq<nat>)
    requires |parts| != 1
    ensures out == if parts == [] then [] else BodyBytes(parts)
  {
    out := [];
    if parts != [] {
      var at := |parts| - 1;
      var hx, hy := parts[at].x, parts[at].y;
      out := Wide(Trunc(hx * 5.0)) + Wide(Trunc(hy * 5.0));
      ghost var tail := out;
      at := at - 1;
      while at != 0
        invariant 0 <= at < |parts| - 1
        invariant (hx, hy) == (parts[at + 1].x, parts[at + 1].y)
        invariant out == tail + Deltas(parts, |parts| - 2 - at)
        decreases at
      {
        var bpx, bpy := parts[at].x - hx, parts[at].y - hy;
        out := out + [DeltaByte(bpx), DeltaByte(bpy)];
        hx, hy := hx + bpx, hy + bpy;
        at := at - 1;
      }
    }
  }

  // ---------------------------------------------------------------- decoding

  /** What a client reads of the k-th part after the tail. */
  function Decoded(bytes: seq<nat>, k: nat): Body
    requires |bytes| >= 6 + 2 * k
  {
    if k == 0 then
      Body((bytes[0] * 65536 + bytes[1] * 256 + bytes[2]) as real / 5.0,
           (bytes[3] * 65536 + bytes[4] * 256 + bytes[5]) as real / 5.0)
    else
      Decoded(bytes, k - 1).Plus(Body((bytes[4 + 2 * k] as real - 127.0) / 2.0, (bytes[5 + 2 * k] as real - 127.0) / 2.0))
  }

  /** A byte decodes to the offset or less than half a unit below it, if and only if the offset is in range. */
  lemma ByteFaithful(d: real)
    ensures 0.0 <= d - (DeltaByte(d) as real - 127.0) / 2.0 < 0.5 <==> -63.5 <= d < 64.5
  {
    var v := d * 2.0 + 127.0;
    if 0.0 <= v < 256.0 {
      assert 0 <= v.Floor < 256;
      assert DeltaByte(d) == v.Floor;
    }
  }

  /** Around the ends of the range: 64.5 and -64 wrap, and -63.75 shares the byte of -63.5. */
  lemma ByteWraps()
    ensures DeltaByte(64.5) == 0 && DeltaByte(-64.0) == 255 && DeltaByte(-63.75) == DeltaByte(-63.5) == 0
  {
  }

  lemma WideReads(v: int)
    requires 0 <= v < 0x100_0000
    ensures var b := Wide(v); b[0] * 65536 + b[1] * 256 + b[2] == v
  {
  }

  lemma TailFaithful(x: real)
    requires 0.0 <= x < 3355443.2
    ensures 0 <= Trunc(x * 5.0) < 0x100_0000
    ensures 0.0 <= x - Trunc(x * 5.0) as real / 5.0 < 0.2
  {
  }

  /** Every offset along the body is in the range of a byte. */
  ghost predicate Codable(parts: seq<Body>) {
    && |parts| >= 2
    && (var tail := parts[|parts| - 1]; 0.0 <= tail.x < 3355443.2 && 0.0 <= tail.y < 3355443.2)
    && forall i :: 0 < i < |parts| ==>
         -63.5 <= parts[i - 1].x - parts[i].x < 64.5 && -63.5 <= parts[i - 1].y - parts[i].y < 64.5
  }

  predicate Below(a: real, b: real, k: nat) {
    a <= b < a + 0.2 + 0.5 * k as real
  }

  lemma {:induction false} DeltasAt(parts: seq<Body>, n: nat, k: nat)
    requires 0 < k <= n < |parts|
    ensures var d := FromTail(parts, k).Minus(FromTail(parts, k - 1));
            Deltas(parts, n)[2 * k - 2] == DeltaByte(d.x) && Deltas(parts, n)[2 * k - 1] == DeltaByte(d.y)
  {
    if k < n {
      DeltasAt(parts, n - 1, k);
    }
  }

  /** Bounded drift: the k-th part after the tail is decoded at or below its true coordinates, by less than
      0.2 + 0.5 k on each axis. */
  lemma {:induction false} BoundedDrift(parts: seq<Body>, k: nat)
    requires Codable(parts) && k <= |parts| - 2
    ensures var r, p := Decoded(BodyBytes(parts), k), FromTail(parts, k); Below(r.x, p.x, k) && Below(r.y, p.y, k)
  {
    hide DeltaByte, Trunc, Wide;
    var bytes, tail := BodyBytes(parts), FromTail(parts, 0);
    if k == 0 {
      TailFaithful(tail.x);
      TailFaithful(tail.y);
      WideReads(Trunc(tail.x * 5.0));
      WideReads(Trunc(tail.y * 5.0));
    } else {
      BoundedDrift(parts, k - 1);
      DeltasAt(parts, |parts| - 2, k);
      var p, q := FromTail(parts, k), FromTail(parts, k - 1);
      ByteFaithful(p.x - q.x);
      ByteFaithful(p.y - q.y);
      assert bytes[4 + 2 * k] == DeltaByte(p.x - q.x) && bytes[5 + 2 * k] == DeltaByte(p.y - q.y);
    }
  }

  // ---------------------------------------------------------------- size

  /** Fixed fields of the packet and the name with its length byte. */
  function HeaderSize(name: nat): nat {
    3 + 2 + 3 + 1 + 3 + 2 + 3 + 1 + 3 + 3 + (1 + name)
  }

  /** `packet_add_snake::get_size`. */
  function GetSize(name: nat, parts: nat): int {
    25 + name + 2 * 3 + (parts - 1) * 2
  }

  /** The announced size is never exceeded: it is always two bytes more than what is written. */
  lemma SizeAnnounced(name: nat, parts: seq<Body>)
    requires |parts| >= 2
    ensures HeaderSize(name) + |BodyBytes(parts)| == GetSize(name, |parts|) - 2
  {
  }

  // ---------------------------------------------------------------- in runs

  lemma GapsCodable(parts: seq<Body>, g: real)
    requires |parts| >= 2 && TailInside(parts) && GapsWithin(parts, g) && g <= 63.5
    ensures Codable(parts)
  {
    hide Short, Dot;
    ShortAxis(parts[|parts| - 1].Minus(CENTRE), DEATH);
    forall i | 0 < i < |parts|
      ensures -63.5 <= parts[i - 1].x - parts[i].x <= 63.5 && -63.5 <= parts[i - 1].y - parts[i].y <= 63.5
    {
      ShortAxis(parts[i - 1].Minus(parts[i]), g);
    }
  }

  /** In prompt runs whose starting gaps are at most 63.5, the packet of every snake of the table, dead players
      included, decodes with bounded drift: no byte ever wraps. */
  lemma PromptRunCodable(states: seq<Server>, events: seq<Event>, g: real, i: nat, id: nat, k: nat)
    requires IsRun(states, events) && i < |states| && Punctual(states[0]) && 42.0 <= g <= 63.5
    requires forall k :: 0 <= k < |events| ==> Prompt(events[k])
    requires forall k :: 0 <= k < |events| && events[k].Opened? ==> GapsWithin(events[k].body, g)
    requires AllShaped(states[0], g, false)
    requires id in states[i].snakes && k <= |states[i].snakes[id].parts| - 2
    ensures |states[i].snakes[id].parts| >= 3
    ensures var parts := states[i].snakes[id].parts;
            var r, p := Decoded(BodyBytes(parts), k), FromTail(parts, k);
            Below(r.x, p.x, k) && Below(r.y, p.y, k)
  {
    hide IsRun, Good, Proper, Next, Punctual, Short, BoxLength, Codable, BodyBytes, Decoded, Below, AllInside, TailInside, OnMap;
    forall k | 0 <= k < |events| && events[k].Opened?
      ensures Shape(events[k].body, g, false)
    {
    }
    PromptRunShaped(states, events, g, false, i);
    AlwaysInBounds(states, events, i, id);
    GapsCodable(states[i].snakes[id].parts, g);
    BoundedDrift(states[i].snakes[id].parts, k);
  }
}
