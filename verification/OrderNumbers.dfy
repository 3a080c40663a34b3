/**
 Ids from a clock, a node number and a sequence, and order numbers that also carry the gene of
 their user. Clock readings are inputs: a call gets the readings it will see, and is still waiting
 when they run out before the millisecond changes.
 */
module OrderNumbers {
  import opened Runs

  const GENES := 1024                    // 10 bits
  const ORDER_SEQUENCES := 512           // 9 bits
  const ORDER_NODES := 16                // 4 bits
  const ORDER_TIMES := 0x100_0000_0000   // 40 bits
  const SEQUENCES := 4096                // 12 bits
  const NODES := 1024                    // 10 bits
  const EPOCH_MS := 1_704_067_200_000

  /** -userID of the smallest 64-bit integer is itself, and its low bits are 0 either way. */
  function UserGene(userId: int): (g: int)
    ensures 0 <= g < GENES
  {
    (if userId < 0 then 0 - userId else userId) % GENES
  }

  /** The low ten bits; the Euclidean remainder is what the mask gives for negative numbers too. */
  function ExtractUserGene(orderNumber: int): (g: int)
    ensures 0 <= g < GENES
  {
    orderNumber % GENES
  }

  /** Users share a gene exactly if their numbers agree modulo 1024, and every gene has its users. */
  lemma GenesSpread(a: nat, b: nat)
    ensures UserGene(a) == UserGene(b) <==> a % 1024 == b % 1024
    ensures UserGene(0 - a) == UserGene(a)
    ensures a < 1024 ==> UserGene(a) == a
  {
  }

  // ----- The packed number -----

  datatype Parts = Parts(timestamp: int, node: int, sequence: int, gene: int)

  predicate InRange(p: Parts) {
    && 0 <= p.timestamp < ORDER_TIMES
    && 0 <= p.node < ORDER_NODES
    && 0 <= p.sequence < ORDER_SEQUENCES
    && 0 <= p.gene < GENES
  }

  function Pack(p: Parts): int {
    ((p.timestamp * ORDER_NODES + p.node) * ORDER_SEQUENCES + p.sequence) * GENES + p.gene
  }

  function Unpack(n: int): Parts {
    Parts(n / (GENES * ORDER_SEQUENCES * ORDER_NODES), n / (GENES * ORDER_SEQUENCES) % ORDER_NODES,
          n / GENES % ORDER_SEQUENCES, n % GENES)
  }

  // ----- Shifts and ors -----

  function Shl(x: nat, k: nat): nat {
    if k == 0 then x else 2 * Shl(x, k - 1)
  }

  function Or(a: nat, b: nat): nat
    decreases a
  {
    if a == 0 then b
    else if b == 0 then a
    else (if a % 2 == 1 || b % 2 == 1 then 1 else 0) + 2 * Or(a / 2, b / 2)
  }

  /** Or of numbers without a common bit is their sum. */
  lemma {:induction false} OrIsSum(a: nat, k: nat, b: nat)
    requires b < Shl(1, k)
    ensures Or(Shl(a, k), b) == Shl(a, k) + b
  {
    if k > 0 && Shl(a, k) > 0 && b > 0 {
      OrIsSum(a, k - 1, b / 2);
    }
  }

  lemma ShiftsByConstants(x: nat)
    ensures Shl(x, 10) == 1024 * x && Shl(x, 19) == 524288 * x && Shl(x, 23) == 8388608 * x
  {
    assert Shl(x, 1) == 2 * x;
    assert Shl(x, 2) == 4 * x;
    assert Shl(x, 4) == 16 * x;
    assert Shl(x, 6) == 64 * x;
    assert Shl(x, 8) == 256 * x;
    assert Shl(x, 10) == 1024 * x;
    assert Shl(x, 12) == 4096 * x;
    assert Shl(x, 14) == 16384 * x;
    assert Shl(x, 16) == 65536 * x;
    assert Shl(x, 18) == 262144 * x;
    assert Shl(x, 20) == 1048576 * x;
    assert Shl(x, 22) == 4194304 * x;
  }

  /** The expression of the program: timestamp, node and sequence shifted into place, and the gene. */
  function ShiftedTogether(p: Parts): int
    requires InRange(p)
  {
    Or(Or(Or(Shl(p.timestamp, 23), Shl(p.node, 19)), Shl(p.sequence, 10)), p.gene)
  }

  lemma ShiftsAreSums(p: Parts)
    requires InRange(p)
    ensures ShiftedTogether(p) == Pack(p)
  {
    var a := p.timestamp * ORDER_NODES + p.node;
    var b := a * ORDER_SEQUENCES + p.sequence;
    ShiftsByConstants(1);
    ShiftsByConstants(p.timestamp);
    ShiftsByConstants(p.node);
    ShiftsByConstants(p.sequence);
    ShiftsByConstants(a);
    ShiftsByConstants(b);
    OrIsSum(p.timestamp, 23, Shl(p.node, 19));
    assert Or(Shl(p.timestamp, 23), Shl(p.node, 19)) == Shl(a, 19);
    OrIsSum(a, 19, Shl(p.sequence, 10));
    assert Or(Shl(a, 19), Shl(p.sequence, 10)) == Shl(b, 10);
    OrIsSum(b, 10, p.gene);
  }

  lemma Digit(high: int, low: int, base: int)
    requires 0 <= low < base
    ensures (high * base + low) / base == high && (high * base + low) % base == low
  {
    var n := high * base + low;
    var x := n / base - high;
    assert x * base == low - n % base;
    assert x >= 1 ==> x * base >= base;
    assert x <= -1 ==> x * base <= 0 - base;
  }

  /** Unpacking undoes packing, and a packed number is a non-negative 64-bit integer. */
  lemma UnpackPack(p: Parts)
    requires InRange(p)
    ensures Unpack(Pack(p)) == p
    ensures 0 <= Pack(p) < 0x8000_0000_0000_0000
  {
    var a := p.timestamp * ORDER_NODES + p.node;
    var b := a * ORDER_SEQUENCES + p.sequence;
    Digit(b, p.gene, GENES);
    Digit(a, p.sequence, ORDER_SEQUENCES);
    Digit(p.timestamp, p.node, ORDER_NODES);
  }

  // ----- One call -----

  datatype Ticker = Ticker(lastMs: int, sequence: int)

  datatype Reply = Number(n: int) | ClockBack | OutOfRange | BadNode | Waiting

  /** The first reading past `last`. */
  function FirstAfter(readings: seq<int>, last: int): Option<int> {
    if readings == [] then None
    else if readings[0] > last then Some(readings[0])
    else FirstAfter(readings[1..], last)
  }

  /** The ticker after one call, if the call gets its millisecond. */
  function Ticked(t: Ticker, sequences: int, now: int, later: seq<int>): Option<Ticker>
  {
    if now > t.lastMs then Some(Ticker(now, 0))
    else if t.sequence + 1 < sequences then Some(Ticker(now, t.sequence + 1))
    else
      match FirstAfter(later, now)
      case None => None
      case Some(next) => Some(Ticker(next, 0))
  }

  function OrderReply(node: int, t: Ticker, userId: int): Reply {
    var timestamp := t.lastMs - EPOCH_MS;
    if timestamp < 0 || timestamp >= ORDER_TIMES then OutOfRange
    else Number(Pack(Parts(timestamp, node, t.sequence, UserGene(userId))))
  }

  datatype Call = Call(userId: int, now: int, later: seq<int>)

  /** One NextOrderNumber; None when it never returns. */
  function Next(node: int, t: Ticker, c: Call): Option<(Ticker, Reply)> {
    if node >= ORDER_NODES then Some((t, BadNode))
    else if c.now < t.lastMs then Some((t, ClockBack))
    else
      match Ticked(t, ORDER_SEQUENCES, c.now, c.later)
      case None => None
      case Some(t') => Some((t', OrderReply(node, t', c.userId)))
  }

  /** The replies of one generator, up to a call that never returns. */
  function Replies(node: int, t: Ticker, calls: seq<Call>): (r: seq<Reply>)
    ensures |r| <= |calls|
    decreases calls
  {
    if calls == [] then []
    else
      match Next(node, t, calls[0])
      case None => []
      case Some((t', r)) => [r] + Replies(node, t', calls[1..])
  }

  /** The ticker after call `i`. */
  function After(node: int, t: Ticker, calls: seq<Call>, i: nat): Ticker
    requires i < |Replies(node, t, calls)|
    decreases i
  {
    var t' := Next(node, t, calls[0]).value.0;
    if i == 0 then t' else After(node, t', calls[1..], i - 1)
  }

  // ----- Every run of a generator -----

  predicate Proper(node: int, t: Ticker) {
    0 <= node && 0 <= t.sequence < ORDER_SEQUENCES
  }

  /** The largest number the generator may have returned so far. */
  function Ceiling(node: int, t: Ticker): int {
    Pack(Parts(t.lastMs - EPOCH_MS, node, t.sequence, GENES - 1))
  }

  lemma FirstAfterIsAfter(readings: seq<int>, last: int)
    requires FirstAfter(readings, last).Some?
    ensures FirstAfter(readings, last).value > last
  {
  }

  lemma NextAdvances(node: int, t: Ticker, c: Call)
    requires Proper(node, t) && Next(node, t, c).Some?
    ensures var (t', r) := Next(node, t, c).value;
            && Proper(node, t') && Ceiling(node, t) <= Ceiling(node, t')
            && (r.Number? ==> Ceiling(node, t) < r.n <= Ceiling(node, t') && r.n >= 0)
  {
    var (t', r) := Next(node, t, c).value;
    if node < ORDER_NODES && c.now >= t.lastMs {
      if !(c.now > t.lastMs) && !(t.sequence + 1 < ORDER_SEQUENCES) {
        FirstAfterIsAfter(c.later, c.now);
      }
      assert t'.lastMs > t.lastMs || (t'.lastMs == t.lastMs && t'.sequence > t.sequence);
      if r.Number? {
        UnpackPack(Parts(t'.lastMs - EPOCH_MS, node, t'.sequence, UserGene(c.userId)));
      }
    }
  }

  /**
   A call gets a number at once, with the time it read, while the clock has not gone back, the time
   fits 40 bits and the millisecond has a sequence left; a new millisecond starts at sequence 0.
   */
  lemma NumberIsGiven(node: int, t: Ticker, c: Call)
    requires Proper(node, t) && node < ORDER_NODES && 0 <= c.now - EPOCH_MS < ORDER_TIMES
    requires c.now > t.lastMs || (c.now == t.lastMs && t.sequence < ORDER_SEQUENCES - 1)
    ensures Next(node, t, c).Some? && Next(node, t, c).value.1.Number?
    ensures var p := Unpack(Next(node, t, c).value.1.n);
            && p.timestamp == c.now - EPOCH_MS && p.node == node && p.gene == UserGene(c.userId)
            && p.sequence == if c.now > t.lastMs then 0 else t.sequence + 1
  {
    var t' := Next(node, t, c).value.0;
    UnpackPack(Parts(c.now - EPOCH_MS, node, t'.sequence, UserGene(c.userId)));
  }

  /** A full millisecond makes the call wait for the next one; a clock that went back is an error that changes nothing. */
  lemma FullMillisecondWaits(node: int, t: Ticker, c: Call)
    requires Proper(node, t) && node < ORDER_NODES
    ensures c.now < t.lastMs ==> Next(node, t, c) == Some((t, ClockBack))
    ensures c.now == t.lastMs && t.sequence == ORDER_SEQUENCES - 1 && Next(node, t, c).Some? ==>
              Next(node, t, c).value.0.lastMs > t.lastMs && Next(node, t, c).value.0.sequence == 0
  {
    if c.now == t.lastMs && t.sequence == ORDER_SEQUENCES - 1 && Next(node, t, c).Some? {
      FirstAfterIsAfter(c.later, c.now);
    }
  }

  lemma {:induction false} AboveCeiling(node: int, t: Ticker, calls: seq<Call>, j: nat)
    requires Proper(node, t) && j < |Replies(node, t, calls)| && Replies(node, t, calls)[j].Number?
    ensures Replies(node, t, calls)[j].n > Ceiling(node, t)
    decreases calls
  {
    NextAdvances(node, t, calls[0]);
    if j > 0 {
      AboveCeiling(node, Next(node, t, calls[0]).value.0, calls[1..], j - 1);
    }
  }

  /** The numbers of one generator strictly increase, whatever the clock does. */
  lemma {:induction false} NumbersIncrease(node: int, t: Ticker, calls: seq<Call>, i: nat, j: nat)
    requires Proper(node, t) && i < j < |Replies(node, t, calls)|
    requires Replies(node, t, calls)[i].Number? && Replies(node, t, calls)[j].Number?
    ensures Replies(node, t, calls)[i].n < Replies(node, t, calls)[j].n
    decreases calls
  {
    NextAdvances(node, t, calls[0]);
    var t' := Next(node, t, calls[0]).value.0;
    if i > 0 {
      NumbersIncrease(node, t', calls[1..], i - 1, j - 1);
    } else {
      AboveCeiling(node, t', calls[1..], j - 1);
    }
  }

  /** Every number is a 64-bit integer that unpacks to exactly its parts. */
  lemma {:induction false} NumbersDecode(node: int, t: Ticker, calls: seq<Call>, i: nat)
    requires Proper(node, t) && i < |Replies(node, t, calls)| && Replies(node, t, calls)[i].Number?
    ensures var n := Replies(node, t, calls)[i].n;
            && 0 <= n < 0x8000_0000_0000_0000
            && InRange(Unpack(n)) && Pack(Unpack(n)) == n
            && var after := After(node, t, calls, i);
            && Unpack(n) == Parts(after.lastMs - EPOCH_MS, node, after.sequence, UserGene(calls[i].userId))
            && after.lastMs in [calls[i].now] + calls[i].later
            && ExtractUserGene(n) == UserGene(calls[i].userId)
    decreases calls
  {
    NextAdvances(node, t, calls[0]);
    var t' := Next(node, t, calls[0]).value.0;
    if i > 0 {
      NumbersDecode(node, t', calls[1..], i - 1);
    } else {
      UnpackPack(Parts(t'.lastMs - EPOCH_MS, node, t'.sequence, UserGene(calls[0].userId)));
      TickIsARead(t, ORDER_SEQUENCES, calls[0].now, calls[0].later);
    }
  }

  lemma FirstAfterIsARead(readings: seq<int>, last: int)
    requires FirstAfter(readings, last).Some?
    ensures FirstAfter(readings, last).value in readings
  {
  }

  lemma TickIsARead(t: Ticker, sequences: int, now: int, later: seq<int>)
    requires now >= t.lastMs && Ticked(t, sequences, now, later).Some?
    ensures Ticked(t, sequences, now, later).value.lastMs in [now] + later
  {
    if !(now > t.lastMs) && !(t.sequence + 1 < sequences) {
      FirstAfterIsARead(later, now);
    }
  }

  /** Generators with different nodes never return the same number. */
  lemma NodesNeverCollide(node: int, t: Ticker, calls: seq<Call>, i: nat, node': int, t': Ticker, calls': seq<Call>,
                          j: nat)
    requires Proper(node, t) && i < |Replies(node, t, calls)| && Replies(node, t, calls)[i].Number?
    requires Proper(node', t') && j < |Replies(node', t', calls')| && Replies(node', t', calls')[j].Number?
    requires node != node'
    ensures Replies(node, t, calls)[i].n != Replies(node', t', calls')[j].n
  {
    NumbersDecode(node, t, calls, i);
    NumbersDecode(node', t', calls', j);
  }

  // ----- The generators as they are written -----

  /** The readings still to come. */
  class Clock {
    var readings: seq<int>

    constructor (readings: seq<int>)
      ensures this.readings == readings
    {
      this.readings := readings;
    }

    method WaitNextMillis(last: int) returns (now: Option<int>)
      modifies this
      ensures now == FirstAfter(old(readings), last)
    {
      while readings != []
        invariant FirstAfter(readings, last) == FirstAfter(old(readings), last)
        decreases |readings|
      {
        var read := readings[0];
        readings := readings[1..];
        if read > last { return Some(read); }
      }
      return None;
    }
  }

  class OrderNumberGenerator {
    const nodeId: int
    var lastMs: int
    var sequence: int

    constructor (nodeId: int)
      requires 0 <= nodeId
      ensures this.nodeId == nodeId && View() == Ticker(0, 0)
    {
      this.nodeId, lastMs, sequence := nodeId, 0, 0;
    }

    function View(): Ticker
      reads this
    {
      Ticker(lastMs, sequence)
    }

    method NextOrderNumber(userId: int, clock: Clock) returns (r: Reply)
      requires Proper(nodeId, View()) && |clock.readings| > 0
      modifies this, clock
      ensures var next := Next(nodeId, old(View()), Call(userId, old(clock.readings)[0], old(clock.readings)[1..]));
              if next.None? then r == Waiting else (View(), r) == next.value && Proper(nodeId, View())
    {
      ghost var c := Call(userId, clock.readings[0], clock.readings[1..]);
      if nodeId >= ORDER_NODES { return BadNode; }
      var now := clock.readings[0];
      clock.readings := clock.readings[1..];
      if now < lastMs { return ClockBack; }
      if now == lastMs {
        sequence := sequence + 1;
        if sequence >= ORDER_SEQUENCES {
          var next := clock.WaitNextMillis(now);
          if next == None { return Waiting; }
          now := next.value;
          sequence := 0;
        }
      } else {
        sequence := 0;
      }
      lastMs := now;
      var timestamp := now - EPOCH_MS;
      if timestamp < 0 || timestamp >= ORDER_TIMES { return OutOfRange; }
      var parts := Parts(timestamp, nodeId, sequence, UserGene(userId));
      ShiftsAreSums(parts);
      return Number(ShiftedTogether(parts));
    }
  }

  /** The plain generator: 12 bits of sequence, 10 of node, and no bound on the time. */
  function SnowflakeId(node: int, t: Ticker): int {
    ((t.lastMs - EPOCH_MS) * NODES + node) * SEQUENCES + t.sequence
  }

  lemma SnowflakeIncreases(node: int, t: Ticker, now: int, later: seq<int>)
    requires 0 <= node < NODES && 0 <= t.sequence < SEQUENCES && now >= t.lastMs
    requires Ticked(t, SEQUENCES, now, later).Some?
    ensures var t' := Ticked(t, SEQUENCES, now, later).value;
            SnowflakeId(node, t) < SnowflakeId(node, t') && 0 <= t'.sequence < SEQUENCES
  {
    if !(now > t.lastMs) && !(t.sequence + 1 < SEQUENCES) {
      FirstAfterIsAfter(later, now);
    }
  }

  class Snowflake {
    const nodeId: int
    var lastMs: int
    var sequence: int

    constructor (nodeId: int)
      requires 0 <= nodeId < NODES
      ensures this.nodeId == nodeId && View() == Ticker(0, 0)
    {
      this.nodeId, lastMs, sequence := nodeId, 0, 0;
    }

    function View(): Ticker
      reads this
    {
      Ticker(lastMs, sequence)
    }

    method NextID(clock: Clock) returns (r: Reply)
      requires 0 <= nodeId < NODES && 0 <= sequence < SEQUENCES && |clock.readings| > 0
      modifies this, clock
      ensures old(clock.readings)[0] < old(lastMs) ==> r == ClockBack && View() == old(View())
      ensures old(clock.readings)[0] >= old(lastMs) ==>
                var next := Ticked(old(View()), SEQUENCES, old(clock.readings)[0], old(clock.readings)[1..]);
                if next.None? then r == Waiting
                else View() == next.value && r == Number(SnowflakeId(nodeId, View())) && SnowflakeId(nodeId, old(View())) < r.n
    {
      var now := clock.readings[0];
      ghost var later := clock.readings[1..];
      clock.readings := clock.readings[1..];
      if now < lastMs { return ClockBack; }
      ghost var first := now;
      if now == lastMs {
        sequence := (sequence + 1) % SEQUENCES;
        if sequence == 0 {
          var next := clock.WaitNextMillis(now);
          if next == None { return Waiting; }
          now := next.value;
        }
      } else {
        sequence := 0;
      }
      lastMs := now;
      SnowflakeIncreases(nodeId, old(View()), first, later);
      return Number(SnowflakeId(nodeId, View()));
    }
  }
}
