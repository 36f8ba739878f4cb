/**
 * Vocabulary shared by the three station programs (awos.py, multi_awos.py and
 * awos_assit_code/awos_new.py): bus replies, the values a snapshot dictionary
 * holds, and the exact integer form of Python's round().
 */
module Common {

  /** A Modbus holding register: 16 bits. */
  type U16 = x: int | 0 <= x < 0x1_0000

  datatype Option<+T> = None | Some(value: T)

  /** The reply to one "read holding registers" request. `Err` stands both for
      a reply whose isError() is true and for an exception raised by the client
      call itself: every reader handles the two alike. */
  datatype Reply = Err | Ok(regs: seq<U16>)

  /** The replies of one acquisition cycle, one per sensor on the bus. */
  datatype BusReplies = BusReplies(env: Reply, uv: Reply, windSpeed: Reply, windDir: Reply, rain: Reply)

  /** A value held by a snapshot dictionary: a float, an int, a string or None. */
  datatype Value = Num(r: real) | Int(i: int) | Text(s: string) | Null

  /** One reader's dictionary, and the snapshot dictionary built from them. */
  type Reading = map<string, Value>
  type Snapshot = map<string, Value>

  /** True when `reply` succeeded and holds at least `n` registers, so that
      reading registers[0] .. registers[n-1] does not raise IndexError. */
  predicate Holds(reply: Reply, n: nat)
  {
    reply.Ok? && |reply.regs| >= n
  }

  function Abs(x: real): (r: real)
    ensures r >= 0.0 && (r == x || r == -x)
  {
    if x < 0.0 then -x else x
  }

  /** Python's round(n / d) for a positive divisor: the nearest integer, and
      of two equally near integers the even one. */
  function RoundHalfEven(n: int, d: int): (r: int)
    requires d > 0
    ensures -d <= 2 * (n - r * d) <= d
    ensures 2 * (n - r * d) == d || 2 * (n - r * d) == -d ==> r % 2 == 0
  {
    var q, m := n / d, n % d;
    if 2 * m < d then q
    else if 2 * m > d then q + 1
    else if q % 2 == 0 then q
    else q + 1
  }

  /** The two conditions of RoundHalfEven's contract determine its result:
      no other integer is as near to n / d with ties broken to even. */
  lemma RoundHalfEvenUnique(n: int, d: int, r: int)
    requires d > 0
    requires -d <= 2 * (n - r * d) <= d
    requires 2 * (n - r * d) == d || 2 * (n - r * d) == -d ==> r % 2 == 0
    ensures r == RoundHalfEven(n, d)
  {
    var s := RoundHalfEven(n, d);
    var k := s - r;
    assert k * d == (n - r * d) - (n - s * d);
    UnitMultiple(k, d);
  }

  /** A multiple k * d of a positive d that lies within [-d, d] has |k| <= 1. */
  lemma UnitMultiple(k: int, d: int)
    requires d > 0
    requires -d <= k * d <= d
    ensures -1 <= k <= 1
  {
  }

  /** Distance from a to b around a circle of `turn` units. */
  function CircleGap(a: int, b: int, turn: int): (g: int)
    requires turn > 0
    ensures 0 <= g <= turn / 2 + 1
  {
    var m := (a - b) % turn;
    if m <= turn - m then m else turn - m
  }

  /** If a - b is within half a turn of a whole number of turns, the gap
      around the circle is at most that remainder. */
  lemma CircleGapWithin(a: int, b: int, turn: int, q: int, e: int)
    requires turn > 0 && a - b == e + turn * q && -turn <= 2 * e <= turn
    ensures CircleGap(a, b, turn) <= if e < 0 then -e else e
  {
    if e >= 0 {
      ModUnique(a - b, turn, q, e);
    } else {
      ModUnique(a - b, turn, q - 1, e + turn);
    }
  }

  /** The remainder of x by a positive turn is the one r in [0, turn) with
      x = turn * q + r. */
  lemma ModUnique(x: int, turn: int, q: int, r: int)
    requires turn > 0 && x == turn * q + r && 0 <= r < turn
    ensures x % turn == r
  {
    var k := q - x / turn;
    assert k * turn == x % turn - r;
    ZeroMultiple(k, turn);
  }

  /** A multiple k * d of a positive d strictly inside (-d, d) is zero. */
  lemma ZeroMultiple(k: int, d: int)
    requires d > 0 && -d < k * d < d
    ensures k == 0
  {
  }
}
