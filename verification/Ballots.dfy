// Node identifiers (id.go) and ballot numbers (ballot.go).
//
// An ID is a uint32 holding `zone << 16 | node`; a Ballot is a uint64 holding
// `n << 32 | zone << 16 | node`.  Shifts, bitwise or and truncation are written out on
// integers: a value is first reduced modulo 2^64, as Go's 64-bit int would hold it.

module Decimals {

  datatype Parsed = Parsed(value: int, ok: bool)

  predicate IsDigit(c: char) { '0' <= c <= '9' }

  predicate AllDigits(s: string) { forall i :: 0 <= i < |s| ==> IsDigit(s[i]) }

  /** strconv.Itoa and the %d verb, for the non-negative numbers IDs and ballots hold. */
  function Digits(n: nat): (s: string)
    ensures |s| > 0 && AllDigits(s)
  {
    if n < 10 then [('0' as int + n) as char] else Digits(n / 10) + [('0' as int + n % 10) as char]
  }

  /** The number a run of decimal digits denotes. */
  function Denotes(s: string): (n: nat)
    requires AllDigits(s)
  {
    if s == [] then 0 else Denotes(s[..|s| - 1]) * 10 + (s[|s| - 1] as int - '0' as int)
  }

  /** strconv.ParseUint(s, 10, 64): a syntax error yields 0, an overflow the largest uint64. */
  function ParseUint(s: string): Parsed {
    if s == [] || !AllDigits(s) then Parsed(0, false)
    else if Denotes(s) < 0x1_0000_0000_0000_0000 then Parsed(Denotes(s), true)
    else Parsed(0xFFFF_FFFF_FFFF_FFFF, false)
  }

  /** strconv.Atoi: an optional sign, then digits, within the int64 range. */
  function Atoi(s: string): Parsed {
    var neg := s != [] && s[0] == '-';
    var body := if s != [] && (s[0] == '-' || s[0] == '+') then s[1..] else s;
    if body == [] || !AllDigits(body) then Parsed(0, false)
    else
      var v := (if neg then -1 else 1) * Denotes(body);
      if -0x8000_0000_0000_0000 <= v < 0x8000_0000_0000_0000 then Parsed(v, true) else Parsed(0, false)
  }

  lemma {:induction false} DenotesDigits(n: nat)
    ensures Denotes(Digits(n)) == n
  {
    if n >= 10 {
      DenotesDigits(n / 10);
      assert Digits(n)[..|Digits(n)| - 1] == Digits(n / 10);
    }
  }

  function Power10(k: nat): nat { if k == 0 then 1 else 10 * Power10(k - 1) }

  /** Each digit counts ten to the number of digits after it. */
  function Positional(s: string): nat
    requires AllDigits(s)
  {
    if s == [] then 0 else (s[0] as int - '0' as int) * Power10(|s| - 1) + Positional(s[1..])
  }

  lemma {:induction false} OneMoreDigit(s: string, c: char)
    requires AllDigits(s) && IsDigit(c)
    ensures AllDigits(s + [c]) && Positional(s + [c]) == 10 * Positional(s) + (c as int - '0' as int)
  {
    if s == [] {
      assert Power10(0) == 1 && [c][1..] == [];
      assert Positional([c]) == (c as int - '0' as int) * Power10(0) + Positional([]);
    } else {
      var t, d := s[1..], s[0] as int - '0' as int;
      OneMoreDigit(t, c);
      assert (s + [c])[1..] == t + [c];
      assert d * Power10(|s|) == 10 * (d * Power10(|s| - 1));
    }
  }

  /** A number is printed as its decimal digits, the first of which is not 0 unless it is the only one. */
  lemma {:induction false} DigitsAreDecimal(n: nat)
    ensures Positional(Digits(n)) == n && (n > 0 ==> Digits(n)[0] != '0')
  {
    if n >= 10 {
      DigitsAreDecimal(n / 10);
      OneMoreDigit(Digits(n / 10), ('0' as int + n % 10) as char);
    } else {
      OneMoreDigit([], ('0' as int + n) as char);
      assert [] + Digits(n) == Digits(n);
    }
  }

  /** The position of the first dot, or |s| when there is none. */
  function FirstDot(s: string): (i: nat)
    ensures i <= |s|
    ensures forall j :: 0 <= j < i ==> s[j] != '.'
    ensures i < |s| ==> s[i] == '.'
  {
    if s == [] || s[0] == '.' then 0 else 1 + FirstDot(s[1..])
  }

  lemma FirstDotIs(a: string, b: string)
    requires forall j :: 0 <= j < |a| ==> a[j] != '.'
    ensures FirstDot(a + "." + b) == |a|
  {
    var s := a + "." + b;
    assert s[|a|] == '.';
    assert forall j :: 0 <= j < |a| ==> s[j] == a[j];
  }
}

module Ballots {
  import opened Decimals

  type ID = nat       // uint32 in the source
  type Ballot = nat   // uint64 in the source

  const U16 := 0x1_0000
  const U32 := 0x1_0000_0000
  const U64 := 0x1_0000_0000_0000_0000

  /** Bitwise or of two non-negative integers. */
  function Or(a: nat, b: nat): (r: nat)
    decreases a + b
  {
    if a == 0 then b else if b == 0 then a
    else 2 * Or(a / 2, b / 2) + (if a % 2 == 1 || b % 2 == 1 then 1 else 0)
  }

  function Pow2(k: nat): (p: nat)
    ensures p > 0
  { if k == 0 then 1 else 2 * Pow2(k - 1) }

  /** Or-ing in a field below a shifted one is adding it. */
  lemma {:induction false} OrIsPlus(hi: nat, lo: nat, k: nat)
    requires lo < Pow2(k)
    ensures Or(hi * Pow2(k), lo) == hi * Pow2(k) + lo
  {
    if k == 0 {
    } else if hi == 0 || lo == 0 {
      assert hi == 0 ==> hi * Pow2(k) == 0;
    } else {
      var a := hi * Pow2(k);
      assert a == 2 * (hi * Pow2(k - 1));
      assert a / 2 == hi * Pow2(k - 1) && a % 2 == 0;
      assert a > 0;
      OrIsPlus(hi, lo / 2, k - 1);
    }
  }

  lemma Powers()
    ensures Pow2(16) == U16 && Pow2(32) == U32
  {
    assert Pow2(8) == 256 by { assert Pow2(4) == 16; }
    assert Pow2(12) == 4096;
    assert Pow2(16) == U16;
    assert Pow2(20) == 1048576;
    assert Pow2(24) == 16777216;
    assert Pow2(28) == 268435456;
    assert Pow2(32) == U32;
  }

  // ---- id.go ----------------------------------------------------------------------------

  function NewID(zone: int, node: int): ID {
    Or((zone * U16) % U64, node % U64) % U32
  }

  function Zone(id: ID): int { id / U16 }

  function Node(id: ID): int { id % U16 }

  function IDString(id: ID): string
  {
    Digits(Zone(id)) + "." + Digits(Node(id))
  }

  /** An identifier that does not have the shape zone.node is logged and read as 0. */
  function NewIDFromString(s: string): ID {
    var i := FirstDot(s);
    if i == |s| || FirstDot(s[i + 1..]) < |s| - i - 1 then 0
    else
      var zone := Atoi(s[..i]);
      var node := Atoi(s[i + 1..]);
      if !zone.ok || !node.ok then 0 else NewID(zone.value, node.value)
  }

  /** IDs.Less: by zone, then by node. */
  predicate IDLess(a: ID, b: ID) {
    if Zone(a) < Zone(b) then true
    else if Zone(a) > Zone(b) then false
    else Node(a) < Node(b)
  }

  // ---- ballot.go ------------------------------------------------------------------------

  function NewBallot(n: int, id: ID): Ballot {
    Or(Or((n * U32) % U64, Zone(id) * U16), Node(id)) % U64
  }

  function N(b: Ballot): int { b / U32 }

  /** Ballot.ID re-packs the two low 16-bit fields; see BallotIDFields. */
  function BallotID(b: Ballot): ID { b % U32 }

  function Next(b: Ballot, id: ID): Ballot { NewBallot(N(b) + 1, id) }

  function BallotString(b: Ballot): string { Digits(N(b)) + "." + IDString(BallotID(b)) }

  function NewBallotFromString(s: string): Ballot {
    var i := FirstDot(s);
    var n := ParseUint(s[..i]).value;
    var signed := if n < 0x8000_0000_0000_0000 then n else n - U64;   // int(n)
    NewBallot(signed, NewIDFromString(if i < |s| then s[i + 1..] else ""))
  }

  // ---- packing --------------------------------------------------------------------------

  lemma OrNode(hi: nat, node: nat)
    requires node < U16
    ensures Or(hi * U16, node) == hi * U16 + node
  {
    Powers();
    OrIsPlus(hi, node, 16);
  }

  lemma OrLow(n: nat, low: nat)
    requires low < U32
    ensures Or(n * U32, low) == n * U32 + low
  {
    Powers();
    OrIsPlus(n, low, 32);
  }

  lemma Small(x: nat, m: nat)
    requires x < m
    ensures x % m == x
  {
  }

  lemma Split16(hi: nat, lo: nat)
    requires lo < U16
    ensures (hi * U16 + lo) / U16 == hi && (hi * U16 + lo) % U16 == lo
  {
  }

  lemma Split32(hi: nat, lo: nat)
    requires lo < U32
    ensures (hi * U32 + lo) / U32 == hi && (hi * U32 + lo) % U32 == lo
  {
  }

  lemma NewIDPacks(zone: int, node: int)
    requires 0 <= zone < U16 && 0 <= node < U16
    ensures NewID(zone, node) == zone * U16 + node
    ensures Zone(NewID(zone, node)) == zone && Node(NewID(zone, node)) == node
  {
    Small(zone * U16, U64);
    Small(node, U64);
    OrNode(zone, node);
    Small(zone * U16 + node, U32);
    Split16(zone, node);
  }

  lemma NewIDUnpacks(id: ID)
    requires id < U32
    ensures NewID(Zone(id), Node(id)) == id
  {
    NewIDPacks(Zone(id), Node(id));
  }

  /** The source's expression for Ballot.ID, NewID(uint32(b) >> 16, uint16(b)). */
  lemma BallotIDFields(b: Ballot)
    ensures BallotID(b) == NewID((b % U32) / U16, b % U16)
  {
    NewIDPacks((b % U32) / U16, b % U16);
  }

  lemma PackFields(top: nat, z: nat, d: nat)
    requires top < U32 && z < U16 && d < U16
    ensures Or(Or(top * U32, z * U16), d) == top * U32 + z * U16 + d
  {
    OrLow(top, z * U16);
    assert top * U32 + z * U16 == (top * U16 + z) * U16;
    OrNode(top * U16 + z, d);
  }

  lemma NewBallotIs(n: int, id: ID)
    requires 0 <= n < U32 && id < U32
    ensures NewBallot(n, id) == n * U32 + id
  {
    var z, d := Zone(id), Node(id);
    Small(n * U32, U64);
    PackFields(n, z, d);
    Small(n * U32 + z * U16 + d, U64);
  }

  lemma NewBallotPacks(n: int, id: ID)
    requires 0 <= n < U32 && id < U32
    ensures NewBallot(n, id) == n * U32 + id
    ensures N(NewBallot(n, id)) == n && BallotID(NewBallot(n, id)) == id
  {
    NewBallotIs(n, id);
    Split32(n, id);
  }

  lemma NewBallotWraps(id: ID)
    requires id < U32
    ensures NewBallot(U32, id) == id
  {
    assert (U32 * U32) % U64 == 0;
    PackFields(0, Zone(id), Node(id));
    Small(id, U64);
  }

  lemma NewBallotUnpacks(b: Ballot)
    requires b < U64
    ensures NewBallot(N(b), BallotID(b)) == b
  {
    NewBallotPacks(N(b), BallotID(b));
  }

  /** Packed ballots compare as (n, zone, node) do. */
  lemma BallotOrder(n1: int, id1: ID, n2: int, id2: ID)
    requires 0 <= n1 < U32 && 0 <= n2 < U32 && id1 < U32 && id2 < U32
    ensures NewBallot(n1, id1) < NewBallot(n2, id2) <==> n1 < n2 || (n1 == n2 && IDLess(id1, id2))
    ensures NewBallot(n1, id1) == NewBallot(n2, id2) <==> n1 == n2 && id1 == id2
  {
    NewBallotPacks(n1, id1);
    NewBallotPacks(n2, id2);
  }

  /** Next exceeds every ballot that carries the old counter, whichever node issued it. */
  lemma NextExceeds(b: Ballot, id: ID)
    requires b < U64 && N(b) + 1 < U32 && id < U32
    ensures BallotID(Next(b, id)) == id && N(Next(b, id)) == N(b) + 1
    ensures Next(b, id) < U64
    ensures forall other: Ballot :: N(other) <= N(b) ==> other < Next(b, id)
  {
    NewBallotPacks(N(b) + 1, id);
  }

  /** Next grows exactly until the 32-bit counter is used up; then it falls back to (0, id). */
  lemma NextGrowsIff(b: Ballot, id: ID)
    requires b < U64 && id < U32
    ensures Next(b, id) > b <==> N(b) + 1 < U32
    ensures N(b) + 1 == U32 ==> Next(b, id) == id
  {
    if N(b) + 1 < U32 {
      NextExceeds(b, id);
    } else {
      NewBallotWraps(id);
    }
  }

  // ---- printing and parsing -------------------------------------------------------------

  lemma AtoiDigits(n: nat)
    requires n < U64 / 2
    ensures Atoi(Digits(n)) == Parsed(n, true)
  {
    DenotesDigits(n);
    var s := Digits(n);
    assert IsDigit(s[0]);
  }

  lemma NoDotInDigits(n: nat)
    ensures FirstDot(Digits(n)) == |Digits(n)|
  {
    var s := Digits(n);
    assert forall j :: 0 <= j < |s| ==> IsDigit(s[j]);
  }

  /** An id is printed as its zone, a dot and its node, and what is so written is read as that id. */
  lemma IDStringDenotes(zone: nat, node: nat)
    requires zone < U16 && node < U16
    ensures IDString(NewID(zone, node)) == Digits(zone) + "." + Digits(node)
    ensures Zone(NewIDFromString(Digits(zone) + "." + Digits(node))) == zone
    ensures Node(NewIDFromString(Digits(zone) + "." + Digits(node))) == node
  {
    NewIDPacks(zone, node);
    IDRoundTrip(NewID(zone, node));
  }

  lemma IDRoundTrip(id: ID)
    requires id < U32
    ensures NewIDFromString(IDString(id)) == id
  {
    var a, b := Digits(Zone(id)), Digits(Node(id));
    var s := IDString(id);
    assert forall j :: 0 <= j < |a| ==> IsDigit(a[j]);
    FirstDotIs(a, b);
    assert s[..|a|] == a && s[|a| + 1..] == b;
    NoDotInDigits(Node(id));
    AtoiDigits(Zone(id));
    AtoiDigits(Node(id));
    NewIDUnpacks(id);
  }

  lemma ReadsCounter(n: nat, rest: string)
    requires n < U64 / 2
    ensures NewBallotFromString(Digits(n) + "." + rest) == NewBallot(n, NewIDFromString(rest))
  {
    var a := Digits(n);
    var s := a + "." + rest;
    assert forall j :: 0 <= j < |a| ==> IsDigit(a[j]);
    FirstDotIs(a, rest);
    assert s[..|a|] == a && s[|a| + 1..] == rest;
    DenotesDigits(n);
  }

  lemma BallotRoundTrip(b: Ballot)
    requires b < U64
    ensures NewBallotFromString(BallotString(b)) == b
  {
    ReadsCounter(N(b), IDString(BallotID(b)));
    IDRoundTrip(BallotID(b));
    NewBallotUnpacks(b);
  }
}
