/**
 * Fixed CAN frames of the Dobiss relay protocol: the arbitration ids, the
 * command and status-query payloads a relay prepares once, the receive filter
 * the bus is opened with, and the entity's unique id.
 */
module Frames {

  /** A payload byte, as Python's `bytes` holds it. */
  type Byte = bv8

  /** Python's `bytes(...)` takes a configured int only when it is in 0..255. */
  function ToByte(n: int): (b: Byte)
    requires 0 <= n < 256
    ensures b as int == n
  {
    n as bv8
  }

  /** A 29-bit extended CAN arbitration id. */
  type CanId = x: bv32 | x < 0x2000_0000

  /** The mask of both receive filters: all 29 bits must match. */
  const EXTENDED_MASK: bv32 := 0x1FFF_FFFF

  /** Low part of the SET id; the module index is OR-ed into bits 8..15. */
  const SET_BASE_ID: CanId := 0x01FC_0002
  /** Acknowledgement of a SET command, sent by the module (inbound). */
  const SET_ACK_ID: CanId := 0x0002_FF01
  /** Status query (outbound). */
  const GET_ID: CanId := 0x01FC_FF01
  /** Reply to a status query; carries no module or relay (inbound). */
  const GET_REPLY_ID: CanId := 0x01FD_FF01

  /** A CAN message: arbitration id, payload and the extended-id flag. */
  datatype Frame = Frame(id: CanId, data: seq<Byte>, extended: bool)

  /**
   * `0x01FC0002 | (module << 8)`. Bits 8..15 of the base are clear, so the OR
   * is an addition, and the result stays within 29 bits, so it is unchanged
   * by the extended mask.
   */
  function SetId(moduleIndex: Byte): (id: CanId)
    ensures id as int == 0x01FC_0002 + 256 * (moduleIndex as int)
    ensures id & EXTENDED_MASK == id
    ensures id != SET_ACK_ID && id != GET_REPLY_ID && id != GET_ID
  {
    SET_BASE_ID | ((moduleIndex as bv32) << 8)
  }

  /** `bytes((module, relay, 1 if on else 0, 0xFF, 0xFF))`: `_bytes_on` / `_bytes_off`. */
  function CommandPayload(moduleIndex: Byte, relayIndex: Byte, on: bool): seq<Byte>
  {
    [moduleIndex, relayIndex, if on then 1 else 0, 0xFF, 0xFF]
  }

  /** `bytes((module, relay))`: `_bytes_status`. */
  function StatusPayload(moduleIndex: Byte, relayIndex: Byte): seq<Byte>
  {
    [moduleIndex, relayIndex]
  }

  /** The frame `async_turn_on` / `async_turn_off` send. */
  function CommandFrame(moduleIndex: Byte, relayIndex: Byte, on: bool): (f: Frame)
    ensures f.extended && f.id == SetId(moduleIndex)
    ensures |f.data| == 5 && f.data[0] == moduleIndex && f.data[1] == relayIndex
    ensures f.data[2] == 1 <==> on
  {
    Frame(SetId(moduleIndex), CommandPayload(moduleIndex, relayIndex, on), true)
  }

  /** The frame `async_update` sends to ask for the relay's state. */
  function QueryFrame(moduleIndex: Byte, relayIndex: Byte): (f: Frame)
    ensures f.extended && f.id == GET_ID && f.data == [moduleIndex, relayIndex]
  {
    Frame(GET_ID, StatusPayload(moduleIndex, relayIndex), true)
  }

  /** The ON and OFF payloads have five bytes and differ only in the state byte. */
  lemma OnOffDifferOnlyInState(moduleIndex: Byte, relayIndex: Byte)
    ensures var on, off := CommandPayload(moduleIndex, relayIndex, true), CommandPayload(moduleIndex, relayIndex, false);
      |on| == |off| == 5 && on[2] == 1 && off[2] == 0 &&
      forall k :: 0 <= k < 5 && k != 2 ==> on[k] == off[k]
  {
  }

  /** Two relays on different modules never share a SET id; relays of one module do. */
  lemma SetIdInjective(m1: Byte, m2: Byte)
    ensures SetId(m1) == SetId(m2) <==> m1 == m2
  {
  }

  // ---------------------------------------------------------------- receive filter

  /** One python-can filter entry: `{"can_id": .., "can_mask": .., "extended": True}`. */
  datatype CanFilter = CanFilter(canId: bv32, canMask: bv32, extended: bool)

  /** The two filters the bus is opened with: reply to SET, reply to GET. */
  const RECEIVE_FILTERS: seq<CanFilter> := [
    CanFilter(SET_ACK_ID, EXTENDED_MASK, true),
    CanFilter(GET_REPLY_ID, EXTENDED_MASK, true)
  ]

  /** python-can's rule: the extended flag must agree and the masked ids must be equal. */
  predicate FilterMatches(flt: CanFilter, f: Frame)
  {
    flt.extended == f.extended && (flt.canId ^ f.id) & flt.canMask == 0
  }

  /** A frame reaches the listeners when some filter matches it. */
  predicate PassesFilters(filters: seq<CanFilter>, f: Frame)
  {
    exists k :: 0 <= k < |filters| && FilterMatches(filters[k], f)
  }

  /** The bus's receive filter admits exactly the two reply ids, as extended frames. */
  lemma ReceiveFilterExact(f: Frame)
    ensures PassesFilters(RECEIVE_FILTERS, f) <==>
            f.extended && (f.id == SET_ACK_ID || f.id == GET_REPLY_ID)
  {
    if f.extended && f.id == SET_ACK_ID {
      assert FilterMatches(RECEIVE_FILTERS[0], f);
    } else if f.extended && f.id == GET_REPLY_ID {
      assert FilterMatches(RECEIVE_FILTERS[1], f);
    }
  }

  /**
   * The platform never classifies its own frames: the status query and both
   * commands fail the receive filter, and the query names the same module and
   * relay the commands switch.
   */
  lemma OwnFramesNotReceived(moduleIndex: Byte, relayIndex: Byte, on: bool)
    ensures !PassesFilters(RECEIVE_FILTERS, QueryFrame(moduleIndex, relayIndex))
    ensures !PassesFilters(RECEIVE_FILTERS, CommandFrame(moduleIndex, relayIndex, on))
    ensures QueryFrame(moduleIndex, relayIndex).data == CommandFrame(moduleIndex, relayIndex, on).data[..2]
  {
    ReceiveFilterExact(QueryFrame(moduleIndex, relayIndex));
    ReceiveFilterExact(CommandFrame(moduleIndex, relayIndex, on));
  }

  // ---------------------------------------------------------------- unique id

  function DigitChar(d: nat): (c: char)
    requires d < 10
  {
    "0123456789"[d]
  }

  predicate IsDigitChar(c: char)
  {
    '0' <= c <= '9'
  }

  /** Python's `str(n)` for a non-negative int: decimal, no leading zeros. */
  function Decimal(n: nat): (s: string)
    ensures |s| > 0 && forall k :: 0 <= k < |s| ==> IsDigitChar(s[k])
    ensures s[0] != '0' || n == 0
  {
    if n < 10 then [DigitChar(n)] else Decimal(n / 10) + [DigitChar(n % 10)]
  }

  /** Reads a decimal string back. */
  function DecimalValue(s: string): nat
    requires forall k :: 0 <= k < |s| ==> IsDigitChar(s[k])
  {
    if s == [] then 0
    else 10 * DecimalValue(s[..|s| - 1]) + DigitValue(s[|s| - 1])
  }

  function DigitValue(c: char): nat
    requires IsDigitChar(c)
  {
    c as int - '0' as int
  }

  lemma {:induction false} DecimalRoundTrip(n: nat)
    ensures DecimalValue(Decimal(n)) == n
  {
    var s := Decimal(n);
    if n >= 10 {
      DecimalRoundTrip(n / 10);
      assert s[..|s| - 1] == Decimal(n / 10);
    }
  }

  /** A digit string has a positive value when its first digit is not zero. */
  lemma {:induction false} LeadingDigitPositive(s: string)
    requires |s| > 0 && forall k :: 0 <= k < |s| ==> IsDigitChar(s[k])
    requires s[0] != '0'
    ensures DecimalValue(s) > 0
    decreases |s|
  {
    if |s| > 1 {
      LeadingDigitPositive(s[..|s| - 1]);
    }
  }

  /**
   * `Decimal` is the only canonical rendering: a non-empty digit string
   * without a leading zero (other than "0" itself) is the rendering of its value.
   */
  lemma {:induction false} DecimalCanonical(s: string)
    requires |s| > 0 && forall k :: 0 <= k < |s| ==> IsDigitChar(s[k])
    requires s[0] != '0' || |s| == 1
    ensures Decimal(DecimalValue(s)) == s
    decreases |s|
  {
    var c := s[|s| - 1];
    assert DigitChar(DigitValue(c)) == c;
    if |s| > 1 {
      var p := s[..|s| - 1];
      DecimalCanonical(p);
      LeadingDigitPositive(p);
      var n := DecimalValue(s);
      assert n / 10 == DecimalValue(p) && n % 10 == DigitValue(c);
      assert s == p + [c];
    }
  }

  /** `f"dobiss.{module}.{relay}"` */
  function UniqueId(moduleIndex: Byte, relayIndex: Byte): string
  {
    IdText(moduleIndex as int, relayIndex as int)
  }

  function IdText(m: nat, r: nat): string
  {
    "dobiss." + Decimal(m) + "." + Decimal(r)
  }

  /** If `a + "." + b == c + "." + d` and neither `a` nor `c` holds a dot, the parts agree. */
  lemma {:induction false} SplitAtFirstDot(a: string, b: string, c: string, d: string)
    requires forall k :: 0 <= k < |a| ==> IsDigitChar(a[k])
    requires forall k :: 0 <= k < |c| ==> IsDigitChar(c[k])
    requires a + "." + b == c + "." + d
    ensures a == c && b == d
  {
    var s := a + "." + b;
    assert s[|a|] == '.' && s[|c|] == '.';
    assert forall k :: 0 <= k < |a| ==> s[k] == a[k];
    assert forall k :: 0 <= k < |c| ==> s[k] == c[k];
    assert |a| == |c|;
    assert a == s[..|a|] == c;
    assert b == s[|a| + 1..] == d;
  }

  /** The id text determines the pair of numbers it was built from. */
  lemma IdTextInjective(m1: nat, r1: nat, m2: nat, r2: nat)
    requires IdText(m1, r1) == IdText(m2, r2)
    ensures m1 == m2 && r1 == r2
  {
    var a1, b1 := Decimal(m1), Decimal(r1);
    var a2, b2 := Decimal(m2), Decimal(r2);
    var p := "dobiss.";
    var s1, s2 := a1 + "." + b1, a2 + "." + b2;
    assert p + s1 == IdText(m1, r1);
    assert p + s2 == IdText(m2, r2);
    assert s1 == (p + s1)[|p|..];
    assert s2 == (p + s2)[|p|..];
    SplitAtFirstDot(a1, b1, a2, b2);
    DecimalRoundTrip(m1);
    DecimalRoundTrip(m2);
    DecimalRoundTrip(r1);
    DecimalRoundTrip(r2);
  }

  /** Distinct (module, relay) pairs give distinct entity ids. */
  lemma UniqueIdInjective(m1: Byte, r1: Byte, m2: Byte, r2: Byte)
    ensures UniqueId(m1, r1) == UniqueId(m2, r2) <==> m1 == m2 && r1 == r2
  {
    if UniqueId(m1, r1) == UniqueId(m2, r2) {
      IdTextInjective(m1 as int, r1 as int, m2 as int, r2 as int);
      ByteValueInjective(m1, m2);
      ByteValueInjective(r1, r2);
    }
  }

  lemma ByteValueInjective(x: Byte, y: Byte)
    requires x as int == y as int
    ensures x == y
  {
  }
}
