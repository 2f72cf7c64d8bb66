/** Unsigned LEB128, as Go's encoding/binary writes and reads it: seven bits a byte, least
    significant first, the top bit set on every byte but the last (section 7.6 of DWARF
    version 5). */
module Varint {
  import opened ByteStreams

  const MAX_LEN := 10
  const TWO_64: nat := 0x1_0000_0000_0000_0000

  function Encode(n: nat): (bs: seq<byte>)
    ensures bs != []
  {
    if n < 128 then [n as byte] else [(128 + n % 128) as byte] + Encode(n / 128)
  }

  /** What ReadUvarint makes of a stream: a value, an early end (after some byte or before
      any), or more than 64 bits. */
  datatype Parsed =
    | Value(n: nat, rest: seq<byte>)
    | Short(started: bool)
    | TooBig(rest: seq<byte>)

  /** Reading bs when i bytes have been read already. */
  function Decode(bs: seq<byte>, i: nat): (p: Parsed)
    ensures p.Value? ==> |p.rest| < |bs|
    decreases |bs|
  {
    if i >= MAX_LEN then TooBig(bs)
    else if bs == [] then Short(i > 0)
    else if bs[0] < 128 then
      if i == MAX_LEN - 1 && bs[0] > 1 then TooBig(bs[1..]) else Value(bs[0] as nat, bs[1..])
    else
      match Decode(bs[1..], i + 1)
      case Value(v, rest) => Value(bs[0] as nat - 128 + 128 * v, rest)
      case Short(_) => Short(true)
      case TooBig(rest) => TooBig(rest)
  }

  /** The first number that does not fit when i bytes have been read. */
  function Bound(i: nat): nat
    requires i < MAX_LEN
    decreases MAX_LEN - i
  {
    if i == MAX_LEN - 1 then 2 else 128 * Bound(i + 1)
  }

  lemma BoundIs64Bits()
    ensures Bound(0) == TWO_64
  {
    assert Bound(7) == 128 * Bound(8) && Bound(8) == 128 * Bound(9);
    assert Bound(4) == 128 * Bound(5) && Bound(5) == 128 * Bound(6) && Bound(6) == 128 * Bound(7);
    assert Bound(1) == 128 * Bound(2) && Bound(2) == 128 * Bound(3) && Bound(3) == 128 * Bound(4);
  }

  lemma {:induction false} DecodeEncodeFrom(n: nat, rest: seq<byte>, i: nat)
    requires i < MAX_LEN && n < Bound(i)
    ensures Decode(Encode(n) + rest, i) == Value(n, rest)
    decreases n
  {
    var bs := Encode(n) + rest;
    if n < 128 {
      assert bs[1..] == rest;
    } else {
      var high, low := n / 128, n % 128;
      assert i < MAX_LEN - 1 && high < Bound(i + 1) && n == low + 128 * high;
      DecodeEncodeFrom(high, rest, i + 1);
      assert bs[0] as nat == 128 + low && bs[1..] == Encode(high) + rest;
    }
  }

  /** Reading back what was written gives the number and leaves what follows untouched. */
  lemma RoundTrip(n: nat, rest: seq<byte>)
    requires n < TWO_64
    ensures Decode(Encode(n) + rest, 0) == Value(n, rest)
  {
    BoundIs64Bits();
    DecodeEncodeFrom(n, rest, 0);
  }

  /** A number in LEB128 form, minimal or not. */
  predicate IsForm(gs: seq<byte>, i: nat)
    decreases |gs|
  {
    gs != [] && i < MAX_LEN &&
    if |gs| == 1 then gs[0] < 128 && (i == MAX_LEN - 1 ==> gs[0] <= 1)
    else gs[0] >= 128 && IsForm(gs[1..], i + 1)
  }

  function FormValue(gs: seq<byte>): nat {
    if gs == [] then 0 else gs[0] as nat % 128 + 128 * FormValue(gs[1..])
  }

  lemma {:induction false} FormDecodes(gs: seq<byte>, rest: seq<byte>, i: nat)
    requires IsForm(gs, i)
    ensures Decode(gs + rest, i) == Value(FormValue(gs), rest)
    decreases |gs|
  {
    var bs := gs + rest;
    if |gs| == 1 {
      assert bs[1..] == rest && FormValue(gs[1..]) == 0;
    } else {
      assert bs[1..] == gs[1..] + rest;
      FormDecodes(gs[1..], rest, i + 1);
    }
  }

  lemma {:induction false} DecodedForm(bs: seq<byte>, i: nat) returns (gs: seq<byte>)
    requires Decode(bs, i).Value?
    ensures IsForm(gs, i) && bs == gs + Decode(bs, i).rest && Decode(bs, i).n == FormValue(gs)
    decreases |bs|
  {
    if bs[0] < 128 {
      gs := [bs[0]];
      assert FormValue(gs[1..]) == 0;
    } else {
      var tail := DecodedForm(bs[1..], i + 1);
      gs := [bs[0]] + tail;
      assert gs[1..] == tail;
    }
  }

  /** Reading succeeds on exactly the LEB128 forms of at most 64 bits, minimal or not, and
      never reads past the form's last byte. */
  lemma DecodeExactly(bs: seq<byte>, n: nat, rest: seq<byte>)
    ensures Decode(bs, 0) == Value(n, rest) <==>
              exists gs :: IsForm(gs, 0) && bs == gs + rest && n == FormValue(gs)
  {
    if Decode(bs, 0) == Value(n, rest) {
      var gs := DecodedForm(bs, 0);
    }
    if gs :| IsForm(gs, 0) && bs == gs + rest && n == FormValue(gs) {
      FormDecodes(gs, rest, 0);
    }
  }

  /** Every value read fits in 64 bits. */
  lemma {:induction false} DecodedFits(bs: seq<byte>, i: nat)
    requires i < MAX_LEN
    ensures Decode(bs, i).Value? ==> Decode(bs, i).n < Bound(i)
    decreases MAX_LEN - i
  {
    if bs != [] && bs[0] >= 128 && i < MAX_LEN - 1 {
      DecodedFits(bs[1..], i + 1);
    }
    BoundIsLarge(i);
  }

  lemma {:induction false} BoundIsLarge(i: nat)
    requires i < MAX_LEN
    ensures Bound(i) >= 2 && (i < MAX_LEN - 1 ==> Bound(i) >= 256)
    decreases MAX_LEN - i
  {
    if i < MAX_LEN - 1 {
      BoundIsLarge(i + 1);
    }
  }

  /** A cut inside an encoded number reads as an early end. */
  lemma {:induction false} CutIsShort(n: nat, k: nat, i: nat)
    requires i < MAX_LEN && n < Bound(i) && k < |Encode(n)|
    ensures Decode(Encode(n)[..k], i) == Short(i > 0 || k > 0)
    decreases n
  {
    if k > 0 {
      assert n / 128 < Bound(i + 1);
      CutIsShort(n / 128, k - 1, i + 1);
      assert Encode(n)[..k][1..] == Encode(n / 128)[..k - 1];
    }
  }

  /** Ten bytes of which none ends a 64-bit number. */
  predicate Overlong(bs: seq<byte>) {
    |bs| == 10 && (forall j | 0 <= j < 9 :: bs[j] >= 128) && bs[9] > 1
  }

  /** And reading fails in exactly two ways: the input ends in less than ten bytes that all have
      the top bit set, or ten bytes do not end a 64-bit number. */
  lemma {:induction false} FailsExactly(bs: seq<byte>, i: nat)
    requires i < 10
    ensures Decode(bs, i).Short? <==> |bs| < 10 - i && forall j | 0 <= j < |bs| :: bs[j] >= 128
    ensures Decode(bs, i).Short? ==> Decode(bs, i).started == (i > 0 || bs != [])
    ensures Decode(bs, i).TooBig? <==>
              |bs| >= 10 - i && (forall j | 0 <= j < 9 - i :: bs[j] >= 128) && bs[9 - i] > 1
    ensures Decode(bs, i).TooBig? ==> Decode(bs, i).rest == bs[10 - i..]
    decreases |bs|
  {
    if bs != [] && bs[0] >= 128 && i < 9 {
      FailsExactly(bs[1..], i + 1);
      assert forall j | 0 < j < |bs| :: bs[j] == bs[1..][j - 1];
      assert forall j | 0 <= j < |bs| - 1 :: bs[1..][j] == bs[j + 1];
    }
  }

  /** What some numbers look like on the wire. */
  lemma OnTheWire()
    ensures Encode(0) == [0] && Encode(127) == [127] && Encode(128) == [128, 1]
    ensures Encode(300) == [172, 2] && Encode(32768) == [128, 128, 2] && Encode(65535) == [255, 255, 3]
  {
    assert Encode(1) == [1] && Encode(2) == [2] && Encode(3) == [3];
    assert Encode(256) == [128] + Encode(2) && Encode(511) == [255] + Encode(3);
  }

  // --- On streams and buffers ---

  /** Appends the encoding of n to buf, one byte per round. */
  method AppendUvarint(buf: seq<byte>, n: nat) returns (out: seq<byte>)
    ensures out == buf + Encode(n)
  {
    out := buf;
    var x := n;
    while x >= 128
      invariant buf + Encode(n) == out + Encode(x)
    {
      assert Encode(x) == [(128 + x % 128) as byte] + Encode(x / 128);
      out := out + [(128 + x % 128) as byte];
      x := x / 128;
    }
    out := out + [x as byte];
  }

  /** The number of bytes n takes is at most k when n has at most 7k bits. */
  lemma {:induction false} EncodedLength(n: nat)
    ensures n < 0x8_0000_0000 ==> |Encode(n)| <= 5
    ensures n < 0x1000_0000 ==> |Encode(n)| <= 4
    ensures n < 0x20_0000 ==> |Encode(n)| <= 3
    ensures n < 0x4000 ==> |Encode(n)| <= 2
    ensures n < 0x80 ==> |Encode(n)| == 1
    decreases n
  {
    if n >= 128 {
      EncodedLength(n / 128);
    }
  }

  /** Writes the encoding of n into buf from index off on and returns its length. */
  method PutUvarint(buf: array<byte>, off: nat, n: nat) returns (len: nat)
    requires off + |Encode(n)| <= buf.Length
    modifies buf
    ensures len == |Encode(n)|
    ensures buf[off..off + len] == Encode(n)
    ensures forall k | 0 <= k < buf.Length && !(off <= k < off + len) :: buf[k] == old(buf[k])
  {
    len := 0;
    var x := n;
    while x >= 128
      invariant off + len + |Encode(x)| <= buf.Length
      invariant Encode(n) == buf[off..off + len] + Encode(x)
      invariant forall k | 0 <= k < buf.Length && !(off <= k < off + len) :: buf[k] == old(buf[k])
    {
      ghost var before := buf[off..off + len];
      assert Encode(x) == [(128 + x % 128) as byte] + Encode(x / 128);
      buf[off + len] := (128 + x % 128) as byte;
      assert buf[off..off + len] == before;
      assert buf[off..off + len + 1] == before + [(128 + x % 128) as byte];
      len := len + 1;
      x := x / 128;
    }
    ghost var before := buf[off..off + len];
    buf[off + len] := x as byte;
    assert buf[off..off + len] == before;
    assert buf[off..off + len + 1] == before + [x as byte];
    len := len + 1;
  }

  /** p with x below it: w is the weight of the next seven bits. */
  ghost function Above(x: nat, w: nat, p: Parsed, started: bool): Parsed {
    match p
    case Value(v, rest) => Value(x + w * v, rest)
    case Short(_) => Short(started)
    case TooBig(rest) => TooBig(rest)
  }

  function Plus(x: nat, w: nat, b: nat): nat { x + w * b }

  lemma AboveStep(x: nat, w: nat, bs: seq<byte>, i: nat)
    requires i < MAX_LEN && bs != [] && bs[0] >= 128
    ensures Above(x, w, Decode(bs, i), true) ==
            Above(Plus(x, w, bs[0] as nat - 128), w * 128, Decode(bs[1..], i + 1), true)
  {
    match Decode(bs[1..], i + 1)
    case Value(v, _) => Distribute(w, bs[0] as nat - 128, v);
    case _ =>
  }

  lemma Distribute(w: nat, b: nat, v: nat)
    ensures w * (b + 128 * v) == w * b + w * 128 * v
  {
  }

  /** Reads one number, byte by byte. */
  method ReadUvarint(r: Source) returns (x: nat, err: Error)
    modifies r
    ensures match Decode(old(r.pending), 0)
            case Value(n, rest) => err == Nil && x == n && r.pending == rest
            case Short(started) => err == (if started then UnexpectedEOF else EOF) && r.pending == []
            case TooBig(rest) => err == Overflow && r.pending == rest
  {
    x := 0;
    var w: nat := 1;
    ghost var all := Decode(r.pending, 0);
    for i := 0 to MAX_LEN
      invariant all == Above(x, w, Decode(r.pending, i), i > 0 || r.pending != [])
    {
      ghost var bs := r.pending;
      var b, e := r.ReadByte();
      if e != Nil {
        return x, if i > 0 then UnexpectedEOF else e;
      }
      if b < 128 {
        if i == MAX_LEN - 1 && b > 1 {
          return x, Overflow;
        }
        return Plus(x, w, b as nat), Nil;
      }
      AboveStep(x, w, bs, i);
      x := Plus(x, w, b as nat - 128);
      w := w * 128;
    }
    return x, Overflow;
  }
}
