/** Base 64 encoding with the standard alphabet and padding, as defined in
    section 4 of RFC 4648.  The encoder renders ASCII text; the decoder is
    its partner and is proved to undo it. */
module Base64 {
  import opened Wrappers

  newtype byte = x: int | 0 <= x < 256

  /** A value of one base 64 digit: six bits. */
  type sextet = x: int | 0 <= x < 64

  const Pad: char := '='

  /** The character of the standard alphabet for value `i` (Table 1 of RFC 4648). */
  function CharOf(i: sextet): (c: char)
    ensures IsAlphabetChar(c) && IndexOf(c) == i
    ensures c != Pad && c as int < 128
  {
    if i < 26 then ('A' as int + i) as char
    else if i < 52 then ('a' as int + (i - 26)) as char
    else if i < 62 then ('0' as int + (i - 52)) as char
    else if i == 62 then '+'
    else '/'
  }

  predicate IsAlphabetChar(c: char) {
    ('A' <= c <= 'Z') || ('a' <= c <= 'z') || ('0' <= c <= '9') || c == '+' || c == '/'
  }

  /** The value of an alphabet character. */
  function IndexOf(c: char): sextet
    requires IsAlphabetChar(c)
  {
    if 'A' <= c <= 'Z' then c as int - 'A' as int
    else if 'a' <= c <= 'z' then c as int - 'a' as int + 26
    else if '0' <= c <= '9' then c as int - '0' as int + 52
    else if c == '+' then 62
    else 63
  }

  /** The four characters of one full 24-bit group: read as four 6-bit
      values, most significant first, they spell the group's 24 bits
      (section 4 of RFC 4648). */
  function EncodeGroup(b0: byte, b1: byte, b2: byte): (q: string)
    ensures |q| == 4
    ensures forall k :: 0 <= k < 4 ==> IsAlphabetChar(q[k])
    ensures IndexOf(q[0]) * 262144 + IndexOf(q[1]) * 4096 + IndexOf(q[2]) * 64 + IndexOf(q[3])
            == b0 as int * 65536 + b1 as int * 256 + b2 as int
  {
    [CharOf(b0 as int / 4),
     CharOf((b0 as int % 4) * 16 + b1 as int / 16),
     CharOf((b1 as int % 16) * 4 + b2 as int / 64),
     CharOf(b2 as int % 64)]
  }

  /** Encoding of a byte string: full groups first, the final one or two
      bytes padded with `=` to a whole quantum. */
  function Encode(b: seq<byte>): (s: string)
    ensures |s| == 4 * ((|b| + 2) / 3)
    decreases |b|
  {
    if |b| == 0 then ""
    else if |b| == 1 then EncodeGroup(b[0], 0, 0)[..2] + [Pad, Pad]
    else if |b| == 2 then EncodeGroup(b[0], b[1], 0)[..3] + [Pad]
    else EncodeGroup(b[0], b[1], b[2]) + Encode(b[3..])
  }

  /** The quanta rule of section 4 of RFC 4648: full 24-bit groups are
      encoded in order; a final quantum of 16 bits gives three characters
      (two zero bits appended) and one `=`; a final quantum of 8 bits gives
      two characters (four zero bits appended) and `==`. */
  lemma EncodeQuanta(b: seq<byte>)
    ensures var s := Encode(b);
      && (|b| >= 3 ==> s[..4] == EncodeGroup(b[0], b[1], b[2]) && s[4..] == Encode(b[3..]))
      && (|b| == 2 ==> IsAlphabetChar(s[0]) && IsAlphabetChar(s[1]) && IsAlphabetChar(s[2]) && s[3] == Pad
                       && IndexOf(s[0]) * 4096 + IndexOf(s[1]) * 64 + IndexOf(s[2])
                          == b[0] as int * 1024 + b[1] as int * 4)
      && (|b| == 1 ==> IsAlphabetChar(s[0]) && IsAlphabetChar(s[1]) && s[2] == Pad && s[3] == Pad
                       && IndexOf(s[0]) * 64 + IndexOf(s[1]) == b[0] as int * 16)
  {
    var s := Encode(b);
    if |b| >= 3 {
      assert s == EncodeGroup(b[0], b[1], b[2]) + Encode(b[3..]);
    } else if |b| == 2 {
      var g := EncodeGroup(b[0], b[1], 0);
      assert s[..3] == g[..3];
    } else if |b| == 1 {
      var g := EncodeGroup(b[0], 0, 0);
      assert s[..2] == g[..2];
    }
  }

  /** Three bytes from four alphabet characters. */
  function DecodeGroup(c0: char, c1: char, c2: char, c3: char): seq<byte>
    requires IsAlphabetChar(c0) && IsAlphabetChar(c1) && IsAlphabetChar(c2) && IsAlphabetChar(c3)
  {
    var i0, i1, i2, i3 := IndexOf(c0), IndexOf(c1), IndexOf(c2), IndexOf(c3);
    [(i0 * 4 + i1 / 16) as byte, ((i1 % 16) * 16 + i2 / 4) as byte, ((i2 % 4) * 64 + i3) as byte]
  }

  /** A quantum with no padding. */
  function DecodeFull(q: string): Option<seq<byte>>
    requires |q| == 4
  {
    if IsAlphabetChar(q[0]) && IsAlphabetChar(q[1]) && IsAlphabetChar(q[2]) && IsAlphabetChar(q[3])
    then Some(DecodeGroup(q[0], q[1], q[2], q[3]))
    else None
  }

  /** The final quantum, which may end in one or two pad characters. */
  function DecodeLast(q: string): Option<seq<byte>>
    requires |q| == 4
  {
    if q[2] == Pad && q[3] == Pad then
      if IsAlphabetChar(q[0]) && IsAlphabetChar(q[1]) then Some(DecodeGroup(q[0], q[1], 'A', 'A')[..1]) else None
    else if q[3] == Pad then
      if IsAlphabetChar(q[0]) && IsAlphabetChar(q[1]) && IsAlphabetChar(q[2])
      then Some(DecodeGroup(q[0], q[1], q[2], 'A')[..2]) else None
    else DecodeFull(q)
  }

  /** Decoding; `None` for text that is not a padded base 64 encoding. */
  function Decode(s: string): Option<seq<byte>>
    decreases |s|
  {
    if |s| == 0 then Some([])
    else if |s| < 4 then None
    else if |s| == 4 then DecodeLast(s)
    else Join(DecodeFull(s[..4]), Decode(s[4..]))
  }

  /** The bytes of two decoded parts, if both decoded. */
  function Join(a: Option<seq<byte>>, b: Option<seq<byte>>): Option<seq<byte>> {
    if a.Some? && b.Some? then Some(a.value + b.value) else None
  }

  /** The six-bit split of three bytes can be put back together. */
  lemma SextetsRejoin(b0: int, b1: int, b2: int)
    requires 0 <= b0 < 256 && 0 <= b1 < 256 && 0 <= b2 < 256
    ensures var i0, i1, i2, i3 := b0 / 4, (b0 % 4) * 16 + b1 / 16, (b1 % 16) * 4 + b2 / 64, b2 % 64;
      && i0 * 4 + i1 / 16 == b0
      && (i1 % 16) * 16 + i2 / 4 == b1
      && (i2 % 4) * 64 + i3 == b2
  {
  }

  lemma GroupRoundTrip(b0: byte, b1: byte, b2: byte)
    ensures var q := EncodeGroup(b0, b1, b2);
      DecodeGroup(q[0], q[1], q[2], q[3]) == [b0, b1, b2]
  {
    var q := EncodeGroup(b0, b1, b2);
    var i0, i1, i2, i3 := b0 as int / 4, (b0 as int % 4) * 16 + b1 as int / 16,
                          (b1 as int % 16) * 4 + b2 as int / 64, b2 as int % 64;
    assert IndexOf(q[0]) == i0 && IndexOf(q[1]) == i1 && IndexOf(q[2]) == i2 && IndexOf(q[3]) == i3;
    SextetsRejoin(b0 as int, b1 as int, b2 as int);
  }

  /** The encoding is ASCII text over the alphabet and the pad character,
      and padding only ever ends it. */
  lemma {:induction false} EncodeIsAscii(b: seq<byte>)
    ensures var s := Encode(b);
      forall i :: 0 <= i < |s| ==> (IsAlphabetChar(s[i]) || s[i] == Pad) && s[i] as int < 128
    ensures var s := Encode(b);
      forall i :: 0 <= i < |s| - 2 ==> s[i] != Pad
    decreases |b|
  {
    if |b| >= 3 {
      EncodeIsAscii(b[3..]);
      var g := EncodeGroup(b[0], b[1], b[2]);
      var s := Encode(b);
      assert s == g + Encode(b[3..]);
      forall i | 0 <= i < |s|
        ensures (IsAlphabetChar(s[i]) || s[i] == Pad) && s[i] as int < 128
        ensures i < |s| - 2 ==> s[i] != Pad
      {
        if i >= 4 { assert s[i] == Encode(b[3..])[i - 4]; }
      }
    }
  }

  lemma DecodeEncodeOne(b0: byte)
    ensures Decode(Encode([b0])) == Some([b0])
  {
    var s := Encode([b0]);
    var g := EncodeGroup(b0, 0, 0);
    GroupRoundTrip(b0, 0, 0);
    assert g[2] == 'A' && g[3] == 'A';
    assert s[0] == g[0] && s[1] == g[1] && s[2] == Pad && s[3] == Pad;
    assert DecodeGroup(s[0], s[1], 'A', 'A')[..1] == [b0, 0, 0][..1] == [b0];
  }

  lemma DecodeEncodeTwo(b0: byte, b1: byte)
    ensures Decode(Encode([b0, b1])) == Some([b0, b1])
  {
    var s := Encode([b0, b1]);
    var g := EncodeGroup(b0, b1, 0);
    GroupRoundTrip(b0, b1, 0);
    assert g[3] == 'A';
    assert s[0] == g[0] && s[1] == g[1] && s[2] == g[2] && s[3] == Pad && s[2] != Pad;
    assert DecodeGroup(s[0], s[1], s[2], 'A')[..2] == [b0, b1, 0][..2] == [b0, b1];
  }

  lemma DecodeEncodeThree(b0: byte, b1: byte, b2: byte)
    ensures Decode(Encode([b0, b1, b2])) == Some([b0, b1, b2])
  {
    var b := [b0, b1, b2];
    var g := EncodeGroup(b0, b1, b2);
    GroupRoundTrip(b0, b1, b2);
    assert b[3..] == [];
    assert Encode(b) == g + Encode([]) == g;
    assert g[2] != Pad && g[3] != Pad;
    assert DecodeLast(g) == DecodeFull(g) == Some(b);
  }

  lemma TakeDrop(b: seq<byte>, k: nat)
    requires k <= |b|
    ensures b[..k] + b[k..] == b
  {
  }

  lemma HeadGroupRoundTrip(b: seq<byte>)
    requires |b| >= 3
    ensures var g := EncodeGroup(b[0], b[1], b[2]);
      DecodeGroup(g[0], g[1], g[2], g[3]) == b[..3]
  {
    GroupRoundTrip(b[0], b[1], b[2]);
    assert b[..3] == [b[0], b[1], b[2]];
  }

  /** A leading full group decodes to its three bytes, and the rest decodes on. */
  lemma DecodeEncodeStep(b: seq<byte>)
    requires |b| > 3
    requires Decode(Encode(b[3..])) == Some(b[3..])
    ensures Decode(Encode(b)) == Some(b)
  {
    var rest := Encode(b[3..]);
    var g := EncodeGroup(b[0], b[1], b[2]);
    var s := g + rest;
    var head := b[..3];
    assert Encode(b) == s;
    assert DecodeFull(g) == Some(head) by {
      HeadGroupRoundTrip(b);
    }
    assert Decode(s) == Join(DecodeFull(g), Decode(rest)) by {
      assert |s| > 4;
      assert s[..4] == g && s[4..] == rest;
    }
    TakeDrop(b, 3);
  }

  /** Decoding undoes encoding, for every byte string. */
  lemma {:induction false} DecodeEncode(b: seq<byte>)
    ensures Decode(Encode(b)) == Some(b)
    decreases |b|
  {
    if |b| == 1 {
      assert b == [b[0]];
      DecodeEncodeOne(b[0]);
    } else if |b| == 2 {
      assert b == [b[0], b[1]];
      DecodeEncodeTwo(b[0], b[1]);
    } else if |b| == 3 {
      assert b == [b[0], b[1], b[2]];
      DecodeEncodeThree(b[0], b[1], b[2]);
    } else if |b| > 3 {
      DecodeEncode(b[3..]);
      DecodeEncodeStep(b);
    }
  }

  /** Encodings of distinct byte strings are distinct. */
  lemma EncodeInjective(a: seq<byte>, b: seq<byte>)
    ensures Encode(a) == Encode(b) ==> a == b
  {
    DecodeEncode(a);
    DecodeEncode(b);
  }
}
