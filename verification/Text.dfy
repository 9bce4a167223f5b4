/**
 * The text forms a checkpoint and a text column rely on: integers as `render_text` of
 * src/builders.rs writes them, and `hex`. Each is undone by reading it back.
 */
module Text {
  import opened Wrappers
  import opened Rows
  import opened Query

  // ----------------------------------------------------------------------------- integers

  function DigitChar(d: nat): char
    requires d < 10
  {
    ('0' as int + d) as char
  }

  function DigitValue(c: char): Option<nat> {
    if '0' <= c <= '9' then Some(c as int - '0' as int) else None
  }

  /** The decimal digits, most significant first, without leading zeros. */
  function RenderNat(n: nat): (s: string)
    ensures s != "" && s[0] != '-'
  {
    if n < 10 then [DigitChar(n)] else RenderNat(n / 10) + [DigitChar(n % 10)]
  }

  function RenderInt(i: int): string {
    if i < 0 then "-" + RenderNat(-i) else RenderNat(i)
  }

  function ParseNat(s: string): Option<nat> {
    if s == "" then None
    else
      var last := DigitValue(s[|s| - 1]);
      if last.None? then None
      else if |s| == 1 then last
      else
        var front := ParseNat(s[..|s| - 1]);
        if front.None? then None else Some(10 * front.value + last.value)
  }

  /** A signed integer, as SQL Server reads one from a bound text value. */
  function ParseInt(s: string): Option<int> {
    var negative := s != "" && s[0] == '-';
    var digits: Option<int> := ParseNat(if negative then s[1..] else s);
    if digits.Some? && negative then Some(-digits.value) else digits
  }

  lemma {:induction false} NatReadsBack(n: nat)
    ensures ParseNat(RenderNat(n)) == Some(n)
  {
    if n >= 10 {
      NatReadsBack(n / 10);
      var s := RenderNat(n);
      assert s[..|s| - 1] == RenderNat(n / 10);
    }
  }

  /** Digits only, and a zero in front only when it is the one digit. */
  predicate PlainNat(s: string) {
    && s != ""
    && (forall j | 0 <= j < |s| :: '0' <= s[j] <= '9')
    && (|s| > 1 ==> s[0] != '0')
  }

  /** An integer written the one way: an optional sign, no leading zero, no negative zero. */
  predicate PlainInt(s: string) {
    PlainNat(s) || (s != "" && s[0] == '-' && PlainNat(s[1..]) && s[1..] != "0")
  }

  lemma {:induction false} NatIsPlain(n: nat)
    ensures PlainNat(RenderNat(n)) && (RenderNat(n)[0] == '0' ==> n == 0)
  {
    if n >= 10 {
      NatIsPlain(n / 10);
    }
  }

  /** A plain number has one text. */
  lemma {:induction false} PlainNatIsRendered(s: string)
    requires PlainNat(s)
    ensures ParseNat(s).Some? && s == RenderNat(ParseNat(s).value)
    ensures ParseNat(s) == Some(0) ==> s == "0"
    decreases |s|
  {
    var last := DigitValue(s[|s| - 1]);
    assert s == s[..|s| - 1] + [s[|s| - 1]];
    if |s| > 1 {
      var front := s[..|s| - 1];
      PlainNatIsRendered(front);
      var n := ParseNat(front).value;
      assert n != 0;
      assert (10 * n + last.value) / 10 == n && (10 * n + last.value) % 10 == last.value;
    }
  }

  /** Every integer is read back from its text, so no two share one; and that text is the only
      one without leading zeros that reads so. */
  lemma IntReadsBack(i: int)
    ensures ParseInt(RenderInt(i)) == Some(i)
    ensures forall s | PlainInt(s) && ParseInt(s) == Some(i) :: s == RenderInt(i)
    ensures PlainInt(RenderInt(i))
  {
    RenderedReadsBack(i);
    hide RenderInt, ParseInt, PlainInt;
    forall s | PlainInt(s) && ParseInt(s) == Some(i) ensures s == RenderInt(i) {
      PlainIntIsRendered(s);
    }
  }

  lemma RenderedReadsBack(i: int)
    ensures ParseInt(RenderInt(i)) == Some(i) && PlainInt(RenderInt(i))
  {
    var n := if i < 0 then -i else i;
    NatReadsBack(n);
    NatIsPlain(n);
    assert ("-" + RenderNat(n))[1..] == RenderNat(n);
    hide RenderNat, ParseNat;
  }

  lemma PlainIntIsRendered(s: string)
    requires PlainInt(s)
    ensures ParseInt(s).Some? && s == RenderInt(ParseInt(s).value)
  {
    hide RenderNat, ParseNat;
    if s[0] == '-' {
      PlainNatIsRendered(s[1..]);
      assert s == "-" + s[1..];
    } else {
      PlainNatIsRendered(s);
    }
  }

  /** The filter as the source applies it to the bound text. */
  predicate AboveText(r: Row, bound: Option<string>) {
    match bound
    case None => true
    case Some(text) => r.mark.Some? && ParseInt(text).Some? && r.mark.value > ParseInt(text).value
  }

  function Bound(from: Option<int>): Option<string> {
    if from.None? then None else Some(RenderInt(from.value))
  }

  /** Binding a checkpoint as text selects exactly the rows above the integer it stands for. */
  lemma TextFilterIsExact(r: Row, from: Option<int>)
    ensures AboveText(r, Bound(from)) <==> Above(r, from)
  {
    if from.Some? {
      IntReadsBack(from.value);
    }
  }

  // -------------------------------------------------------------------------------- bytes

  type byte = b: int | 0 <= b < 256

  function HexChar(d: nat): char
    requires d < 16
  {
    if d < 10 then ('0' as int + d) as char else ('a' as int + d - 10) as char
  }

  function HexValue(c: char): Option<nat> {
    if '0' <= c <= '9' then Some(c as int - '0' as int)
    else if 'a' <= c <= 'f' then Some(c as int - 'a' as int + 10)
    else None
  }

  /** `{b:02x}` */
  function HexByte(b: byte): string {
    [HexChar(b / 16), HexChar(b % 16)]
  }

  function Hex(bytes: seq<byte>): string {
    if bytes == [] then "" else Hex(bytes[..|bytes| - 1]) + HexByte(bytes[|bytes| - 1])
  }

  function Unhex(s: string): Option<seq<byte>> {
    if s == "" then Some([])
    else if |s| == 1 then None
    else
      var front, high, low := Unhex(s[..|s| - 2]), HexValue(s[|s| - 2]), HexValue(s[|s| - 1]);
      if front.None? || high.None? || low.None? then None
      else Some(front.value + [16 * high.value + low.value])
  }

  lemma ByteReadsBack(b: byte)
    ensures var s := HexByte(b);
            && |s| == 2 && HexValue(s[0]).Some? && HexValue(s[1]).Some?
            && 16 * HexValue(s[0]).value + HexValue(s[1]).value == b as int
  {
  }

  /** Two characters a byte, and the bytes come back. */
  lemma {:induction false} HexReadsBack(bytes: seq<byte>)
    ensures |Hex(bytes)| == 2 * |bytes|
    ensures Unhex(Hex(bytes)) == Some(bytes)
  {
    if bytes != [] {
      var n := |bytes| - 1;
      HexReadsBack(bytes[..n]);
      var s, last := Hex(bytes), bytes[n];
      ByteReadsBack(last);
      hide HexByte, HexValue;
      assert s == Hex(bytes[..n]) + HexByte(last) && s[..|s| - 2] == Hex(bytes[..n]);
      assert bytes == bytes[..n] + [last];
    }
  }

  lemma HexValueOnce(c: char, c': char)
    requires HexValue(c).Some?
    ensures HexValue(c).value < 16 && (HexValue(c) == HexValue(c') ==> c == c')
  {
  }

  lemma UnhexLast(s: string)
    requires Unhex(s).Some? && s != ""
    ensures |s| >= 2
    ensures var n := |s| - 2;
            && Unhex(s[..n]).Some? && HexValue(s[n]).Some? && HexValue(s[n + 1]).Some?
            && Unhex(s).value == Unhex(s[..n]).value + [16 * HexValue(s[n]).value + HexValue(s[n + 1]).value]
  {
  }

  lemma SplitOnce<T>(a: seq<T>, x: T, b: seq<T>, y: T)
    requires a + [x] == b + [y]
    ensures a == b && x == y
  {
    assert (a + [x])[..|a|] == a && (b + [y])[..|b|] == b;
    assert (a + [x])[|a|] == x && (b + [y])[|b|] == y;
  }

  /** Hex text is read one way. */
  lemma {:induction false} UnhexOnce(s: string, s': string)
    requires Unhex(s).Some? && Unhex(s) == Unhex(s')
    ensures s == s'
    decreases |s|
  {
    hide Unhex, HexValue;
    if s == "" || s' == "" {
      EmptyHex(s);
      EmptyHex(s');
    } else {
      var n, n' := |s| - 2, |s'| - 2;
      UnhexLast(s);
      UnhexLast(s');
      SplitOnce<int>(Unhex(s[..n]).value, 16 * HexValue(s[n]).value + HexValue(s[n + 1]).value,
                Unhex(s'[..n']).value, 16 * HexValue(s'[n']).value + HexValue(s'[n' + 1]).value);
      UnhexOnce(s[..n], s'[..n']);
      HexValueOnce(s[n], s'[n']);
      HexValueOnce(s'[n'], s[n]);
      HexValueOnce(s[n + 1], s'[n' + 1]);
      HexValueOnce(s'[n' + 1], s[n + 1]);
      assert s == s[..n] + [s[n], s[n + 1]] && s' == s'[..n'] + [s'[n'], s'[n' + 1]];
    }
  }

  lemma EmptyHex(s: string)
    requires Unhex(s).Some?
    ensures Unhex(s).value == [] <==> s == ""
  {
    if s != "" {
      UnhexLast(s);
    }
  }

  /** `hex` */
  method ToHex(bytes: seq<byte>) returns (out: string)
    ensures out == Hex(bytes)
  {
    out := "";
    var i := 0;
    while i < |bytes|
      invariant i <= |bytes| && out == Hex(bytes[..i])
    {
      assert bytes[..i + 1][..i] == bytes[..i];
      out := out + HexByte(bytes[i]);
      i := i + 1;
    }
    assert bytes[..i] == bytes;
  }
}
