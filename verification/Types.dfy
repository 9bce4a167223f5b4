/** Column types: the catalog's names of src/types.rs and the Arrow types of src/builders.rs. */
module Types {
  import opened Wrappers
  import opened Names

  datatype SqlType =
    | SmallInt | Integer | BigInt | TinyInt | Real | Double
    | Decimal(precision: nat, scale: int)
    | Bit | Date | Time | Timestamp | TimestampOffset | Binary | Text

  datatype ResolvedType = ResolvedType(sql: SqlType, recognised: bool, source: string)

  const MAX_DECIMAL_PRECISION := 38

  function ToU8(n: int): Option<nat> {
    if 0 <= n < 256 then Some(n) else None
  }

  function ToI8(n: int): Option<int> {
    if -128 <= n < 128 then Some(n) else None
  }

  function DecimalFits(precision: int, scale: int): Option<(nat, int)> {
    var p, s := ToU8(precision), ToI8(scale);
    if p.None? || s.None? then None
    else if !(1 <= p.value <= MAX_DECIMAL_PRECISION) then None
    else if s.value < 0 || s.value > p.value then None
    else Some((p.value, s.value))
  }

  /** A decimal column Arrow can hold. */
  predicate ValidDecimal(precision: int, scale: int) {
    1 <= precision <= MAX_DECIMAL_PRECISION && 0 <= scale <= precision
  }

  function TrimStart(s: string): string {
    if s != "" && IsWhitespace(s[0]) then TrimStart(s[1..]) else s
  }

  function TrimBack(s: string): string {
    if s != "" && IsWhitespace(s[|s| - 1]) then TrimBack(s[..|s| - 1]) else s
  }

  /** Only blanks lie before `a` and from `b` on, and none at either end of what is between. */
  predicate Trims(s: string, a: nat, b: nat) {
    && a <= b <= |s| && Blank(s[..a]) && Blank(s[b..])
    && (a < b ==> !IsWhitespace(s[a]) && !IsWhitespace(s[b - 1]))
  }

  lemma {:induction false} StartTrimmed(s: string) returns (a: nat)
    ensures a <= |s| && Blank(s[..a]) && TrimStart(s) == s[a..] && (a < |s| ==> !IsWhitespace(s[a]))
  {
    if s != "" && IsWhitespace(s[0]) {
      var rest := StartTrimmed(s[1..]);
      a := rest + 1;
      assert s[1..][rest..] == s[a..];
      forall i | 0 <= i < a ensures IsWhitespace(s[..a][i]) {
        assert i > 0 ==> s[..a][i] == s[1..][..rest][i - 1];
      }
    } else {
      a := 0;
    }
  }

  lemma {:induction false} BackTrimmed(s: string) returns (b: nat)
    ensures b <= |s| && Blank(s[b..]) && TrimBack(s) == s[..b] && (0 < b ==> !IsWhitespace(s[b - 1]))
  {
    if s != "" && IsWhitespace(s[|s| - 1]) {
      var n := |s| - 1;
      b := BackTrimmed(s[..n]);
      assert s[..n][..b] == s[..b];
      forall i | 0 <= i < |s| - b ensures IsWhitespace(s[b..][i]) {
        assert b + i < n ==> s[b..][i] == s[..n][b..][i];
      }
    } else {
      b := |s|;
    }
  }

  /** `trim().to_ascii_lowercase()` */
  function Normalised(s: string): string {
    var t := TrimBack(TrimStart(s));
    seq(|t|, i requires 0 <= i < |t| => Lower(t[i]))
  }

  /** A catalog name is compared without the blanks around it, and in any case. */
  lemma NormalisedExactly(s: string) returns (a: nat, b: nat)
    ensures Trims(s, a, b)
    ensures Normalised(s) == seq(b - a, i requires 0 <= i < b - a => Lower(s[a + i]))
  {
    a := StartTrimmed(s);
    var t := s[a..];
    var end := BackTrimmed(t);
    b := a + end;
    assert t[..end] == s[a..b] && t[end..] == s[b..];
    assert end > 0 ==> t[end - 1] == s[b - 1];
    if end == 0 {
      assert Blank(s[..a]);
    }
  }

  function Known(name: string, precision: Option<int>, scale: Option<int>): Option<SqlType> {
    if name == "smallint" then Some(SmallInt)
    else if name == "int" then Some(Integer)
    else if name == "bigint" then Some(BigInt)
    else if name == "tinyint" then Some(TinyInt)
    else if name == "real" then Some(Real)
    else if name in ["float", "money", "smallmoney"] then Some(Double)
    else if name in ["decimal", "numeric"] then
      if precision.None? || scale.None? then None
      else
        var fits := DecimalFits(precision.value, scale.value);
        if fits.None? then None else Some(Decimal(fits.value.0, fits.value.1))
    else if name == "bit" then Some(Bit)
    else if name == "date" then Some(Date)
    else if name == "time" then Some(Time)
    else if name in ["datetime", "datetime2", "smalldatetime"] then Some(Timestamp)
    else if name == "datetimeoffset" then Some(TimestampOffset)
    else if name in ["binary", "varbinary", "image", "timestamp", "rowversion"] then Some(Binary)
    else if name in ["char", "varchar", "text", "nchar", "nvarchar", "ntext"] then Some(Text)
    else if name in ["uniqueidentifier", "xml"] then Some(Text)
    else None
  }

  function Resolve(dataType: string, precision: Option<int>, scale: Option<int>): ResolvedType {
    var sql := Known(Normalised(dataType), precision, scale);
    if sql.Some? then ResolvedType(sql.value, true, dataType) else ResolvedType(Text, false, dataType)
  }

  lemma TextNames(name: string, precision: Option<int>, scale: Option<int>)
    requires name in ["char", "varchar", "text", "nchar", "nvarchar", "ntext"]
    ensures Known(name, precision, scale) == Some(Text)
  {
    hide DecimalFits;
  }

  lemma RenderedNames(name: string, precision: Option<int>, scale: Option<int>)
    requires name in ["uniqueidentifier", "xml"]
    ensures Known(name, precision, scale) == Some(Text)
  {
    hide DecimalFits;
  }

  lemma TimeName(precision: Option<int>, scale: Option<int>)
    ensures Known("time", precision, scale) == Some(Time)
  {
    hide DecimalFits;
  }

  lemma ByteNames(name: string, precision: Option<int>, scale: Option<int>)
    requires name in ["binary", "varbinary", "image", "timestamp", "rowversion"]
    ensures Known(name, precision, scale) == Some(Binary)
  {
    hide DecimalFits;
  }

  /** A column resolves to a decimal exactly when the catalog calls it one and declares a
      precision and scale Arrow can hold, and then to that precision and scale. */
  lemma ResolvedDecimal(dataType: string, precision: Option<int>, scale: Option<int>)
    ensures var t := Resolve(dataType, precision, scale).sql;
            && (t.Decimal? <==>
                  && Normalised(dataType) in ["decimal", "numeric"]
                  && precision.Some? && scale.Some? && ValidDecimal(precision.value, scale.value))
            && (t.Decimal? ==> t == Decimal(precision.value, scale.value))
  {
    var name := Normalised(dataType);
    hide Normalised;
    assert name in ["decimal", "numeric"] ==> name[0] in "dn" && name[1] in "eu";
  }

  datatype ArrowType =
    | Int16 | Int32 | Int64 | Float64 | Decimal128(precision: nat, scale: int) | Boolean | Date32
    | TimestampMicrosUtc | BinaryBytes | Utf8

  function ArrowTypeOf(t: SqlType): ArrowType {
    match t
    case SmallInt => Int16
    case TinyInt => Int16
    case Integer => Int32
    case BigInt => Int64
    case Real => Float64
    case Double => Float64
    case Decimal(precision, scale) => Decimal128(precision, scale)
    case Bit => Boolean
    case Date => Date32
    case Time => Utf8
    case Timestamp => TimestampMicrosUtc
    case TimestampOffset => TimestampMicrosUtc
    case Binary => BinaryBytes
    case Text => Utf8
  }
}
