/**
 * From fetched rows to columns: the builders of src/builders.rs and the nested loop of
 * `record_batch` over them.
 */
module RecordBatches {
  import opened Wrappers
  import opened Types
  import opened Decimals
  import T = Text

  // ------------------------------------------------------------------------------- cells

  /** A decoded value whose text chrono, uuid or the float formatter decides. */
  datatype Shown<+V> = Shown(value: V, text: string)

  type int16 = i: int | -0x8000 <= i < 0x8000
  type int32 = i: int | -I32_LIMIT <= i < I32_LIMIT
  type int64 = i: int | -I64_LIMIT <= i < I64_LIMIT
  type decoded = n: Numeric | Decoded(n) witness Numeric(0, 0)
  type instant = at: Instant | InCalendar(at) witness Instant(0, 0)
  type day = d: int | MIN_DAY <= d <= MAX_DAY

  /** tiberius's decoded cell: NULL is a variant's `None`, whichever variant carries it. */
  datatype CellData =
    | U8(u8: Option<T.byte>)
    | I16(i16: Option<int16>)
    | I32(i32: Option<int32>)
    | I64(i64: Option<int64>)
    | F32(f32: Option<Shown<real>>)
    | F64(f64: Option<Shown<real>>)
    | Bit(bit: Option<bool>)
    | Str(str: Option<string>)
    | Guid(guid: Option<string>)
    | Bytes(bytes: Option<seq<T.byte>>)
    | Num(num: Option<Shown<decoded>>)
    | Xml(xml: Option<string>)
    | DateTime(dateTime: Option<Shown<instant>>)
    | SmallDateTime(smallDateTime: Option<Shown<instant>>)
    | DateTime2(dateTime2: Option<Shown<instant>>)
    | DateTimeOffset(dateTimeOffset: Option<Shown<instant>>)
    | DateOnly(date: Option<Shown<day>>)
    | TimeOnly(time: Option<string>)

  predicate IsNull(d: CellData) {
    match d
    case U8(v) => v.None?
    case I16(v) => v.None?
    case I32(v) => v.None?
    case I64(v) => v.None?
    case F32(v) => v.None?
    case F64(v) => v.None?
    case Bit(v) => v.None?
    case Str(v) => v.None?
    case Guid(v) => v.None?
    case Bytes(v) => v.None?
    case Num(v) => v.None?
    case Xml(v) => v.None?
    case DateTime(v) => v.None?
    case SmallDateTime(v) => v.None?
    case DateTime2(v) => v.None?
    case DateTimeOffset(v) => v.None?
    case DateOnly(v) => v.None?
    case TimeOnly(v) => v.None?
  }

  function TextOf<V>(v: Option<Shown<V>>): Option<string> {
    if v.None? then None else Some(v.value.text)
  }

  function RenderText(d: CellData): Option<string> {
    match d
    case U8(v) => if v.None? then None else Some(T.RenderInt(v.value))
    case I16(v) => if v.None? then None else Some(T.RenderInt(v.value))
    case I32(v) => if v.None? then None else Some(T.RenderInt(v.value))
    case I64(v) => if v.None? then None else Some(T.RenderInt(v.value))
    case F32(v) => TextOf(v)
    case F64(v) => TextOf(v)
    case Bit(v) => if v.None? then None else Some(if v.value then "true" else "false")
    case Str(v) => v
    case Guid(v) => v
    case Bytes(v) => if v.None? then None else Some(T.Hex(v.value))
    case Num(v) => TextOf(v)
    case Xml(v) => v
    case DateTime(v) => TextOf(v)
    case SmallDateTime(v) => TextOf(v)
    case DateTime2(v) => TextOf(v)
    case DateTimeOffset(v) => TextOf(v)
    case DateOnly(v) => TextOf(v)
    case TimeOnly(v) => v
  }

  // ------------------------------------------------------------------------- conversions

  /** One slot of a built column. */
  datatype Entry = Whole(i: int) | Float(f: real) | Truth(b: bool) | Raw(raw: seq<T.byte>) | Words(s: string)

  datatype Expected = Integer16 | Integer32 | Integer64 | FloatingPoint | DecimalNumber | TrueOrFalse | CalendarDate
                    | TimestampValue | BinaryValue

  /** Which builder a column gets; a decimal Arrow cannot hold falls back to text. */
  datatype Kind =
    | Int16Kind | Int32Kind | Int64Kind | Float64Kind | DecimalKind(precision: nat, scale: int)
    | BooleanKind | DateKind | TimestampKind | BinaryKind | Utf8Kind

  /** `Decimal128Builder::with_precision_and_scale` */
  predicate BuilderTakes(precision: int, scale: int) {
    1 <= precision <= MAX_DECIMAL_PRECISION && scale <= precision
  }

  function KindFor(t: SqlType): Kind {
    match t
    case SmallInt => Int16Kind
    case TinyInt => Int16Kind
    case Integer => Int32Kind
    case BigInt => Int64Kind
    case Real => Float64Kind
    case Double => Float64Kind
    case Decimal(precision, scale) => if BuilderTakes(precision, scale) then DecimalKind(precision, scale) else Utf8Kind
    case Bit => BooleanKind
    case Date => DateKind
    case Time => Utf8Kind
    case Timestamp => TimestampKind
    case TimestampOffset => TimestampKind
    case Binary => BinaryKind
    case Text => Utf8Kind
  }

  /** The type of the array a builder finishes into. */
  function BuiltType(k: Kind): ArrowType {
    match k
    case Int16Kind => Int16
    case Int32Kind => Int32
    case Int64Kind => Int64
    case Float64Kind => Float64
    case DecimalKind(precision, scale) => Decimal128(precision, scale)
    case BooleanKind => Boolean
    case DateKind => Date32
    case TimestampKind => TimestampMicrosUtc
    case BinaryKind => BinaryBytes
    case Utf8Kind => Utf8
  }

  function AsWhole(v: Option<int>, e: Expected): Result<Option<Entry>, Expected> {
    if v.Some? then Ok(Some(Whole(v.value))) else Err(e)
  }

  /** A zone-less instant or one with an offset, already in UTC. */
  function InstantOf(d: CellData): Option<instant> {
    match d
    case DateTime(Some(at)) => Some(at.value)
    case SmallDateTime(Some(at)) => Some(at.value)
    case DateTime2(Some(at)) => Some(at.value)
    case DateTimeOffset(Some(at)) => Some(at.value)
    case _ => None
  }

  /** What `append` puts into a column of kind `k` for one cell, or what it expected instead. */
  function Converted(k: Kind, d: CellData): Result<Option<Entry>, Expected> {
    if IsNull(d) then Ok(None)
    else
      match k
      case Int16Kind => AsWhole(if d.I16? then d.i16 else if d.U8? then d.u8 else None, Integer16)
      case Int32Kind => AsWhole(if d.I32? then d.i32 else None, Integer32)
      case Int64Kind => AsWhole(if d.I64? then d.i64 else None, Integer64)
      case Float64Kind =>
        if d.F64? then Ok(Some(Float(d.f64.value.value)))
        else if d.F32? then Ok(Some(Float(d.f32.value.value)))
        else Err(FloatingPoint)
      case DecimalKind(precision, scale) =>
        AsWhole(if d.Num? then Unscaled(d.num.value.value, precision, scale) else None, DecimalNumber)
      case BooleanKind => if d.Bit? then Ok(Some(Truth(d.bit.value))) else Err(TrueOrFalse)
      case DateKind => AsWhole(if d.DateOnly? then DaysSinceEpoch(d.date.value.value) else None, CalendarDate)
      case TimestampKind =>
        var at := InstantOf(d);
        AsWhole(if at.Some? then MicrosSinceEpoch(at.value) else None, TimestampValue)
      case BinaryKind => if d.Bytes? then Ok(Some(Raw(d.bytes.value))) else Err(BinaryValue)
      case Utf8Kind => Ok(if RenderText(d).Some? then Some(Words(RenderText(d).value)) else None)
  }

  /** What Arrow's type for a column of this kind can hold. */
  predicate Fits(k: Kind, e: Entry) {
    match k
    case Int16Kind => e.Whole? && Within(e.i, 0x8000)
    case Int32Kind => e.Whole? && Within(e.i, I32_LIMIT)
    case Int64Kind => e.Whole? && Within(e.i, I64_LIMIT)
    case Float64Kind => e.Float?
    case DecimalKind(precision, _) => e.Whole? && Abs(e.i) < Pow10(precision)
    case BooleanKind => e.Truth?
    case DateKind => e.Whole? && Within(e.i, I32_LIMIT)
    case TimestampKind => e.Whole? && Within(e.i, I64_LIMIT)
    case BinaryKind => e.Raw?
    case Utf8Kind => e.Words?
  }

  /** Whatever is appended to a column is of its type and in its range. */
  lemma EntriesFit(t: SqlType, d: CellData)
    requires t.Decimal? ==> ValidDecimal(t.precision, t.scale)
    requires Converted(KindFor(t), d).Ok? && !IsNull(d)
    ensures Converted(KindFor(t), d).value.Some? && Fits(KindFor(t), Converted(KindFor(t), d).value.value)
  {
    if t.Decimal? {
      StoredIsSame(d.num.value.value, t.precision, t.scale);
    }
  }

  /** A NULL goes into any column as a NULL, whichever variant carries it, and nothing else
      becomes one. */
  lemma NullsStayNull(k: Kind, d: CellData)
    ensures Converted(k, d) == Ok(None) <==> IsNull(d)
    ensures RenderText(d).None? <==> IsNull(d)
  {
  }

  // ------------------------------------------------------------------------ what is stored

  /** `s` is the text of this cell: an integer without leading zeros, bytes as hex, anything
      else as its own formatter shows it. */
  predicate Says(s: string, d: CellData) {
    match d
    case U8(Some(v)) => T.PlainInt(s) && T.ParseInt(s) == Some(v)
    case I16(Some(v)) => T.PlainInt(s) && T.ParseInt(s) == Some(v)
    case I32(Some(v)) => T.PlainInt(s) && T.ParseInt(s) == Some(v)
    case I64(Some(v)) => T.PlainInt(s) && T.ParseInt(s) == Some(v)
    case Bit(Some(v)) => s == if v then "true" else "false"
    case Bytes(Some(v)) => |s| == 2 * |v| && T.Unhex(s) == Some(v)
    case F32(Some(v)) => s == v.text
    case F64(Some(v)) => s == v.text
    case Num(Some(v)) => s == v.text
    case DateTime(Some(v)) => s == v.text
    case SmallDateTime(Some(v)) => s == v.text
    case DateTime2(Some(v)) => s == v.text
    case DateTimeOffset(Some(v)) => s == v.text
    case DateOnly(Some(v)) => s == v.text
    case Str(v) => v == Some(s)
    case Guid(v) => v == Some(s)
    case Xml(v) => v == Some(s)
    case TimeOnly(v) => v == Some(s)
    case _ => false
  }

  /** `i` microseconds after the epoch are this instant. */
  predicate IsMicros(i: int, at: Instant) {
    i - at.micros == at.seconds * 1_000_000
  }

  /** What an entry means in a column of Arrow type `a`: the value of the cell, as the number,
      the rational, the day, the instant, the truth value, the bytes or the text it is. */
  predicate Denotes(a: ArrowType, e: Entry, d: CellData) {
    match e
    case Truth(b) => a == Boolean && d == CellData.Bit(Some(b))
    case Raw(raw) => a == BinaryBytes && d == Bytes(Some(raw))
    case Float(f) =>
      && a == Float64
      && ((d.F32? && d.f32.Some? && d.f32.value.value == f) || (d.F64? && d.f64.Some? && d.f64.value.value == f))
    case Words(s) => a == Utf8 && Says(s, d)
    case Whole(i) =>
      match d
      case U8(v) => a == Int16 && v == Some(i)
      case I16(v) => a == Int16 && v == Some(i)
      case I32(v) => a == Int32 && v == Some(i)
      case I64(v) => a == Int64 && v == Some(i)
      case Num(Some(n)) =>
        a.Decimal128? && a.scale >= 0 && i * Pow10(n.value.scale) == n.value.value * Pow10(a.scale)
      case DateOnly(Some(v)) => a == Date32 && i == v.value
      case DateTime(Some(at)) => a == TimestampMicrosUtc && IsMicros(i, at.value)
      case SmallDateTime(Some(at)) => a == TimestampMicrosUtc && IsMicros(i, at.value)
      case DateTime2(Some(at)) => a == TimestampMicrosUtc && IsMicros(i, at.value)
      case DateTimeOffset(Some(at)) => a == TimestampMicrosUtc && IsMicros(i, at.value)
      case _ => false
  }

  /** Every entry that is not a NULL denotes its cell. */
  lemma EntryDenotes(k: Kind, d: CellData)
    requires Converted(k, d).Ok? && !IsNull(d)
    ensures Converted(k, d).value.Some? && Denotes(BuiltType(k), Converted(k, d).value.value, d)
  {
    if k == Utf8Kind {
      TextSays(d);
    } else if k.DecimalKind? {
      RescaledIsSame(d.num.value.value, k.precision, k.scale);
    }
  }

  /** A NULL stays a NULL, and any other entry denotes its cell. */
  predicate Conveys(a: ArrowType, e: Option<Entry>, d: CellData) {
    if e.None? then IsNull(d) else !IsNull(d) && Denotes(a, e.value, d)
  }

  lemma ConvertedConveys(k: Kind, d: CellData)
    requires Converted(k, d).Ok?
    ensures Conveys(BuiltType(k), Converted(k, d).value, d)
  {
    if !IsNull(d) {
      EntryDenotes(k, d);
    }
  }

  lemma TextSays(d: CellData)
    requires !IsNull(d)
    ensures RenderText(d).Some? && Says(RenderText(d).value, d)
  {
    match d
    case U8(v) => T.IntReadsBack(v.value);
    case I16(v) => T.IntReadsBack(v.value);
    case I32(v) => T.IntReadsBack(v.value);
    case I64(v) => T.IntReadsBack(v.value);
    case Bytes(v) => T.HexReadsBack(v.value);
    case _ =>
  }

  /** And it is the only entry of its kind that does. */
  lemma DenotedOnce(k: Kind, e: Entry, e': Entry, d: CellData)
    requires Fits(k, e) && Fits(k, e') && Denotes(BuiltType(k), e, d) && Denotes(BuiltType(k), e', d)
    ensures e == e'
  {
    match d
    case U8(Some(v)) => T.IntReadsBack(v);
    case I16(Some(v)) => T.IntReadsBack(v);
    case I32(Some(v)) => T.IntReadsBack(v);
    case I64(Some(v)) => T.IntReadsBack(v);
    case Bytes(Some(v)) =>
      if e.Words? {
        T.UnhexOnce(e.s, e'.s);
      }
    case Num(Some(n)) =>
      if e.Whole? {
        PowPositive(n.value.scale);
        Cancels(e.i, e'.i, Pow10(n.value.scale));
      }
    case _ =>
  }

  lemma Cancels(a: int, b: int, c: int)
    requires c >= 1 && a * c == b * c
    ensures a == b
  {
    assert (a - b) * c == 0;
  }

  // ----------------------------------------------------------------------- what is refused

  /** The cells a column of kind `k` is for. */
  predicate Takes(k: Kind, d: CellData) {
    match k
    case Int16Kind => d.I16? || d.U8?
    case Int32Kind => d.I32?
    case Int64Kind => d.I64?
    case Float64Kind => d.F64? || d.F32?
    case DecimalKind(precision, scale) =>
      && d.Num? && d.num.Some? && d.num.value.value.scale <= scale
      && Abs(d.num.value.value.value * Pow10(scale - d.num.value.value.scale)) < Pow10(precision)
    case BooleanKind => d.Bit?
    case DateKind => d.DateOnly?
    case TimestampKind => d.DateTime? || d.SmallDateTime? || d.DateTime2? || d.DateTimeOffset?
    case BinaryKind => d.Bytes?
    case Utf8Kind => true
  }

  /** What an error says a column of kind `k` expected. */
  predicate Wants(k: Kind, e: Expected) {
    match e
    case Integer16 => k == Int16Kind
    case Integer32 => k == Int32Kind
    case Integer64 => k == Int64Kind
    case FloatingPoint => k == Float64Kind
    case DecimalNumber => k.DecimalKind?
    case TrueOrFalse => k == BooleanKind
    case CalendarDate => k == DateKind
    case TimestampValue => k == TimestampKind
    case BinaryValue => k == BinaryKind
  }

  /** A column takes NULL and exactly the cells it is for, and a refusal names what it is for. */
  lemma TakesExactly(t: SqlType, d: CellData)
    ensures var k := KindFor(t);
            && (Converted(k, d).Ok? <==> IsNull(d) || Takes(k, d))
            && (Converted(k, d).Err? ==> Wants(k, Converted(k, d).error))
  {
    hide Unscaled, Abs, Pow10, Converted, Takes, Wants;
    if t.Decimal? && BuilderTakes(t.precision, t.scale) {
      DecimalTakesExactly(t.precision, t.scale, d);
    } else {
      KindTakesExactly(KindFor(t), d);
    }
  }

  lemma KindTakesExactly(k: Kind, d: CellData)
    requires !k.DecimalKind?
    ensures Converted(k, d).Ok? <==> IsNull(d) || Takes(k, d)
    ensures Converted(k, d).Err? ==> Wants(k, Converted(k, d).error)
  {
    hide RenderText, MicrosSinceEpoch, DaysSinceEpoch;
    CalendarCellsConvert(d);
    TextTakes(d);
  }

  lemma TextTakes(d: CellData)
    ensures Converted(Utf8Kind, d).Ok?
  {
  }

  lemma DecimalTakesExactly(precision: nat, scale: int, d: CellData)
    requires BuilderTakes(precision, scale)
    ensures var k := DecimalKind(precision, scale);
            && (Converted(k, d).Ok? <==> IsNull(d) || Takes(k, d))
            && (Converted(k, d).Err? ==> Wants(k, Converted(k, d).error))
  {
    hide Unscaled, Abs, Pow10;
    if d.Num? && d.num.Some? {
      if scale >= 0 {
        AcceptedExactly(d.num.value.value, precision, scale);
      } else {
        NegativeScaleRefuses(d.num.value.value, precision, scale);
      }
    }
  }

  /** The variant tiberius decodes a column of this catalog type to: money as a float, a
      rowversion as bytes. */
  predicate Delivered(name: string, d: CellData) {
    match d
    case U8(_) => name == "tinyint"
    case I16(_) => name == "smallint"
    case I32(_) => name == "int"
    case I64(_) => name == "bigint"
    case F32(_) => name == "real"
    case F64(_) => name in ["float", "money", "smallmoney"]
    case Bit(_) => name == "bit"
    case Str(_) => name in ["char", "varchar", "text", "nchar", "nvarchar", "ntext"]
    case Guid(_) => name == "uniqueidentifier"
    case Bytes(_) => name in ["binary", "varbinary", "image", "timestamp", "rowversion"]
    case Num(_) => name in ["decimal", "numeric"]
    case Xml(_) => name == "xml"
    case DateTime(_) => name == "datetime"
    case SmallDateTime(_) => name == "smalldatetime"
    case DateTime2(_) => name == "datetime2"
    case DateTimeOffset(_) => name == "datetimeoffset"
    case DateOnly(_) => name == "date"
    case TimeOnly(_) => name == "time"
  }

  /** Text a column becomes because its values are text, or because Delta has no type for them. */
  predicate Textual(d: CellData) {
    d.Str? || d.Guid? || d.Xml? || d.TimeOnly?
  }

  /** A variant delivered under each name there is, as a NULL. */
  function SampleOf(name: string): CellData {
    if name == "tinyint" then U8(None)
    else if name == "smallint" then I16(None)
    else if name == "int" then I32(None)
    else if name == "bigint" then I64(None)
    else if name == "real" then F32(None)
    else if name in ["float", "money", "smallmoney"] then F64(None)
    else if name == "bit" then CellData.Bit(None)
    else if name == "uniqueidentifier" then Guid(None)
    else if name in ["binary", "varbinary", "image", "timestamp", "rowversion"] then Bytes(None)
    else if name in ["decimal", "numeric"] then Num(None)
    else if name == "xml" then Xml(None)
    else if name == "datetime" then DateTime(None)
    else if name == "smalldatetime" then SmallDateTime(None)
    else if name == "datetime2" then DateTime2(None)
    else if name == "datetimeoffset" then DateTimeOffset(None)
    else if name == "date" then DateOnly(None)
    else if name == "time" then TimeOnly(None)
    else Str(None)
  }

  lemma ShortNames(name: string, precision: Option<int>, scale: Option<int>)
    requires |name| <= 6 && Known(name, precision, scale).Some?
    ensures Delivered(name, SampleOf(name))
  {
    hide DecimalFits;
  }

  lemma LongNames(name: string, precision: Option<int>, scale: Option<int>)
    requires |name| > 6 && Known(name, precision, scale).Some?
    ensures Delivered(name, SampleOf(name))
  {
    hide DecimalFits;
  }

  lemma KnownIsDelivered(name: string, precision: Option<int>, scale: Option<int>)
    ensures Known(name, precision, scale).Some? ==> Delivered(name, SampleOf(name))
  {
    hide Known, Delivered, SampleOf;
    if Known(name, precision, scale).Some? {
      if |name| <= 6 {
        ShortNames(name, precision, scale);
      } else {
        LongNames(name, precision, scale);
      }
    }
  }

  /** A name nothing is delivered under is not recognised, and its column is text. */
  lemma UndeliveredIsText(dataType: string, precision: Option<int>, scale: Option<int>)
    requires forall d: CellData :: !Delivered(Normalised(dataType), d)
    ensures Resolve(dataType, precision, scale) == ResolvedType(SqlType.Text, false, dataType)
  {
    hide Normalised, Known, Delivered, SampleOf;
    var name := Normalised(dataType);
    KnownIsDelivered(name, precision, scale);
    assert !Delivered(name, SampleOf(name));
  }

  /** The type a name resolves to takes what is delivered under that name. */
  predicate NameTakes(name: string, precision: Option<int>, scale: Option<int>, d: CellData) {
    var t := Known(name, precision, scale);
    t.Some? && !t.value.Decimal? && Takes(KindFor(t.value), d) && (KindFor(t.value) == Utf8Kind <==> Textual(d))
  }

  lemma TypeTakes(name: string, precision: Option<int>, scale: Option<int>, d: CellData)
    requires Delivered(name, d) && !d.Num?
    ensures NameTakes(name, precision, scale, d)
  {
    hide NameTakes, Delivered;
    if d.DateTime? || d.SmallDateTime? || d.DateTime2? || d.DateTimeOffset? || d.DateOnly? {
      CalendarTakes(name, precision, scale, d);
    } else if d.Bytes? {
      BytesTake(name, precision, scale, d);
    } else if Textual(d) {
      TextsTake(name, precision, scale, d);
    } else {
      NumbersTake(name, precision, scale, d);
    }
  }

  lemma CalendarTakes(name: string, precision: Option<int>, scale: Option<int>, d: CellData)
    requires Delivered(name, d) && (d.DateTime? || d.SmallDateTime? || d.DateTime2? || d.DateTimeOffset? || d.DateOnly?)
    ensures NameTakes(name, precision, scale, d)
  {
    hide DecimalFits;
  }

  lemma BytesTake(name: string, precision: Option<int>, scale: Option<int>, d: CellData)
    requires Delivered(name, d) && d.Bytes?
    ensures NameTakes(name, precision, scale, d)
  {
    hide Known;
    ByteNames(name, precision, scale);
  }

  lemma TextsTake(name: string, precision: Option<int>, scale: Option<int>, d: CellData)
    requires Delivered(name, d) && Textual(d)
    ensures NameTakes(name, precision, scale, d)
  {
    hide Known;
    if d.TimeOnly? {
      TimeName(precision, scale);
    } else if d.Guid? || d.Xml? {
      RenderedNames(name, precision, scale);
    } else {
      TextNames(name, precision, scale);
    }
  }

  lemma NumbersTake(name: string, precision: Option<int>, scale: Option<int>, d: CellData)
    requires Delivered(name, d) && !Textual(d) && !d.Num?
    requires !(d.DateTime? || d.SmallDateTime? || d.DateTime2? || d.DateTimeOffset? || d.DateOnly? || d.Bytes?)
    ensures NameTakes(name, precision, scale, d)
  {
    hide DecimalFits;
  }

  /**
   * Every column takes what it is sent: a cell of the variant its catalog type is delivered as
   * converts, unless the column is a decimal and the number does not fit what it declares; and
   * only textual cells, and numbers of a decimal Arrow cannot hold, become text.
   */
  lemma DeliveredIsTaken(dataType: string, precision: Option<int>, scale: Option<int>, d: CellData)
    requires Delivered(Normalised(dataType), d)
    ensures var t := Resolve(dataType, precision, scale).sql;
            && (Converted(KindFor(t), d).Ok? <==> d.Num? && t.Decimal? && !IsNull(d) ==> Takes(KindFor(t), d))
            && (KindFor(t) == Utf8Kind <==> Textual(d) || (d.Num? && !t.Decimal?))
            && (Resolve(dataType, precision, scale).recognised <==> d.Num? ==> t.Decimal?)
  {
    if !d.Num? {
      TypeTakes(Normalised(dataType), precision, scale, d);
    }
    TakesExactly(Resolve(dataType, precision, scale).sql, d);
    ResolvedDecimal(dataType, precision, scale);
  }

  /** Text is the one kind of column no cell is refused by. */
  lemma OnlyTextTakesEverything(k: Kind)
    ensures (forall d: CellData :: Converted(k, d).Ok?) <==> k == Utf8Kind
  {
    if k == BooleanKind {
      assert Converted(k, Str(Some(""))).Err?;
    } else if k != Utf8Kind {
      assert Converted(k, CellData.Bit(Some(true))).Err?;
    }
  }

  /** A date or timestamp column refuses a cell only for its variant, never for its value. */
  lemma CalendarCellsConvert(d: CellData)
    ensures Converted(DateKind, d).Ok? <==> IsNull(d) || d.DateOnly?
    ensures Converted(TimestampKind, d).Ok? <==>
            IsNull(d) || d.DateTime? || d.SmallDateTime? || d.DateTime2? || d.DateTimeOffset?
    ensures InstantOf(d).Some? ==>
      var at := InstantOf(d).value;
      Converted(TimestampKind, d) == Ok(Some(Whole(at.seconds * 1_000_000 + at.micros)))
  {
    if InstantOf(d).Some? {
      CalendarConverts(InstantOf(d).value, 0);
    }
    if d.DateOnly? && d.date.Some? {
      CalendarConverts(Instant(0, 0), d.date.value.value);
    }
  }

  /** The array a column is built into has the schema's type exactly when the builder takes
      the declared decimal; so always for a type the catalog resolution gives. */
  lemma BuiltTypeIsSchemas(t: SqlType)
    ensures BuiltType(KindFor(t)) == ArrowTypeOf(t) <==> (t.Decimal? ==> BuilderTakes(t.precision, t.scale))
  {
  }

  lemma ResolvedTypesAreBuilt(dataType: string, precision: Option<int>, scale: Option<int>)
    ensures var t := Resolve(dataType, precision, scale).sql; BuiltType(KindFor(t)) == ArrowTypeOf(t)
  {
    ResolvedDecimal(dataType, precision, scale);
    BuiltTypeIsSchemas(Resolve(dataType, precision, scale).sql);
  }

  // ---------------------------------------------------------------------------- builders

  class ColumnBuilder {
    const kind: Kind
    var entries: seq<Option<Entry>>

    constructor (t: SqlType)
      ensures kind == KindFor(t) && entries == []
    {
      kind, entries := KindFor(t), [];
    }

    method AppendNull()
      modifies this
      ensures entries == old(entries) + [None]
    {
      entries := entries + [None];
    }

    method AppendValue(e: Entry)
      modifies this
      ensures entries == old(entries) + [Some(e)]
    {
      entries := entries + [Some(e)];
    }

    method AppendOption(e: Option<Entry>)
      modifies this
      ensures entries == old(entries) + [e]
    {
      entries := entries + [e];
    }

    /** `append`: one more entry, a NULL for a NULL and otherwise one that denotes the cell, or
        no change and what was expected. */
    method Append(d: CellData) returns (r: Result<(), Expected>)
      modifies this
      ensures r.Ok? ==> |entries| == |old(entries)| + 1 && entries[..|old(entries)|] == old(entries)
      ensures r.Ok? ==> Conveys(BuiltType(kind), entries[|old(entries)|], d)
      ensures r.Ok? <==> Converted(kind, d).Ok?
      ensures r.Ok? ==> entries == old(entries) + [Converted(kind, d).value]
      ensures r.Err? ==> Converted(kind, d) == Err(r.error) && entries == old(entries)
    {
      if Converted(kind, d).Ok? {
        ConvertedConveys(kind, d);
      }
      hide Conveys;
      if IsNull(d) {
        AppendNull();
        return Ok(());
      }
      r := Ok(());
      match kind
      case Int16Kind =>
        match d {
          case I16(v) => AppendValue(Whole(v.value));
          case U8(v) => AppendValue(Whole(v.value));
          case _ => r := Err(Integer16);
        }
      case Int32Kind =>
        if d.I32? { AppendValue(Whole(d.i32.value)); } else { r := Err(Integer32); }
      case Int64Kind =>
        if d.I64? { AppendValue(Whole(d.i64.value)); } else { r := Err(Integer64); }
      case Float64Kind =>
        match d {
          case F64(v) => AppendValue(Float(v.value.value));
          case F32(v) => AppendValue(Float(v.value.value));
          case _ => r := Err(FloatingPoint);
        }
      case DecimalKind(precision, scale) =>
        if !d.Num? {
          return Err(DecimalNumber);
        }
        var unscaled := DecimalAtScale(d.num.value.value, scale);
        if unscaled.None? || !DecimalFitsPrecision(unscaled.value, precision) {
          return Err(DecimalNumber);
        }
        AppendValue(Whole(unscaled.value));
      case BooleanKind =>
        if d.Bit? { AppendValue(Truth(d.bit.value)); } else { r := Err(TrueOrFalse); }
      case DateKind =>
        var days := if d.DateOnly? then DaysSinceEpoch(d.date.value.value) else None;
        if days.Some? { AppendValue(Whole(days.value)); } else { r := Err(CalendarDate); }
      case TimestampKind =>
        var at := InstantOf(d);
        var micros := if at.Some? then MicrosSinceEpoch(at.value) else None;
        if micros.Some? { AppendValue(Whole(micros.value)); } else { r := Err(TimestampValue); }
      case BinaryKind =>
        if d.Bytes? { AppendValue(Raw(d.bytes.value)); } else { r := Err(BinaryValue); }
      case Utf8Kind =>
        var text := RenderText(d);
        AppendOption(if text.Some? then Some(Words(text.value)) else None);
    }

    /** `finish`: the typed array. */
    function Finish(): Column
      reads this
    {
      Column(BuiltType(kind), entries)
    }
  }

  // ------------------------------------------------------------------------------- batch

  datatype Column = Column(arrowType: ArrowType, entries: seq<Option<Entry>>)

  datatype BatchError =
    | ColumnCount
    | UnparsableValue(column: string, expected: Expected)
    | Arrow

  /** A column's name and resolved type. */
  datatype Field = Field(name: string, sql: SqlType)

  type Cells = seq<CellData>

  predicate CellConverts(fields: seq<Field>, row: Cells, j: nat)
    requires j < |fields| && j < |row|
  {
    Converted(KindFor(fields[j].sql), row[j]).Ok?
  }

  predicate RowConverts(fields: seq<Field>, row: Cells) {
    |row| == |fields| && forall j | 0 <= j < |row| :: CellConverts(fields, row, j)
  }

  predicate TypesAgree(fields: seq<Field>) {
    forall j | 0 <= j < |fields| :: BuiltType(KindFor(fields[j].sql)) == ArrowTypeOf(fields[j].sql)
  }

  /** Cell by cell, the columns hold the conversions of the rows, in place. */
  predicate Holds(fields: seq<Field>, rows: seq<Cells>, columns: seq<Column>) {
    && |columns| == |fields|
    && forall j | 0 <= j < |fields| ::
         && columns[j].arrowType == ArrowTypeOf(fields[j].sql)
         && |columns[j].entries| == |rows|
         && forall i | 0 <= i < |rows| ::
              j < |rows[i]| && Converted(KindFor(fields[j].sql), rows[i][j]) == Ok(columns[j].entries[i])
  }

  /** In place, this column has a NULL for a NULL, and else an entry that denotes the cell. */
  predicate TellsCells(column: Column, rows: seq<Cells>, j: nat) {
    && |column.entries| == |rows|
    && forall i | 0 <= i < |rows| :: j < |rows[i]| && Conveys(column.arrowType, column.entries[i], rows[i][j])
  }

  /** Each column has the schema's type, and tells its cells. */
  predicate HoldsRows(fields: seq<Field>, rows: seq<Cells>, columns: seq<Column>) {
    && |columns| == |fields|
    && forall j | 0 <= j < |fields| ::
         columns[j].arrowType == ArrowTypeOf(fields[j].sql) && TellsCells(columns[j], rows, j)
  }

  lemma HoldsConveys(fields: seq<Field>, rows: seq<Cells>, columns: seq<Column>)
    requires Holds(fields, rows, columns) && TypesAgree(fields)
    ensures HoldsRows(fields, rows, columns)
  {
    hide Conveys, Converted, KindFor, BuiltType, ArrowTypeOf, TellsCells;
    forall j | 0 <= j < |fields|
      ensures columns[j].arrowType == ArrowTypeOf(fields[j].sql) && TellsCells(columns[j], rows, j)
    {
      assert BuiltType(KindFor(fields[j].sql)) == ArrowTypeOf(fields[j].sql);
      ColumnTells(KindFor(fields[j].sql), columns[j], rows, j);
    }
  }

  lemma ColumnTells(k: Kind, column: Column, rows: seq<Cells>, j: nat)
    requires column.arrowType == BuiltType(k) && |column.entries| == |rows|
    requires forall i | 0 <= i < |rows| :: j < |rows[i]| && Converted(k, rows[i][j]) == Ok(column.entries[i])
    ensures TellsCells(column, rows, j)
  {
    hide Conveys, Converted, BuiltType;
    forall i | 0 <= i < |rows| ensures Conveys(column.arrowType, column.entries[i], rows[i][j]) {
      ConvertedConveys(k, rows[i][j]);
    }
  }

  /** The first row, and in it the first cell, that cannot be converted. */
  predicate FirstFault(fields: seq<Field>, rows: seq<Cells>, i: nat, e: BatchError) {
    && i < |rows|
    && (forall k | 0 <= k < i :: RowConverts(fields, rows[k]))
    && (if |rows[i]| != |fields| then e == ColumnCount
        else exists j | 0 <= j < |fields| ::
          && (forall k | 0 <= k < j :: CellConverts(fields, rows[i], k))
          && Converted(KindFor(fields[j].sql), rows[i][j]).Err?
          && e == UnparsableValue(fields[j].name, Converted(KindFor(fields[j].sql), rows[i][j]).error))
  }

  /** Objects of their own. */
  predicate Distinct(builders: seq<ColumnBuilder>) {
    forall j, k | 0 <= j < k < |builders| :: builders[j] != builders[k]
  }

  /** The `j`-th builder holds its conversions of the first `n` rows. */
  predicate HoldsColumn(fields: seq<Field>, rows: seq<Cells>, b: ColumnBuilder, j: nat, n: nat)
    requires j < |fields| && n <= |rows|
    reads b
  {
    && b.kind == KindFor(fields[j].sql)
    && |b.entries| == n
    && forall i | 0 <= i < n :: j < |rows[i]| && Converted(b.kind, rows[i][j]) == Ok(b.entries[i])
  }

  /** The first `j` builders have the row after the first `n`, the others not yet. */
  predicate Filled(fields: seq<Field>, rows: seq<Cells>, builders: seq<ColumnBuilder>, n: nat, j: nat)
    requires |builders| == |fields| && n <= |rows| && (j > 0 ==> n < |rows|)
    reads builders
  {
    forall k | 0 <= k < |builders| :: HoldsColumn(fields, rows, builders[k], k, if k < j then n + 1 else n)
  }

  method NewBuilders(fields: seq<Field>, ghost rows: seq<Cells>) returns (builders: seq<ColumnBuilder>)
    ensures |builders| == |fields| && Distinct(builders) && fresh(builders)
    ensures Filled(fields, rows, builders, 0, 0)
  {
    builders := [];
    while |builders| < |fields|
      invariant |builders| <= |fields| && Distinct(builders) && fresh(builders)
      invariant forall k | 0 <= k < |builders| :: HoldsColumn(fields, rows, builders[k], k, 0)
    {
      var b := new ColumnBuilder(fields[|builders|].sql);
      builders := builders + [b];
    }
  }

  /** One cell into its column's builder. */
  method AppendCell(fields: seq<Field>, ghost rows: seq<Cells>, builders: seq<ColumnBuilder>, row: Cells,
                    ghost n: nat, j: nat)
    returns (r: Result<(), BatchError>)
    requires Distinct(builders) && j < |builders| == |fields| == |row| && n < |rows| && rows[n] == row
    requires Filled(fields, rows, builders, n, j)
    modifies builders[j]
    ensures r.Ok? <==> CellConverts(fields, row, j)
    ensures r.Ok? ==> Filled(fields, rows, builders, n, j + 1)
    ensures r.Err? ==> Converted(KindFor(fields[j].sql), row[j]).Err?
    ensures r.Err? ==> r.error == UnparsableValue(fields[j].name, Converted(KindFor(fields[j].sql), row[j]).error)
  {
    assert HoldsColumn(fields, rows, builders[j], j, n);
    var appended := builders[j].Append(row[j]);
    if appended.Err? {
      return Err(UnparsableValue(fields[j].name, appended.error));
    }
    return Ok(());
  }

  /** One row: its width, then cell after cell. */
  method AppendRow(fields: seq<Field>, rows: seq<Cells>, builders: seq<ColumnBuilder>, n: nat)
    returns (r: Result<(), BatchError>)
    requires Distinct(builders) && |builders| == |fields| && n < |rows|
    requires Filled(fields, rows, builders, n, 0) && forall k | 0 <= k < n :: RowConverts(fields, rows[k])
    modifies builders
    ensures r.Ok? <==> RowConverts(fields, rows[n])
    ensures r.Ok? ==> Filled(fields, rows, builders, n + 1, 0)
    ensures r.Err? ==> FirstFault(fields, rows, n, r.error) && r.error != Arrow
  {
    hide Converted, KindFor, CellConverts, HoldsColumn;
    var row := rows[n];
    if |row| != |fields| {
      return Err(ColumnCount);
    }
    var j := 0;
    while j < |row|
      invariant j <= |row| && Filled(fields, rows, builders, n, j)
      invariant forall k | 0 <= k < j :: CellConverts(fields, row, k)
    {
      r := AppendCell(fields, rows, builders, row, n, j);
      if r.Err? {
        return;
      }
      j := j + 1;
    }
    return Ok(());
  }

  /** Finishing every builder, when all rows are in. */
  method FinishAll(fields: seq<Field>, ghost rows: seq<Cells>, builders: seq<ColumnBuilder>)
    returns (columns: seq<Column>)
    requires |builders| == |fields| && Filled(fields, rows, builders, |rows|, 0)
    ensures |columns| == |fields|
    ensures forall j | 0 <= j < |fields| :: columns[j].arrowType == BuiltType(KindFor(fields[j].sql))
    ensures TypesAgree(fields) ==> Holds(fields, rows, columns)
  {
    hide Converted, KindFor, BuiltType, ArrowTypeOf;
    columns := seq(|builders|, j requires 0 <= j < |builders| reads builders => builders[j].Finish());
    forall j | 0 <= j < |fields|
      ensures columns[j].arrowType == BuiltType(KindFor(fields[j].sql)) && |columns[j].entries| == |rows|
      ensures forall i | 0 <= i < |rows| ::
        j < |rows[i]| && Converted(KindFor(fields[j].sql), rows[i][j]) == Ok(columns[j].entries[i])
    {
      assert HoldsColumn(fields, rows, builders[j], j, |rows|) && columns[j] == builders[j].Finish();
    }
    if TypesAgree(fields) {
      forall j | 0 <= j < |fields| ensures columns[j].arrowType == ArrowTypeOf(fields[j].sql) {
        assert BuiltType(KindFor(fields[j].sql)) == ArrowTypeOf(fields[j].sql);
      }
    }
  }

  /**
   * `record_batch` succeeds exactly when there is a column, every row has the schema's width
   * and every cell converts; then each column has the schema's type and one entry a row, the
   * conversion of that row's cell, NULLs in place. Otherwise the error is that of the first
   * bad row, or the first bad cell of that row, in the order they are read.
   */
  method RecordBatch(fields: seq<Field>, rows: seq<Cells>) returns (r: Result<seq<Column>, BatchError>)
    ensures r.Ok? <==> fields != [] && TypesAgree(fields) && forall i | 0 <= i < |rows| :: RowConverts(fields, rows[i])
    ensures r.Ok? ==> Holds(fields, rows, r.value) && HoldsRows(fields, rows, r.value)
    ensures r.Err? && r.error != Arrow ==> exists i | 0 <= i < |rows| :: FirstFault(fields, rows, i, r.error)
    ensures r == Err(Arrow) <==>
      (fields == [] || !TypesAgree(fields)) && forall i | 0 <= i < |rows| :: RowConverts(fields, rows[i])
  {
    hide Converted, KindFor, BuiltType, ArrowTypeOf, RowConverts, FirstFault, Filled, Distinct, HoldsRows;
    var builders := NewBuilders(fields, rows);
    var n := 0;
    while n < |rows|
      invariant n <= |rows| && Filled(fields, rows, builders, n, 0)
      invariant forall k | 0 <= k < n :: RowConverts(fields, rows[k])
    {
      var appended := AppendRow(fields, rows, builders, n);
      if appended.Err? {
        return Err(appended.error);
      }
      n := n + 1;
    }
    var columns := FinishAll(fields, rows, builders);
    r := TryNew(fields, columns);
    if r.Ok? {
      HoldsConveys(fields, rows, columns);
    }
  }

  /** `RecordBatch::try_new`: at least one column, and the schema's types. */
  method TryNew(fields: seq<Field>, columns: seq<Column>) returns (r: Result<seq<Column>, BatchError>)
    requires |columns| == |fields|
    ensures r == if fields != [] && forall j | 0 <= j < |fields| :: columns[j].arrowType == ArrowTypeOf(fields[j].sql)
                 then Ok(columns) else Err(Arrow)
  {
    if fields == [] || exists j | 0 <= j < |fields| :: columns[j].arrowType != ArrowTypeOf(fields[j].sql) {
      return Err(Arrow);
    }
    return Ok(columns);
  }
}
