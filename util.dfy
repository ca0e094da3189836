/**
 * shared/util/util.go: timestamp parsing and formatting, the working
 * directory, the reflective value-to-text conversion and the generic CSV
 * writer.
 */
module Util {

  import opened Wrappers
  import opened Errors
  import opened Constants
  import opened Strconv
  import opened Calendar
  import opened Reflect
  import opened Files

  // ---------------------------------------------------------------------------
  // Timestamps

  /** StringToInt: ParseInt(inp, 10, 64), with 0 and a wrapped error on failure. */
  function StringToInt(inp: string): (r: (int, Option<Error>))
    ensures r.1.None? <==> IsInt64Literal(inp)
    ensures r.1.None? ==> r.0 == LiteralValue(inp)
    ensures r.1.Some? ==> r.0 == 0 && r.1.value.InvalidTimestamp? && r.1.value.input == inp
    ensures r.1.None? ==> MinInt64 <= r.0 <= MaxInt64
  {
    ParseIntCorrect(inp);
    match ParseInt(inp)
    case Err(e) => (0, Some(InvalidTimestamp(inp, e)))
    case Ok(v) => (v, None)
  }

  /** DATE_FORMAT_YYYY_MM_DD_HH_MM_SS as the sequence of layout elements Go's parser reads from it. */
  const DateLayout: seq<LayoutElem> :=
    [LongYear, Literal('-'), ZeroMonth, Literal('-'), ZeroDay, Literal(' '),
     Hour, Literal(':'), ZeroMinute, Literal(':'), ZeroSecond]

  lemma DateLayoutIsDateFormat()
    ensures LayoutText(DateLayout) == DateFormat
  {
    DateLayoutPieces();
    DateFormatPieces();
  }

  lemma LayoutTextStep(l: seq<LayoutElem>, k: nat)
    requires k < |l|
    ensures LayoutText(l[k..]) == LayoutText([l[k]]) + LayoutText(l[k + 1..])
  {
    assert l[k..][1..] == l[k + 1..];
    assert [l[k]][1..] == [];
  }

  lemma DateLayoutPieces()
    ensures LayoutText(DateLayout)
      == "2006" + ("-" + ("01" + ("-" + ("02" + (" " + ("15" + (":" + ("04" + (":" + "05")))))))))
  {
    var l := DateLayout;
    assert l[11..] == [];
    LayoutTextStep(l, 10);
    var t10 := LayoutText(l[10..]);
    assert t10 == "05";
    LayoutTextStep(l, 9);
    var t9 := LayoutText(l[9..]);
    assert t9 == ":" + t10;
    LayoutTextStep(l, 8);
    var t8 := LayoutText(l[8..]);
    assert t8 == "04" + t9;
    LayoutTextStep(l, 7);
    var t7 := LayoutText(l[7..]);
    assert t7 == ":" + t8;
    LayoutTextStep(l, 6);
    var t6 := LayoutText(l[6..]);
    assert t6 == "15" + t7;
    LayoutTextStep(l, 5);
    var t5 := LayoutText(l[5..]);
    assert t5 == " " + t6;
    LayoutTextStep(l, 4);
    var t4 := LayoutText(l[4..]);
    assert t4 == "02" + t5;
    LayoutTextStep(l, 3);
    var t3 := LayoutText(l[3..]);
    assert t3 == "-" + t4;
    LayoutTextStep(l, 2);
    var t2 := LayoutText(l[2..]);
    assert t2 == "01" + t3;
    LayoutTextStep(l, 1);
    var t1 := LayoutText(l[1..]);
    assert t1 == "-" + t2;
    LayoutTextStep(l, 0);
    assert l[0..] == l;
    assert LayoutText(l) == "2006" + t1;
  }

  lemma DateFormatPieces()
    ensures DateFormat
      == "2006" + ("-" + ("01" + ("-" + ("02" + (" " + ("15" + (":" + ("04" + (":" + "05")))))))))
  {
  }

  /** What a zero timestamp formats to, in place of a date. */
  const ZeroTimestampText: string := "00-00-0000 00:00:00"

  /** Text of the shape "YYYY-MM-DD HH:MM:SS", every field made of digits. */
  predicate IsDateTimeText(s: string)
  {
    |s| == 19
    && IsDigits(s[0..4]) && s[4] == '-' && IsDigits(s[5..7]) && s[7] == '-' && IsDigits(s[8..10])
    && s[10] == ' ' && IsDigits(s[11..13]) && s[13] == ':' && IsDigits(s[14..16]) && s[16] == ':'
    && IsDigits(s[17..19])
  }

  /** The date and time such a text spells, read back field by field. */
  function ReadDateTimeText(s: string): DateTime
    requires IsDateTimeText(s)
  {
    DateTime(DigitsValue(s[0..4]), DigitsValue(s[5..7]), DigitsValue(s[8..10]),
             DigitsValue(s[11..13]), DigitsValue(s[14..16]), DigitsValue(s[17..19]))
  }

  /** The sentinel cannot be mistaken for a formatted date: its dashes are not where a date has them. */
  lemma ZeroTimestampIsNotADate()
    ensures !IsDateTimeText(ZeroTimestampText)
  {
  }

  lemma FormatStep(dt: DateTime, l: seq<LayoutElem>, k: nat)
    requires k < |l|
    ensures Format(dt, l[k..]) == FormatElem(dt, l[k]) + Format(dt, l[k + 1..])
  {
    assert l[k..][1..] == l[k + 1..];
  }

  lemma FormatDateLayoutPieces(dt: DateTime)
    ensures Format(dt, DateLayout)
      == AppendInt(dt.year, 4) + ("-" + (AppendInt(dt.month, 2) + ("-" + (AppendInt(dt.day, 2) + (" "
         + (AppendInt(dt.hour, 2) + (":" + (AppendInt(dt.minute, 2) + (":" + AppendInt(dt.second, 2))))))))))
  {
    var l := DateLayout;
    var y, mo, d := AppendInt(dt.year, 4), AppendInt(dt.month, 2), AppendInt(dt.day, 2);
    FormatTimeOfDay(dt);
    var f5 := Format(dt, l[5..]);
    FormatStep(dt, l, 4);
    var f4 := Format(dt, l[4..]);
    assert f4 == d + f5;
    FormatStep(dt, l, 3);
    var f3 := Format(dt, l[3..]);
    assert f3 == "-" + f4;
    FormatStep(dt, l, 2);
    var f2 := Format(dt, l[2..]);
    assert f2 == mo + f3;
    FormatStep(dt, l, 1);
    var f1 := Format(dt, l[1..]);
    assert f1 == "-" + f2;
    FormatStep(dt, l, 0);
    assert l[0..] == l;
    assert Format(dt, l) == y + f1;
  }

  /** The last six layout elements: the separator before the time, then "HH:MM:SS". */
  lemma FormatTimeOfDay(dt: DateTime)
    ensures Format(dt, DateLayout[5..])
      == " " + (AppendInt(dt.hour, 2) + (":" + (AppendInt(dt.minute, 2) + (":" + AppendInt(dt.second, 2)))))
  {
    var l := DateLayout;
    var h, mi, se := AppendInt(dt.hour, 2), AppendInt(dt.minute, 2), AppendInt(dt.second, 2);
    assert l[11..] == [];
    FormatStep(dt, l, 10);
    var f10 := Format(dt, l[10..]);
    assert f10 == se;
    FormatStep(dt, l, 9);
    var f9 := Format(dt, l[9..]);
    assert f9 == ":" + f10;
    FormatStep(dt, l, 8);
    var f8 := Format(dt, l[8..]);
    assert f8 == mi + f9;
    FormatStep(dt, l, 7);
    var f7 := Format(dt, l[7..]);
    assert f7 == ":" + f8;
    FormatStep(dt, l, 6);
    var f6 := Format(dt, l[6..]);
    assert f6 == h + f7;
    FormatStep(dt, l, 5);
  }

  /** Text glued from four- and two-character fields with the layout's separators. */
  function JoinDateFields(y: string, mo: string, d: string, h: string, mi: string, se: string): string
  {
    y + ("-" + (mo + ("-" + (d + (" " + (h + (":" + (mi + (":" + se)))))))))
  }

  /** Reading one field and the separator after it from a suffix of s. */
  lemma FieldAt(s: string, i: nat, a: string, c: char, rest: string)
    requires i <= |s| && s[i..] == a + ([c] + rest)
    ensures i + |a| + 1 <= |s|
    ensures s[i..i + |a|] == a && s[i + |a|] == c && s[i + |a| + 1..] == rest
  {
    assert s[i..][..|a|] == a;
    assert s[i..][|a|] == c;
    assert s[i..][|a| + 1..] == rest;
  }

  lemma JoinDateFieldsSplit(y: string, mo: string, d: string, h: string, mi: string, se: string)
    requires |y| == 4 && |mo| == 2 && |d| == 2 && |h| == 2 && |mi| == 2 && |se| == 2
    ensures var s := JoinDateFields(y, mo, d, h, mi, se);
      |s| == 19 && s[0..4] == y && s[4] == '-' && s[5..7] == mo && s[7] == '-' && s[8..10] == d
      && s[10] == ' ' && s[11..13] == h && s[13] == ':' && s[14..16] == mi && s[16] == ':' && s[17..19] == se
  {
    var s := JoinDateFields(y, mo, d, h, mi, se);
    var r16 := se;
    var r13 := mi + (":" + r16);
    var r10 := h + (":" + r13);
    var r7 := d + (" " + r10);
    var r4 := mo + ("-" + r7);
    assert s[0..] == y + ("-" + r4);
    FieldAt(s, 0, y, '-', r4);
    FieldAt(s, 5, mo, '-', r7);
    FieldAt(s, 8, d, ' ', r10);
    FieldAt(s, 11, h, ':', r13);
    FieldAt(s, 14, mi, ':', r16);
  }

  /** A date with a four-digit year formats to "YYYY-MM-DD HH:MM:SS" text that reads back as that date. */
  lemma FormatDateTimeRoundTrip(dt: DateTime)
    requires ValidDateTime(dt) && 1 <= dt.year <= 9999
    ensures IsDateTimeText(Format(dt, DateLayout))
    ensures ReadDateTimeText(Format(dt, DateLayout)) == dt
  {
    FormatDateLayoutPieces(dt);
    var y, mo, d := AppendInt(dt.year, 4), AppendInt(dt.month, 2), AppendInt(dt.day, 2);
    var h, mi, se := AppendInt(dt.hour, 2), AppendInt(dt.minute, 2), AppendInt(dt.second, 2);
    assert Format(dt, DateLayout) == JoinDateFields(y, mo, d, h, mi, se);
    DateFieldsWritten(dt);
    ReadJoinedFields(y, mo, d, h, mi, se);
  }

  /** Every field of a date with a four-digit year fills its width with the digits of its value. */
  lemma DateFieldsWritten(dt: DateTime)
    requires ValidDateTime(dt) && 1 <= dt.year <= 9999
    ensures |AppendInt(dt.year, 4)| == 4 && IsDigits(AppendInt(dt.year, 4)) && DigitsValue(AppendInt(dt.year, 4)) == dt.year
    ensures |AppendInt(dt.month, 2)| == 2 && IsDigits(AppendInt(dt.month, 2)) && DigitsValue(AppendInt(dt.month, 2)) == dt.month
    ensures |AppendInt(dt.day, 2)| == 2 && IsDigits(AppendInt(dt.day, 2)) && DigitsValue(AppendInt(dt.day, 2)) == dt.day
    ensures |AppendInt(dt.hour, 2)| == 2 && IsDigits(AppendInt(dt.hour, 2)) && DigitsValue(AppendInt(dt.hour, 2)) == dt.hour
    ensures |AppendInt(dt.minute, 2)| == 2 && IsDigits(AppendInt(dt.minute, 2))
      && DigitsValue(AppendInt(dt.minute, 2)) == dt.minute
    ensures |AppendInt(dt.second, 2)| == 2 && IsDigits(AppendInt(dt.second, 2))
      && DigitsValue(AppendInt(dt.second, 2)) == dt.second
  {
    assert Pow10(2) == 100 && Pow10(4) == 10000;
    AppendIntField(dt.year, 4);
    AppendIntField(dt.month, 2);
    AppendIntField(dt.day, 2);
    AppendIntField(dt.hour, 2);
    AppendIntField(dt.minute, 2);
    AppendIntField(dt.second, 2);
  }

  /** Glued digit fields have the date-time shape and read back as the fields' values. */
  lemma ReadJoinedFields(y: string, mo: string, d: string, h: string, mi: string, se: string)
    requires |y| == 4 && |mo| == 2 && |d| == 2 && |h| == 2 && |mi| == 2 && |se| == 2
    requires IsDigits(y) && IsDigits(mo) && IsDigits(d) && IsDigits(h) && IsDigits(mi) && IsDigits(se)
    ensures IsDateTimeText(JoinDateFields(y, mo, d, h, mi, se))
    ensures ReadDateTimeText(JoinDateFields(y, mo, d, h, mi, se))
         == DateTime(DigitsValue(y), DigitsValue(mo), DigitsValue(d), DigitsValue(h), DigitsValue(mi), DigitsValue(se))
  {
    JoinDateFieldsSplit(y, mo, d, h, mi, se);
  }

  /**
   * FormatUnixTimestampString: the parse error passes through with "", zero
   * gives the sentinel, and any other instant is formatted in UTC with
   * DATE_FORMAT_YYYY_MM_DD_HH_MM_SS.
   */
  function FormatUnixTimestampString(s: string): (r: (string, Option<Error>))
    ensures r.1 == StringToInt(s).1
    ensures r.1.Some? ==> r.0 == ""
    ensures r.1.None? ==> r.0 != ""
    ensures IsInt64Literal(s) && LiteralValue(s) == 0 ==> r.0 == ZeroTimestampText
    ensures IsInt64Literal(s) && LiteralValue(s) != 0 && MinFourDigitUnix <= LiteralValue(s) <= MaxFourDigitUnix ==>
      IsDateTimeText(r.0) && ValidDateTime(ReadDateTimeText(r.0)) && ToUnix(ReadDateTimeText(r.0)) == LiteralValue(s)
  {
    var (t, err) := StringToInt(s);
    if err.Some? then ("", err)
    else if t == 0 then (ZeroTimestampText, None)
    else
      var dt := UnixToUtc(t);
      FormatDateLayoutPieces(dt);
      FourDigitYears(t);
      if 1 <= dt.year <= 9999 then FormatDateTimeRoundTrip(dt); (Format(dt, DateLayout), None)
      else (Format(dt, DateLayout), None)
  }

  lemma ExampleParses()
    ensures StringToInt("1710298091") == (1710298091, None)
  {
    assert FormatNat(17) == "17";
    assert FormatNat(171) == "171";
    assert FormatNat(1710) == "1710";
    assert FormatNat(17102) == "17102";
    assert FormatNat(171029) == "171029";
    assert FormatNat(1710298) == "1710298";
    assert FormatNat(17102980) == "17102980";
    assert FormatNat(171029809) == "171029809";
    assert FormatNat(1710298091) == "1710298091";
    ParseIntOfFormatInt(1710298091);
  }

  lemma ExampleInstant()
    ensures UnixToUtc(1710298091) == DateTime(2024, 3, 13, 2, 48, 11)
  {
    var dt := DateTime(2024, 3, 13, 2, 48, 11);
    assert ToUnix(dt) == 1710298091;
    UnixToUtcInverse(dt);
  }

  lemma ExampleYear()
    ensures AppendInt(2024, 4) == "2024"
  {
    assert FormatNat(20) == "20";
    assert FormatNat(202) == "202";
    assert FormatNat(2024) == "2024";
  }

  lemma ExampleFormats()
    ensures Format(DateTime(2024, 3, 13, 2, 48, 11), DateLayout) == "2024-03-13 02:48:11"
  {
    var dt := DateTime(2024, 3, 13, 2, 48, 11);
    FormatDateLayoutPieces(dt);
    assert Format(dt, DateLayout)
      == JoinDateFields(AppendInt(2024, 4), AppendInt(3, 2), AppendInt(13, 2), AppendInt(2, 2), AppendInt(48, 2), AppendInt(11, 2));
    ExampleYear();
    ExampleFields();
    ExampleJoin();
  }

  lemma ExampleFields()
    ensures AppendInt(3, 2) == "03" && AppendInt(13, 2) == "13" && AppendInt(2, 2) == "02"
    ensures AppendInt(48, 2) == "48" && AppendInt(11, 2) == "11"
  {
  }

  lemma ExampleJoin()
    ensures JoinDateFields("2024", "03", "13", "02", "48", "11") == "2024-03-13 02:48:11"
  {
  }

  /** The instant the source's test table uses, 1710298091, is 2024-03-13 02:48:11 UTC. */
  lemma FormatUnixTimestampExample()
    ensures FormatUnixTimestampString("1710298091") == ("2024-03-13 02:48:11", None)
  {
    ExampleParses();
    ExampleInstant();
    ExampleFormats();
  }

  /** The zero timestamp gives the sentinel, and text that is not a number, or no text, gives an error. */
  lemma FormatUnixTimestampEdgeCases()
    ensures FormatUnixTimestampString("0") == (ZeroTimestampText, None)
    ensures FormatUnixTimestampString("not-a-timestamp").0 == ""
    ensures FormatUnixTimestampString("not-a-timestamp").1.Some?
    ensures FormatUnixTimestampString("").0 == "" && FormatUnixTimestampString("").1.Some?
  {
    ParseIntRejects("not-a-timestamp");
    ParseIntCorrect("not-a-timestamp");
    ParseIntCorrect("0");
    ParseIntCorrect("");
    assert Magnitude("0") == "0";
  }

  // ---------------------------------------------------------------------------
  // Working directory

  /** GetCurrentWorkingDirectory, given what os.Getwd reported (None for its failure). */
  function GetCurrentWorkingDirectory(getwd: Option<string>): (r: Result<string, Error>)
    ensures r.Ok? <==> getwd.Some?
    ensures r.Ok? ==> r.value == getwd.value
    ensures r.Err? ==> r.error == GetwdFailed
  {
    match getwd
    case Some(cwd) => Ok(cwd)
    case None => Err(GetwdFailed)
  }

  // ---------------------------------------------------------------------------
  // Values as CSV text

  /** valueToString for the kinds modelled: a nil pointer or interface is "", a non-nil one shows what it holds. */
  function ValueToString(v: Value): (r: string)
    ensures Deref(v).Nil? ==> r == ""
    ensures Deref(v).String? ==> r == Deref(v).s
    ensures Deref(v).Bool? ==> (r == "true" <==> Deref(v).b) && (r == "false" <==> !Deref(v).b)
  {
    match v
    case String(s) => s
    case Int(i) => FormatInt(i)
    case Uint(u) => FormatUint(u)
    case Bool(b) => FormatBool(b)
    case Nil => ""
    case Ref(e) => ValueToString(e)
  }

  /** The value reached by following pointers and interfaces to the end. */
  function Deref(v: Value): (r: Value)
    ensures !r.Ref?
  {
    if v.Ref? then Deref(v.elem) else v
  }

  /** Indirection is invisible in the text: a value reads the same as what it finally points at. */
  lemma {:induction false} ValueToStringDeref(v: Value)
    ensures ValueToString(v) == ValueToString(Deref(v))
  {
    if v.Ref? {
      ValueToStringDeref(v.elem);
    }
  }

  /** An int64 field's text parses back to the field's value. */
  lemma ValueToStringInt(i: int)
    requires MinInt64 <= i <= MaxInt64
    ensures ParseInt(ValueToString(Int(i))) == Ok(i)
  {
    ParseIntOfFormatInt(i);
  }

  /** A uint64 field's text parses back to the field's value. */
  lemma ValueToStringUint(u: nat)
    requires u <= MaxUint64
    ensures ParseUint(ValueToString(Uint(u))) == Ok(u)
  {
    ParseUintOfFormatUint(u);
  }

  /** A bool field reads "true" exactly when it holds true, and "false" exactly when it holds false. */
  lemma ValueToStringBool(b: bool)
    ensures ValueToString(Bool(b)) == "true" <==> b
    ensures ValueToString(Bool(b)) == "false" <==> !b
  {
  }

  // ---------------------------------------------------------------------------
  // CSV metadata

  /** A csv tag that exports its field: present and not "-". */
  predicate IsExportTag(tag: string)
  {
    tag != "" && tag != "-"
  }

  predicate ValidIndices<T>(fields: seq<StructField<T>>, idx: seq<nat>)
  {
    forall j :: 0 <= j < |idx| ==> idx[j] < |fields|
  }

  /** The positions of the exported fields, in declaration order. */
  function ExportedIndices<T>(fields: seq<StructField<T>>): (r: seq<nat>)
    ensures ValidIndices(fields, r)
    ensures forall j :: 0 <= j < |r| ==> IsExportTag(fields[r[j]].csvTag)
    ensures forall j, k :: 0 <= j < k < |r| ==> r[j] < r[k]
    ensures forall i :: 0 <= i < |fields| && IsExportTag(fields[i].csvTag) ==> i in r
    decreases |fields|
  {
    if fields == [] then []
    else
      var init := fields[..|fields| - 1];
      var rest := ExportedIndices(init);
      assert forall i :: 0 <= i < |init| ==> init[i] == fields[i];
      if IsExportTag(fields[|fields| - 1].csvTag) then rest + [|fields| - 1] else rest
  }

  /** Some position is exported exactly when some declared field carries an export tag. */
  lemma SomeFieldExported<T>(fields: seq<StructField<T>>)
    ensures |ExportedIndices(fields)| > 0 <==> exists i :: 0 <= i < |fields| && IsExportTag(fields[i].csvTag)
  {
    var idx := ExportedIndices(fields);
    if |idx| > 0 {
      assert IsExportTag(fields[idx[0]].csvTag);
    }
    if exists i :: 0 <= i < |fields| && IsExportTag(fields[i].csvTag) {
      var i :| 0 <= i < |fields| && IsExportTag(fields[i].csvTag);
      assert i in idx;
    }
  }

  /** The header row: the tags of the given fields, in the given order. */
  function HeadersFor<T>(fields: seq<StructField<T>>, idx: seq<nat>): (r: seq<string>)
    requires ValidIndices(fields, idx)
    ensures |r| == |idx|
  {
    seq(|idx|, j requires 0 <= j < |idx| => fields[idx[j]].csvTag)
  }

  /**
   * The metadata step of WriteCSV: one loop over the declared fields keeping
   * each exported field's tag and position.
   */
  method ExportMetadata<T>(fields: seq<StructField<T>>) returns (headers: seq<string>, fieldIndices: seq<nat>)
    ensures fieldIndices == ExportedIndices(fields)
    ensures headers == HeadersFor(fields, fieldIndices)
  {
    headers, fieldIndices := [], [];
    var i := 0;
    while i < |fields|
      invariant 0 <= i <= |fields|
      invariant fieldIndices == ExportedIndices(fields[..i])
      invariant |headers| == |fieldIndices|
      invariant forall j :: 0 <= j < |headers| ==> fieldIndices[j] < i && headers[j] == fields[fieldIndices[j]].csvTag
    {
      assert fields[..i + 1][..i] == fields[..i];
      var tag := fields[i].csvTag;
      if IsExportTag(tag) {
        headers := headers + [tag];
        fieldIndices := fieldIndices + [i];
      }
      i := i + 1;
    }
    assert fields[..|fields|] == fields;
  }

  /** One data row: the text of every exported field of `item`, in header order. */
  function CsvRow<T>(fields: seq<StructField<T>>, idx: seq<nat>, item: T): (r: seq<string>)
    requires ValidIndices(fields, idx)
    ensures |r| == |idx|
  {
    seq(|idx|, j requires 0 <= j < |idx| => ValueToString(fields[idx[j]].get(item)))
  }

  function Rows<T>(fields: seq<StructField<T>>, idx: seq<nat>, data: seq<T>): (r: seq<seq<string>>)
    requires ValidIndices(fields, idx)
    ensures |r| == |data|
  {
    seq(|data|, i requires 0 <= i < |data| => CsvRow(fields, idx, data[i]))
  }

  /** The record loop of WriteCSV for one item. */
  method BuildRecord<T>(fields: seq<StructField<T>>, fieldIndices: seq<nat>, item: T) returns (record: seq<string>)
    requires ValidIndices(fields, fieldIndices)
    ensures record == CsvRow(fields, fieldIndices, item)
  {
    record := [];
    for k := 0 to |fieldIndices|
      invariant |record| == k
      invariant forall j :: 0 <= j < k ==> record[j] == ValueToString(fields[fieldIndices[j]].get(item))
    {
      record := record + [ValueToString(fields[fieldIndices[k]].get(item))];
    }
  }

  // ---------------------------------------------------------------------------
  // WriteCSV

  /** What a WriteCSV call returns, and what it leaves at the path (None: the file was not created). */
  datatype WriteOutcome = WriteOutcome(err: Option<Error>, file: Option<seq<seq<string>>>)

  /**
   * WriteCSV, as a function of the filesystem's failures: the element-type
   * check, MkdirAll of the parent, Create (truncating), then the header row and
   * one row per item; records without any tagged field fail after the file was
   * created empty.
   */
  function WriteCsvSpec<T>(filePath: string, ty: TypeDesc<T>, data: seq<T>,
                           mkdirDenied: set<string>, createDenied: set<string>): (o: WriteOutcome)
    ensures o.file.Some? <==> ty.Struct? && Dir(filePath) !in mkdirDenied && filePath !in createDenied
    ensures o.err.None? ==> o.file.Some? && |o.file.value| >= |data|
  {
    match ty
    case NonStruct(kind) =>
      WriteOutcome(Some(if |data| > 0 then NotStructSlice(kind) else ElemNotStruct(kind)), None)
    case Struct(fields) =>
      var idx := ExportedIndices(fields);
      var headers := HeadersFor(fields, idx);
      var dir := Dir(filePath);
      if dir in mkdirDenied then WriteOutcome(Some(MkdirFailed(dir)), None)
      else if filePath in createDenied then WriteOutcome(Some(CreateFailed(filePath)), None)
      else if |headers| == 0 && |data| > 0 then WriteOutcome(Some(NoTaggedFields), Some([]))
      else WriteOutcome(None, Some((if |headers| > 0 then [headers] else []) + Rows(fields, idx, data)))
  }

  method WriteCSV<T>(store: FileStore, filePath: string, ty: TypeDesc<T>, data: seq<T>) returns (err: Option<Error>)
    modifies store
    ensures var o := WriteCsvSpec(filePath, ty, data, store.mkdirDenied, store.createDenied);
      err == o.err && store.files == Stored(old(store.files), filePath, o.file)
  {
    if ty.NonStruct? {
      err := Some(if |data| > 0 then NotStructSlice(ty.kind) else ElemNotStruct(ty.kind));
      return;
    }
    var fields := ty.fields;
    var headers, fieldIndices := ExportMetadata(fields);
    var dir := Dir(filePath);
    err := store.MkdirAll(dir);
    if err.Some? {
      return;
    }
    err := store.Create(filePath);
    if err.Some? {
      return;
    }
    err := WriteRecords(store, filePath, fields, headers, fieldIndices, data);
    UpdateTwice(old(store.files), filePath, [], store.files[filePath]);
  }

  /** WriteCSV once the file is created: the header row, or the no-tag error when there are items, then the rows. */
  method WriteRecords<T>(store: FileStore, filePath: string, fields: seq<StructField<T>>, headers: seq<string>,
                         fieldIndices: seq<nat>, data: seq<T>) returns (err: Option<Error>)
    requires ValidIndices(fields, fieldIndices) && headers == HeadersFor(fields, fieldIndices)
    requires filePath in store.files && store.files[filePath] == []
    modifies store
    ensures var noTags := |headers| == 0 && |data| > 0;
      err == (if noTags then Some(NoTaggedFields) else None)
      && store.files == old(store.files)[filePath := if noTags then []
                                                     else (if |headers| > 0 then [headers] else []) + Rows(fields, fieldIndices, data)]
  {
    if |headers| > 0 {
      store.Write(filePath, headers);
      assert [] + [headers] == [headers];
    } else if |data| > 0 {
      assert store.files == store.files[filePath := []];
      return Some(NoTaggedFields);
    }
    WriteRows(store, filePath, fields, fieldIndices, data);
    err := None;
  }

  /** The data-row loop of WriteCSV: one record per item appended to the open file. */
  method WriteRows<T>(store: FileStore, filePath: string, fields: seq<StructField<T>>, fieldIndices: seq<nat>, data: seq<T>)
    requires filePath in store.files && ValidIndices(fields, fieldIndices)
    modifies store
    ensures store.files == old(store.files)[filePath := old(store.files[filePath]) + Rows(fields, fieldIndices, data)]
  {
    ghost var head := store.files[filePath];
    assert head + Rows(fields, fieldIndices, data[..0]) == head;
    assert store.files == old(store.files)[filePath := head];
    var i := 0;
    while i < |data|
      invariant 0 <= i <= |data|
      invariant store.files == old(store.files)[filePath := head + Rows(fields, fieldIndices, data[..i])]
    {
      var record := BuildRecord(fields, fieldIndices, data[i]);
      assert head + Rows(fields, fieldIndices, data[..i + 1]) == (head + Rows(fields, fieldIndices, data[..i])) + [record];
      store.Write(filePath, record);
      i := i + 1;
    }
    assert data[..|data|] == data;
  }

  /** WriteCSV succeeds exactly when the type is a struct, both filesystem steps succeed, and fields are tagged or there is no data. */
  lemma WriteCsvSucceeds<T>(filePath: string, ty: TypeDesc<T>, data: seq<T>, mk: set<string>, cr: set<string>)
    ensures WriteCsvSpec(filePath, ty, data, mk, cr).err.None?
        <==> ty.Struct? && Dir(filePath) !in mk && filePath !in cr
             && (|data| == 0 || exists i :: 0 <= i < |ty.fields| && IsExportTag(ty.fields[i].csvTag))
  {
    if ty.Struct? {
      SomeFieldExported(ty.fields);
    }
  }

  /**
   * A successful write leaves a header row holding every exported tag in
   * declaration order, then exactly one row per item whose cells are that
   * item's exported fields as text, in header order.
   */
  lemma WriteCsvContents<T>(filePath: string, fields: seq<StructField<T>>, data: seq<T>, mk: set<string>, cr: set<string>)
    requires WriteCsvSpec(filePath, Struct(fields), data, mk, cr).file.Some?
    requires exists i :: 0 <= i < |fields| && IsExportTag(fields[i].csvTag)
    ensures var o := WriteCsvSpec(filePath, Struct(fields), data, mk, cr);
      var idx := ExportedIndices(fields);
      o.err.None? && o.file.value == [HeadersFor(fields, idx)] + Rows(fields, idx, data)
      && |o.file.value| == 1 + |data|
      && o.file.value[0] == HeadersFor(fields, idx)
      && forall i :: 0 <= i < |data| ==>
           |o.file.value[i + 1]| == |idx|
           && forall j :: 0 <= j < |idx| ==> o.file.value[i + 1][j] == ValueToString(fields[idx[j]].get(data[i]))
  {
    SomeFieldExported(fields);
    var idx := ExportedIndices(fields);
    assert WriteCsvSpec(filePath, Struct(fields), data, mk, cr)
        == WriteOutcome(None, Some([HeadersFor(fields, idx)] + Rows(fields, idx, data)));
    HeaderThenRows(fields, idx, data);
  }

  /** The header row followed by the data rows, item by item and cell by cell. */
  lemma HeaderThenRows<T>(fields: seq<StructField<T>>, idx: seq<nat>, data: seq<T>)
    requires ValidIndices(fields, idx)
    ensures var file := [HeadersFor(fields, idx)] + Rows(fields, idx, data);
      |file| == 1 + |data| && file[0] == HeadersFor(fields, idx)
      && forall i :: 0 <= i < |data| ==>
           |file[i + 1]| == |idx|
           && forall j :: 0 <= j < |idx| ==> file[i + 1][j] == ValueToString(fields[idx[j]].get(data[i]))
  {
    var rows := Rows(fields, idx, data);
    var file := [HeadersFor(fields, idx)] + rows;
    forall i | 0 <= i < |data|
      ensures file[i + 1] == CsvRow(fields, idx, data[i])
    {
      assert file[i + 1] == rows[i];
    }
  }

  /** No data and a struct type: the file holds the header row alone (nothing when no field is tagged). */
  lemma WriteCsvEmptyData<T>(filePath: string, fields: seq<StructField<T>>, mk: set<string>, cr: set<string>)
    requires Dir(filePath) !in mk && filePath !in cr
    ensures var o := WriteCsvSpec(filePath, Struct(fields), [], mk, cr);
      var headers := HeadersFor(fields, ExportedIndices(fields));
      o.err.None? && o.file == Some(if |headers| > 0 then [headers] else [])
  {
    var headers := HeadersFor(fields, ExportedIndices(fields));
    var head: seq<seq<string>> := if |headers| > 0 then [headers] else [];
    assert Rows(fields, ExportedIndices(fields), []) == [];
    assert head + [] == head;
  }

  /** Records but no tagged field: an error, and the file is left created and empty. */
  lemma WriteCsvNoTags<T>(filePath: string, fields: seq<StructField<T>>, data: seq<T>, mk: set<string>, cr: set<string>)
    requires Dir(filePath) !in mk && filePath !in cr && |data| > 0
    requires forall i :: 0 <= i < |fields| ==> !IsExportTag(fields[i].csvTag)
    ensures WriteCsvSpec(filePath, Struct(fields), data, mk, cr) == WriteOutcome(Some(NoTaggedFields), Some([]))
  {
    SomeFieldExported(fields);
  }
}
