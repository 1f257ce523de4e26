/**
 * The cells of data/sensor_readings.csv, the file backend/app.py appends
 * to and reads back when MySQL is unreachable, and which
 * backend/sensor_generator.py appends to as well.
 *
 * A cell is kept as the value whose str() the writer put into the file,
 * so that what int(), float() and json.loads() make of the cell text on
 * the way back is a function of that value.
 */
module CsvText {
  import opened Wrappers
  import opened Soil

  datatype CellText =
    | IntText(i: int)               // str() of an int
    | FloatText(x: real)            // str() of a float (repr, which float() reads back exactly)
    | RawText(v: RawValue)          // str() of a value echoed from a request body
    | TimeText(t: int)              // datetime.isoformat() of a clock reading
    | JsonList(items: seq<string>)  // json.dumps() of a list of strings
    | Literal(s: string)            // any other text: 'True', 'Good', ''

  function DigitValue(c: char): int { c as int - '0' as int }

  predicate IsDigits(s: string) {
    |s| > 0 && forall i :: 0 <= i < |s| ==> '0' <= s[i] <= '9'
  }

  /** The value of a non-empty run of decimal digits. */
  function DigitsValue(s: string): (n: nat)
    requires IsDigits(s)
  {
    if |s| == 1 then DigitValue(s[0])
    else DigitsValue(s[..|s| - 1]) * 10 + DigitValue(s[|s| - 1])
  }

  /** int() on a decimal integer literal with an optional sign; None where int() raises. */
  function ParseIntLiteral(s: string): (r: Option<int>)
    ensures r.Some? ==> |s| > 0
  {
    if |s| > 1 && (s[0] == '-' || s[0] == '+') && IsDigits(s[1..]) then
      Some(if s[0] == '-' then -(DigitsValue(s[1..]) as int) else DigitsValue(s[1..]))
    else if IsDigits(s) then Some(DigitsValue(s))
    else None
  }

  /** int(cell): None where int() raises; int() ignores blanks around the digits. */
  function IntOf(c: CellText): Option<int> {
    match c
    case IntText(i) => Some(i)
    case Literal(s) => ParseIntLiteral(Strip(s))
    case _ => None
  }

  /**
   * float(cell): None where float() raises. The text of a request value
   * reads back as float() of the value itself, except for a boolean,
   * whose text 'True' or 'False' float() rejects.
   */
  function FloatOf(c: CellText): Option<real> {
    match c
    case IntText(i) => Some(i as real)
    case FloatText(x) => Some(x)
    case RawText(v) => if !v.Bool? && ToFloat(v).Success? then Some(ToFloat(v).value) else None
    case Literal(s) => FloatLiteral(s)
    case _ => None
  }

  /**
   * json.loads(cell) for a critical-factors cell: None where it raises.
   * Text is read as a JSON array of strings without escapes.
   */
  function JsonListOf(c: CellText): Option<seq<string>> {
    match c
    case JsonList(items) => Some(items)
    case Literal(s) => JsonStringList(s)
    case _ => None
  }

  /** The blank cell the generator writes when it has no analysis fails every numeric conversion. */
  lemma BlankCellDoesNotParse()
    ensures IntOf(Literal("")) == None && FloatOf(Literal("")) == None && JsonListOf(Literal("")) == None
  {
  }

  /** A cell holding str() of an int reads back as that int. */
  lemma IntCellRoundTrip(i: int)
    ensures IntOf(IntText(i)) == Some(i) && FloatOf(IntText(i)) == Some(i as real)
  {
  }

  /** A decimal literal with a sign reads back negated. */
  lemma NegativeLiteral(s: string)
    requires IsDigits(s)
    ensures ParseIntLiteral("-" + s) == Some(-(DigitsValue(s) as int))
  {
    assert ("-" + s)[1..] == s;
  }

  /**
   * One row as csv.DictReader yields it: each header column maps to its
   * cell, or to None when the line is shorter than the header. Extra cells
   * go to the reader's rest key and are not visible to `row.get`.
   */
  type CsvRow = map<string, Option<CellText>>

  function DictRow(header: seq<string>, cells: seq<CellText>): (row: CsvRow)
    ensures forall k :: k in row <==> k in header
  {
    DictRowKeys(header, cells, |header|);
    assert header[..|header|] == header;
    DictRowUpTo(header, cells, |header|)
  }

  /** The cell at column `j`, or None past the end of the line. */
  function CellAt(cells: seq<CellText>, j: nat): Option<CellText> {
    if j < |cells| then Some(cells[j]) else None
  }

  /** The row built from the first `n` header columns. */
  function DictRowUpTo(header: seq<string>, cells: seq<CellText>, n: nat): CsvRow
    requires n <= |header|
  {
    if n == 0 then map[] else DictRowUpTo(header, cells, n - 1)[header[n - 1] := CellAt(cells, n - 1)]
  }

  /** The row built from the first `n` header columns has exactly those columns as keys. */
  lemma {:induction false} DictRowKeys(header: seq<string>, cells: seq<CellText>, n: nat)
    requires n <= |header|
    ensures forall k :: k in DictRowUpTo(header, cells, n) <==> k in header[..n]
  {
    if n > 0 {
      DictRowKeys(header, cells, n - 1);
      assert header[..n] == header[..n - 1] + [header[n - 1]];
    }
  }

  /** `row.get(key, default)`: the default for a column the header lacks. */
  function Get(row: CsvRow, key: string, default: CellText): Option<CellText> {
    if key in row then row[key] else Some(default)
  }

  /** `row.get(key)`: None for a column the header lacks. */
  function GetOrNone(row: CsvRow, key: string): Option<CellText> {
    if key in row then row[key] else None
  }

  /** int() of an optional cell: int(None) raises TypeError. */
  function IntOfCell(c: Option<CellText>): Option<int> {
    if c.Some? then IntOf(c.value) else None
  }

  function FloatOfCell(c: Option<CellText>): Option<real> {
    if c.Some? then FloatOf(c.value) else None
  }

  function JsonListOfCell(c: Option<CellText>): Option<seq<string>> {
    if c.Some? then JsonListOf(c.value) else None
  }

  /** The column order app.py's writer uses, which is also its header. */
  const AppColumns: seq<string> := ["timestamp", "N", "P", "K", "CO2", "Temperature", "Moisture", "pH",
    "health_index", "health_status", "is_anomalous", "anomaly_score", "critical_factors"]

  /** The header sensor_generator.py writes when it creates the file: no critical_factors column. */
  const GeneratorColumns: seq<string> := AppColumns[..12]

  /** With distinct header names, each column maps to the cell at its position. */
  lemma {:induction false} DictRowAt(header: seq<string>, cells: seq<CellText>, n: nat, j: nat)
    requires j < n <= |header|
    requires forall a, b :: 0 <= a < b < |header| ==> header[a] != header[b]
    ensures header[j] in DictRowUpTo(header, cells, n) && DictRowUpTo(header, cells, n)[header[j]] == CellAt(cells, j)
  {
    if j < n - 1 {
      DictRowAt(header, cells, n - 1, j);
      assert header[j] != header[n - 1];
    }
  }

  lemma AppColumnsDistinct()
    ensures forall a, b :: 0 <= a < b < |AppColumns| ==> AppColumns[a] != AppColumns[b]
  {
  }

  /** The header line DictWriter.writeheader writes. */
  function HeaderLine(columns: seq<string>): (line: seq<CellText>)
    ensures |line| == |columns| && forall i :: 0 <= i < |line| ==> line[i] == Literal(columns[i])
  {
    if |columns| == 0 then [] else HeaderLine(columns[..|columns| - 1]) + [Literal(columns[|columns| - 1])]
  }

  // ---------------------------------------------------------------------
  // Reading a line back as text: str.strip, str.split(','), float()

  /** The ASCII characters str.isspace() holds for: blank, tab to carriage return, and the separators 0x1C to 0x1F. */
  predicate IsSpace(c: char) {
    c == ' ' || ('\t' <= c <= '\r') || ('\U{1C}' <= c <= '\U{1F}')
  }

  /** `s.strip()` for the ASCII whitespace of IsSpace. */
  function Strip(s: string): (t: string)
    ensures |t| <= |s|
    ensures |t| > 0 ==> !IsSpace(t[0]) && !IsSpace(t[|t| - 1])
    decreases |s|
  {
    if |s| > 0 && IsSpace(s[0]) then Strip(s[1..])
    else if |s| > 0 && IsSpace(s[|s| - 1]) then Strip(s[..|s| - 1])
    else s
  }

  /** `s.split(sep)`: the pieces between separators, at least one. */
  function Split(s: string, sep: char): (parts: seq<string>)
    ensures |parts| >= 1
  {
    if |s| == 0 then [""]
    else
      var rest := Split(s[..|s| - 1], sep);
      var c := s[|s| - 1];
      if c == sep then rest + [""] else rest[..|rest| - 1] + [rest[|rest| - 1] + [c]]
  }

  /** `sep.join(parts)` */
  function Join(parts: seq<string>, sep: char): string
    requires |parts| >= 1
  {
    if |parts| == 1 then parts[0] else Join(parts[..|parts| - 1], sep) + [sep] + parts[|parts| - 1]
  }

  /** Splitting loses nothing: the pieces hold no separator and join back to the text. */
  lemma {:induction false} SplitJoin(s: string, sep: char)
    ensures Join(Split(s, sep), sep) == s
    ensures forall i :: 0 <= i < |Split(s, sep)| ==> sep !in Split(s, sep)[i]
  {
    if |s| > 0 {
      var init := s[..|s| - 1];
      SplitJoin(init, sep);
      var rest := Split(init, sep);
      var c := s[|s| - 1];
      if c != sep {
        var parts := Split(s, sep);
        assert parts[..|parts| - 1] == rest[..|rest| - 1];
        if |rest| > 1 {
          assert rest == rest[..|rest| - 1] + [rest[|rest| - 1]];
        }
      }
      assert s == init + [c];
    }
  }

  /** A character other than the separator joins the last piece. */
  lemma SplitExtendLast(y: string, c: char, sep: char, pieces: seq<string>, last: string)
    requires c != sep && Split(y, sep) == pieces + [last]
    ensures Split(y + [c], sep) == pieces + [last + [c]]
  {
    var s := y + [c];
    assert s[..|s| - 1] == y && s[|s| - 1] == c;
    var r := pieces + [last];
    assert r[..|r| - 1] == pieces && r[|r| - 1] == last;
  }

  /** Splitting after text with no separator at its end only lengthens the last piece. */
  lemma {:induction false} SplitAppendFree(x: string, b: string, sep: char)
    requires sep !in b
    ensures var px := Split(x, sep);
      Split(x + b, sep) == px[..|px| - 1] + [px[|px| - 1] + b]
    decreases |b|
  {
    var px := Split(x, sep);
    var pieces := px[..|px| - 1];
    var last := px[|px| - 1];
    if |b| == 0 {
      assert x + b == x && last + b == last;
      assert px == pieces + [last];
    } else {
      var b' := b[..|b| - 1];
      var c := b[|b| - 1];
      assert b == b' + [c];
      assert sep !in b';
      SplitAppendFree(x, b', sep);
      SplitExtendLast(x + b', c, sep, pieces, last + b');
      assert (x + b') + [c] == x + b;
      assert (last + b') + [c] == last + b;
    }
  }

  /** A separator at the end opens an empty last piece. */
  lemma SplitEndingInSep(x: string, sep: char)
    ensures Split(x + [sep], sep) == Split(x, sep) + [""]
  {
    var s := x + [sep];
    assert s[..|s| - 1] == x;
  }

  /** A separator, then text without one, adds that text as a new last piece. */
  lemma SplitAfterSep(x: string, pieces: seq<string>, last: string, sep: char)
    requires Split(x, sep) == pieces && sep !in last
    ensures Split(x + [sep] + last, sep) == pieces + [last]
  {
    SplitEndingInSep(x, sep);
    var pj := Split(x + [sep], sep);
    assert pj == pieces + [""];
    SplitAppendFree(x + [sep], last, sep);
    assert pj[..|pj| - 1] == pieces;
    assert pj[|pj| - 1] + last == last;
  }

  /** Pieces without the separator, joined, split back into themselves. */
  lemma {:induction false} SplitOfJoin(parts: seq<string>, sep: char)
    requires |parts| >= 1
    requires forall i :: 0 <= i < |parts| ==> sep !in parts[i]
    ensures Split(Join(parts, sep), sep) == parts
  {
    var last := parts[|parts| - 1];
    assert sep !in last;
    if |parts| == 1 {
      SplitAppendFree("", last, sep);
      assert "" + last == last;
      assert Join(parts, sep) == last;
      assert parts == [last];
    } else {
      var init := parts[..|parts| - 1];
      assert forall i :: 0 <= i < |init| ==> init[i] == parts[i];
      SplitOfJoin(init, sep);
      SplitAfterSep(Join(init, sep), init, last, sep);
      assert Join(parts, sep) == Join(init, sep) + [sep] + last;
      assert parts == init + [last];
    }
  }

  /** 10 to the power `k`. */
  function Pow10(k: nat): (r: nat)
    ensures r >= 1
  {
    if k == 0 then 1 else 10 * Pow10(k - 1)
  }

  /** The value of an unsigned decimal: digits, with at most one point and a digit on some side of it. */
  function DecimalValue(s: string): Option<real> {
    if IsDigits(s) then Some(DigitsValue(s) as real)
    else if '.' in s then
      var i := FirstIndex(s, '.');
      var whole := s[..i];
      var frac := s[i + 1..];
      if (whole == [] || IsDigits(whole)) && (frac == [] || IsDigits(frac)) && |whole| + |frac| > 0 then
        Some((if whole == [] then 0.0 else DigitsValue(whole) as real)
             + (if frac == [] then 0.0 else DigitsValue(frac) as real / Pow10(|frac|) as real))
      else None
    else None
  }

  /** Position of the first occurrence of `c` in `s`. */
  function FirstIndex(s: string, c: char): (i: nat)
    requires c in s
    ensures i < |s| && s[i] == c && c !in s[..i]
  {
    if s[0] == c then 0 else 1 + FirstIndex(s[1..], c)
  }

  /**
   * float() on text, for plain decimals with an optional sign and
   * surrounding whitespace; None where float() raises. Exponents, 'inf'
   * and 'nan' are not modelled.
   */
  function FloatLiteral(s: string): Option<real> {
    var t := Strip(s);
    if |t| > 0 && (t[0] == '-' || t[0] == '+') then
      var v := DecimalValue(t[1..]);
      if v.Some? then Some(if t[0] == '-' then -v.value else v.value) else None
    else DecimalValue(t)
  }

  /** "22.5" as an unsigned decimal. */
  lemma DecimalTwentyTwoHalf()
    ensures DecimalValue("22.5") == Some(22.5)
  {
    var t := "22.5";
    assert !IsDigits(t) by { assert t[2] == '.'; }
    assert FirstIndex(t, '.') == 2 by { assert t[1..] == "2.5" && t[2..] == ".5"; }
    assert t[..2] == "22" && t[3..] == "5";
    assert DigitsValue("22") == 22 by { assert "22"[..1] == "2"; }
  }

  lemma FloatLiteralPositive()
    ensures FloatLiteral("22.5") == Some(22.5)
  {
    assert Strip("22.5") == "22.5" && "22.5"[0] == '2';
    DecimalTwentyTwoHalf();
  }

  /** A text cell reads as float() reads its text. */
  lemma FloatLiteralCell()
    ensures FloatOf(Literal("22.5")) == Some(22.5)
  {
    var t := "22.5";
    assert FloatOf(Literal(t)) == FloatLiteral(t);
    FloatLiteralPositive();
  }

  /** int() ignores the blanks around the digits of a text cell. */
  lemma IntLiteralCellWithBlank()
    ensures IntOf(Literal(" 5")) == Some(5)
  {
    assert Strip(" 5") == "5" by { assert " 5"[1..] == "5"; }
  }

  /** "7.25" as an unsigned decimal. */
  lemma DecimalSevenQuarter()
    ensures DecimalValue("7.25") == Some(7.25)
  {
    var t := "7.25";
    assert !IsDigits(t) by { assert t[1] == '.'; }
    assert FirstIndex(t, '.') == 1 by { assert t[1..] == ".25"; }
    assert t[..1] == "7" && t[2..] == "25";
    assert DigitsValue("25") == 25 by { assert "25"[..1] == "2"; }
  }

  lemma FloatLiteralNegative()
    ensures FloatLiteral(" -7.25") == Some(-7.25)
  {
    assert Strip(" -7.25") == "-7.25" by { assert " -7.25"[1..] == "-7.25"; }
    assert "-7.25"[1..] == "7.25";
    DecimalSevenQuarter();
  }

  lemma FloatLiteralRejects()
    ensures FloatLiteral("") == None && FloatLiteral("Good") == None
  {
    assert Strip("Good") == "Good";
    assert !IsDigits("Good") by { assert "Good"[0] == 'G'; }
    assert '.' !in "Good";
  }

  // ---------------------------------------------------------------------
  // json.loads and json.dumps on a list of strings

  /** The whitespace JSON allows between tokens. */
  predicate IsJsonSpace(c: char) {
    c == ' ' || c == '\t' || c == '\n' || c == '\r'
  }

  /** The text after any leading JSON whitespace. */
  function SkipJsonSpace(s: string): (t: string)
    ensures |t| <= |s|
    ensures |t| > 0 ==> !IsJsonSpace(t[0])
  {
    if |s| > 0 && IsJsonSpace(s[0]) then SkipJsonSpace(s[1..]) else s
  }

  /** A character a JSON string may hold as it is: no quote, no backslash, no control character. */
  predicate IsPlainChar(c: char) {
    c != '"' && c != '\\' && c >= ' '
  }

  /**
   * The string token at the head of `s`, which starts with a quote: its
   * characters and the text after the closing quote. None when a character
   * before that quote is not plain.
   */
  function StringToken(s: string): (r: Option<(string, string)>)
    requires |s| > 0 && s[0] == '"'
    ensures r.Some? ==> |r.value.1| < |s|
  {
    var body := s[1..];
    if '"' in body then
      var i := FirstIndex(body, '"');
      if forall j :: 0 <= j < i ==> IsPlainChar(body[j]) then Some((body[..i], body[i + 1..])) else None
    else None
  }

  /**
   * The items of an array whose opening bracket has been read, up to and
   * including the closing one, and the text after it. `first` says whether
   * an item was read yet: only then may the bracket close at once.
   */
  function ArrayItems(s: string, first: bool): Option<(seq<string>, string)>
    decreases |s|
  {
    var u := SkipJsonSpace(s);
    if |u| == 0 then None
    else if u[0] == ']' && first then Some(([], u[1..]))
    else if u[0] != '"' then None
    else
      var tok := StringToken(u);
      if tok.None? then None
      else
        var v := SkipJsonSpace(tok.value.1);
        if |v| > 0 && v[0] == ']' then Some(([tok.value.0], v[1..]))
        else if |v| == 0 || v[0] != ',' then None
        else
          ConsItem(tok.value.0, ArrayItems(v[1..], false))
  }

  /** One more item in front of the items read after it. */
  function ConsItem(item: string, more: Option<(seq<string>, string)>): Option<(seq<string>, string)> {
    if more.None? then None else Some(([item] + more.value.0, more.value.1))
  }

  /** `json.loads(s)` where it yields a list of strings: one array, whitespace allowed around it. */
  function JsonStringList(s: string): Option<seq<string>> {
    var u := SkipJsonSpace(s);
    if |u| == 0 || u[0] != '[' then None else WholeArray(ArrayItems(u[1..], true))
  }

  /** The items of the array, when nothing but whitespace follows it. */
  function WholeArray(r: Option<(seq<string>, string)>): Option<seq<string>> {
    if r.Some? && SkipJsonSpace(r.value.1) == [] then Some(r.value.0) else None
  }

  function Quoted(x: string): string {
    ['"'] + x + ['"']
  }

  /** The items of a non-empty list as json.dumps separates them: `", "`. */
  function DumpedItems(items: seq<string>): string
    requires |items| > 0
  {
    if |items| == 1 then Quoted(items[0]) else Quoted(items[0]) + ", " + DumpedItems(items[1..])
  }

  /** `json.dumps(items)` for strings of plain ASCII characters, which it writes unescaped. */
  function JsonDumps(items: seq<string>): string {
    if |items| == 0 then "[]" else "[" + DumpedItems(items) + "]"
  }

  predicate PlainAscii(x: string) {
    forall j :: 0 <= j < |x| ==> IsPlainChar(x[j]) && x[j] < '\U{80}'
  }

  /** The first quote in a quote-free text, a quote, then anything, is at the end of that text. */
  lemma {:induction false} FirstQuoteAfter(x: string, rest: string)
    requires '"' !in x
    ensures FirstIndex(x + ['"'] + rest, '"') == |x|
  {
    if |x| > 0 {
      FirstQuoteAfter(x[1..], rest);
      assert (x + ['"'] + rest)[1..] == x[1..] + ['"'] + rest;
    }
  }

  /** The string token of a quoted plain string is that string, and the text after it. */
  lemma StringTokenOfQuoted(x: string, tail: string)
    requires PlainAscii(x)
    ensures StringToken(Quoted(x) + tail) == Some((x, tail))
  {
    var s := Quoted(x) + tail;
    var body := s[1..];
    assert body == x + ['"'] + tail;
    assert '"' !in x by {
      forall j | 0 <= j < |x| ensures x[j] != '"' { assert IsPlainChar(x[j]); }
    }
    FirstQuoteAfter(x, tail);
    assert body[..|x|] == x && body[|x| + 1..] == tail;
  }

  /** A quoted plain string, then the closing bracket, is a last item. */
  lemma ArrayItemsLast(x: string, tail: string, first: bool)
    requires PlainAscii(x)
    ensures ArrayItems(Quoted(x) + "]" + tail, first) == Some(([x], tail))
  {
    var s := Quoted(x) + "]" + tail;
    assert SkipJsonSpace(s) == s;
    assert s == Quoted(x) + ("]" + tail);
    StringTokenOfQuoted(x, "]" + tail);
    assert SkipJsonSpace("]" + tail) == "]" + tail;
    assert ("]" + tail)[1..] == tail;
  }

  /** SkipJsonSpace is idempotent. */
  lemma SkipJsonSpaceTwice(s: string)
    ensures SkipJsonSpace(SkipJsonSpace(s)) == SkipJsonSpace(s)
  {
  }

  /** Only the text after the leading whitespace decides how the items read. */
  lemma ArrayItemsSkip(s: string, first: bool)
    ensures ArrayItems(s, first) == ArrayItems(SkipJsonSpace(s), first)
  {
    SkipJsonSpaceTwice(s);
  }

  /** An item followed by a comma is that item, then the items after the comma. */
  lemma ArrayItemsComma(s: string, first: bool, item: string, after: string)
    requires |s| > 0 && s[0] == '"' && StringToken(s) == Some((item, after))
    requires |after| > 0 && after[0] == ','
    ensures ArrayItems(s, first) == ConsItem(item, ArrayItems(after[1..], false))
  {
    assert SkipJsonSpace(s) == s;
    assert SkipJsonSpace(after) == after;
  }

  /** A blank before an item is skipped. */
  lemma ArrayItemsAfterBlank(t: string, first: bool)
    requires |t| > 0 && t[0] == '"'
    ensures ArrayItems([' '] + t, first) == ArrayItems(t, first)
  {
    var u := [' '] + t;
    assert SkipJsonSpace(u) == SkipJsonSpace(t) by { assert u[1..] == t; }
    ArrayItemsSkip(u, first);
    ArrayItemsSkip(t, first);
  }

  /** A quoted plain string, then `", "`, is an item followed by the items after the blank. */
  lemma ArrayItemsNext(x: string, t: string, first: bool)
    requires PlainAscii(x) && |t| > 0 && t[0] == '"'
    ensures ArrayItems(Quoted(x) + ", " + t, first) == ConsItem(x, ArrayItems(t, false))
  {
    var after := ", " + t;
    assert Quoted(x) + ", " + t == Quoted(x) + after;
    StringTokenOfQuoted(x, after);
    ArrayItemsComma(Quoted(x) + after, first, x, after);
    assert after[1..] == [' '] + t;
    ArrayItemsAfterBlank(t, false);
  }

  /** The items json.dumps wrote start with a quote. */
  lemma DumpedItemsStart(items: seq<string>)
    requires |items| > 0
    ensures |DumpedItems(items)| > 0 && DumpedItems(items)[0] == '"'
  {
  }

  /** A list of two or more items is dumped as its first item, `", "` and the rest. */
  lemma DumpedItemsCons(items: seq<string>, tail: string)
    requires |items| > 1
    ensures DumpedItems(items) + "]" + tail == Quoted(items[0]) + ", " + (DumpedItems(items[1..]) + "]" + tail)
  {
  }

  /** The items json.dumps wrote, then the closing bracket, read back as those items. */
  lemma {:induction false} ArrayItemsOfDumped(items: seq<string>, tail: string, first: bool)
    requires |items| > 0 && forall i :: 0 <= i < |items| ==> PlainAscii(items[i])
    ensures ArrayItems(DumpedItems(items) + "]" + tail, first) == Some((items, tail))
    decreases |items|
  {
    if |items| == 1 {
      ArrayItemsLast(items[0], tail, first);
      assert [items[0]] == items;
    } else {
      var rest := items[1..];
      assert forall i :: 0 <= i < |rest| ==> rest[i] == items[i + 1];
      ArrayItemsOfDumped(rest, tail, false);
      DumpedItemsStart(rest);
      var t := DumpedItems(rest) + "]" + tail;
      assert PlainAscii(items[0]);
      ArrayItemsNext(items[0], t, first);
      DumpedItemsCons(items, tail);
      assert [items[0]] + rest == items;
    }
  }

  /** Text that opens with a bracket is read as one array. */
  lemma JsonStringListBracket(s: string)
    requires |s| > 0 && s[0] == '['
    ensures JsonStringList(s) == WholeArray(ArrayItems(s[1..], true))
  {
    assert SkipJsonSpace(s) == s;
  }

  /**
   * What json.dumps writes for a list of plain ASCII strings, json.loads
   * reads back as that list: a critical-factors cell means the same as
   * its text.
   */
  lemma JsonListRoundTrip(items: seq<string>)
    requires forall i :: 0 <= i < |items| ==> PlainAscii(items[i])
    ensures JsonListOf(Literal(JsonDumps(items))) == Some(items) == JsonListOf(JsonList(items))
  {
    if |items| == 0 {
      EmptyArrayReads();
    } else {
      DumpedArrayReads(items);
    }
  }

  /** `[]` reads as the empty list. */
  lemma EmptyArrayReads()
    ensures JsonStringList("[]") == Some([])
  {
    JsonStringListBracket("[]");
    assert "[]"[1..] == "]";
    assert SkipJsonSpace("]") == "]" && "]"[1..] == [];
  }

  /** The text json.dumps writes for a non-empty list of plain strings reads as that list. */
  lemma DumpedArrayReads(items: seq<string>)
    requires |items| > 0 && forall i :: 0 <= i < |items| ==> PlainAscii(items[i])
    ensures JsonStringList(JsonDumps(items)) == Some(items)
  {
    var s := JsonDumps(items);
    JsonStringListBracket(s);
    ArrayItemsOfDumped(items, "", true);
    assert s[1..] == DumpedItems(items) + "]" + "";
  }

  /** Whitespace around an empty array is allowed. */
  lemma EmptyJsonListWithBlanks()
    ensures JsonStringList(" [ ] ") == Some([])
  {
    var s := " [ ] ";
    assert SkipJsonSpace(s) == "[ ] " by { assert s[1..] == "[ ] "; }
    var u := "[ ] "[1..];
    assert u == " ] ";
    assert SkipJsonSpace(u) == "] " by { assert u[1..] == "] "; }
    assert "] "[1..] == " ";
    assert SkipJsonSpace(" ") == [] by { assert " "[1..] == []; }
  }

  /** A trailing comma is refused. */
  lemma TrailingCommaRejected(x: string)
    requires PlainAscii(x)
    ensures JsonStringList("[" + Quoted(x) + ",]") == None
  {
    var s := "[" + Quoted(x) + ",]";
    JsonStringListBracket(s);
    var u := s[1..];
    assert u == Quoted(x) + ",]";
    StringTokenOfQuoted(x, ",]");
    ArrayItemsComma(u, true, x, ",]");
    assert ",]"[1..] == "]";
    BracketClosesNoItem();
  }

  /** After a comma, a closing bracket is not an item. */
  lemma BracketClosesNoItem()
    ensures ArrayItems("]", false) == None
  {
    assert SkipJsonSpace("]") == "]";
  }

  /** The list of one factor reads back. */
  lemma OneFactorList()
    ensures JsonStringList("[\"pH\"]") == Some(["pH"])
  {
    assert PlainAscii("pH");
    JsonListRoundTrip(["pH"]);
    assert JsonDumps(["pH"]) == "[\"pH\"]";
  }
}
