/**
 The study event log: one JSON object per line, written by hand.  Strings are byte strings; the decoder follows
 section 7 of RFC 8259.
 */
module StudyLog {
  import opened TextLines
  import opened Words

  const NEWLINE: U8 := 10
  const QUOTE: U8 := 34
  const COMMA: U8 := 44
  const COLON: U8 := 58
  const BACKSLASH: U8 := 92
  const OPEN_BRACE: U8 := 123
  const CLOSE_BRACE: U8 := 125

  // ---------------------------------------------------------------------------------------------
  // Escaping

  function HexDigit(n: nat): (d: U8)
    requires n < 16
  {
    if n < 10 then 48 + n else 87 + n
  }

  function EscapedByte(ch: U8): (r: Bytes)
    ensures r != []
  {
    if ch == BACKSLASH then [BACKSLASH, BACKSLASH]
    else if ch == QUOTE then [BACKSLASH, QUOTE]
    else if ch == 8 then [BACKSLASH, 98]
    else if ch == 12 then [BACKSLASH, 102]
    else if ch == 10 then [BACKSLASH, 110]
    else if ch == 13 then [BACKSLASH, 114]
    else if ch == 9 then [BACKSLASH, 116]
    else if ch < 32 then [BACKSLASH, 117, 48, 48, HexDigit(ch / 16), HexDigit(ch % 16)]
    else [ch]
  }

  function Escaped(s: Bytes): Bytes {
    if s == [] then [] else EscapedByte(s[0]) + Escaped(s[1..])
  }

  lemma {:induction false} EscapedSnoc(s: Bytes, ch: U8)
    ensures Escaped(s + [ch]) == Escaped(s) + EscapedByte(ch)
  {
    if s == [] {
      assert s + [ch] == [ch];
    } else {
      hide EscapedByte;
      EscapedSnoc(s[1..], ch);
      assert (s + [ch])[0] == s[0] && (s + [ch])[1..] == s[1..] + [ch];
    }
  }

  method EscapeJsonString(value: Bytes) returns (escaped: Bytes)
    ensures escaped == Escaped(value)
  {
    hide EscapedByte;
    escaped := [];
    for i := 0 to |value|
      invariant escaped == Escaped(value[..i])
    {
      EscapedSnoc(value[..i], value[i]);
      assert value[..i] + [value[i]] == value[..i + 1];
      escaped := escaped + EscapedByte(value[i]);
    }
    assert value[..|value|] == value;
  }

  // ---------------------------------------------------------------------------------------------
  // The string decoder of RFC 8259

  datatype Decoded = Decoded(value: Bytes, rest: Bytes) | Malformed

  function HexValue(d: U8): int {
    if 48 <= d <= 57 then d - 48
    else if 97 <= d <= 102 then d - 87
    else if 65 <= d <= 70 then d - 55
    else -1
  }

  /** The UTF-8 form of a code unit; unpaired surrogates have none. */
  function Utf8(code: nat): (r: Bytes)
    requires code < 0x1_0000
  {
    if code < 0x80 then [code]
    else if code < 0x800 then [0xC0 + code / 0x40, 0x80 + code % 0x40]
    else [0xE0 + code / 0x1000, 0x80 + code / 0x40 % 0x40, 0x80 + code % 0x40]
  }

  /** The bytes an escape after the backslash stands for, and how many bytes it takes. */
  datatype Escape = Escape(bytes: Bytes, length: nat) | BadEscape

  function EscapeAt(s: Bytes): (e: Escape)
    ensures e.Escape? ==> 0 < e.length <= |s|
  {
    if s == [] then BadEscape
    else if s[0] == QUOTE || s[0] == BACKSLASH || s[0] == 47 then Escape([s[0]], 1)
    else if s[0] == 98 then Escape([8], 1)
    else if s[0] == 102 then Escape([12], 1)
    else if s[0] == 110 then Escape([10], 1)
    else if s[0] == 114 then Escape([13], 1)
    else if s[0] == 116 then Escape([9], 1)
    else if s[0] == 117 && |s| >= 5 then UnicodeEscape(s)
    else BadEscape
  }

  function UnicodeEscape(s: Bytes): (e: Escape)
    requires |s| >= 5
    ensures e.Escape? ==> 0 < e.length <= |s|
  {
    var a, b, c, d := HexValue(s[1]), HexValue(s[2]), HexValue(s[3]), HexValue(s[4]);
    if a < 0 || b < 0 || c < 0 || d < 0 then BadEscape
    else
      var code := a * 0x1000 + b * 0x100 + c * 0x10 + d;
      if 0xD800 <= code < 0xE000 then BadEscape else Escape(Utf8(code), 5)
  }

  /** Reads the rest of a string, up to and with its closing quote. */
  function DecodeString(s: Bytes): (r: Decoded)
    ensures r.Decoded? ==> |r.rest| < |s|
  {
    if s == [] || s[0] < 32 then Malformed
    else if s[0] == QUOTE then Decoded([], s[1..])
    else if s[0] == BACKSLASH then
      match EscapeAt(s[1..])
      case BadEscape => Malformed
      case Escape(bytes, n) => Prefixed(bytes, DecodeString(s[1 + n..]))
    else Prefixed([s[0]], DecodeString(s[1..]))
  }

  function Prefixed(bytes: Bytes, d: Decoded): Decoded {
    match d
    case Decoded(value, rest) => Decoded(bytes + value, rest)
    case Malformed => Malformed
  }

  lemma HexReturns(n: nat)
    requires n < 16
    ensures HexValue(HexDigit(n)) == n
  {
  }

  lemma ControlReturns(ch: U8, rest: Bytes)
    requires ch < 32
    ensures EscapeAt([117, 48, 48, HexDigit(ch / 16), HexDigit(ch % 16)] + rest) == Escape([ch], 5)
  {
    HexReturns(ch / 16);
    HexReturns(ch % 16);
    assert ch / 16 * 16 + ch % 16 == ch;
  }

  /** One escaped byte decodes to that byte. */
  lemma ByteDecodes(ch: U8, rest: Bytes)
    ensures DecodeString(EscapedByte(ch) + rest) == Prefixed([ch], DecodeString(rest))
  {
    hide HexDigit, DecodeString, EscapeAt;
    var escaped := EscapedByte(ch);
    if escaped[0] == BACKSLASH {
      EscapeRead(ch, rest);
      EscapeDecoded(escaped[1..], rest, ch);
      assert escaped + rest == [BACKSLASH] + escaped[1..] + rest;
    } else {
      PlainDecoded(ch, rest);
    }
  }

  lemma PlainDecoded(ch: U8, rest: Bytes)
    requires ch >= 32 && ch != QUOTE && ch != BACKSLASH
    ensures DecodeString([ch] + rest) == Prefixed([ch], DecodeString(rest))
  {
    assert ([ch] + rest)[1..] == rest;
  }

  lemma EscapeDecoded(body: Bytes, rest: Bytes, ch: U8)
    requires EscapeAt(body + rest) == Escape([ch], |body|)
    ensures DecodeString([BACKSLASH] + body + rest) == Prefixed([ch], DecodeString(rest))
  {
    hide EscapeAt;
    var s := [BACKSLASH] + body + rest;
    assert s[1..] == body + rest;
    assert s[1 + |body|..] == rest;
  }

  lemma EscapeRead(ch: U8, rest: Bytes)
    requires EscapedByte(ch)[0] == BACKSLASH
    ensures EscapeAt(EscapedByte(ch)[1..] + rest) == Escape([ch], |EscapedByte(ch)| - 1)
  {
    hide UnicodeEscape;
    if |EscapedByte(ch)| == 6 {
      ControlReturns(ch, rest);
    }
  }

  /** The decoder undoes the escaping of every byte string and stops right behind it. */
  lemma {:induction false} EscapeDecodes(s: Bytes, rest: Bytes)
    ensures DecodeString(Escaped(s) + [QUOTE] + rest) == Decoded(s, rest)
  {
    if s == [] {
      assert Escaped(s) + [QUOTE] + rest == [QUOTE] + rest;
      assert ([QUOTE] + rest)[1..] == rest;
    } else {
      var tail := Escaped(s[1..]) + [QUOTE] + rest;
      assert Escaped(s) + [QUOTE] + rest == EscapedByte(s[0]) + tail;
      hide EscapedByte, DecodeString;
      ByteDecodes(s[0], tail);
      EscapeDecodes(s[1..], rest);
      assert [s[0]] + s[1..] == s;
    }
  }

  /** No control character survives escaping; in particular no newline. */
  lemma {:induction false} EscapedPrintable(s: Bytes)
    ensures forall b :: b in Escaped(s) ==> b >= 32
  {
    if s != [] {
      EscapedPrintable(s[1..]);
    }
  }

  // ---------------------------------------------------------------------------------------------
  // Records

  /** The text of a printed finite number: decimal digits, signs, a point, an exponent. */
  predicate NumeralByte(b: U8) {
    48 <= b <= 57 || b == 43 || b == 45 || b == 46 || b == 101
  }

  type Numeral = s: Bytes | s != [] && forall b :: b in s ==> NumeralByte(b) witness [48]

  datatype Value =
    | Text(text: Bytes)
    | Whole(number: int)
    | Finite(printed: Numeral)
    | NotFinite
    | Flag(flag: bool)

  datatype Field = Field(key: Bytes, value: Value)

  type Record = seq<Field>

  const TRUE_TEXT: Bytes := [116, 114, 117, 101]
  const FALSE_TEXT: Bytes := [102, 97, 108, 115, 101]
  const NULL_TEXT: Bytes := [110, 117, 108, 108]

  /** The decimal digits of a natural number. */
  function Digits(n: nat): (r: Bytes)
    ensures r != [] && forall b :: b in r ==> 48 <= b <= 57
  {
    if n < 10 then [48 + n] else Digits(n / 10) + [48 + n % 10]
  }

  function Decimal(n: int): (r: Bytes)
    ensures r != [] && forall b :: b in r ==> NumeralByte(b)
  {
    if n < 0 then [45] + Digits(-n) else Digits(n)
  }

  function Quoted(s: Bytes): Bytes {
    [QUOTE] + Escaped(s) + [QUOTE]
  }

  /** A value that is not a string. */
  function ScalarText(v: Value): (r: Bytes)
    requires !v.Text?
    ensures r != [] && forall b :: b in r ==> b >= 32 && b != COMMA && b != CLOSE_BRACE && b != QUOTE
  {
    match v
    case Whole(number) => Decimal(number)
    case Finite(printed) => printed
    case NotFinite => NULL_TEXT
    case Flag(flag) => if flag then TRUE_TEXT else FALSE_TEXT
  }

  function ValueText(v: Value): Bytes {
    if v.Text? then Quoted(v.text) else ScalarText(v)
  }

  function FieldText(f: Field): Bytes {
    Quoted(f.key) + [COLON] + ValueText(f.value)
  }

  /** The fields separated by commas. */
  function FieldsText(r: Record): Bytes {
    if r == [] then []
    else if |r| == 1 then FieldText(r[0])
    else FieldText(r[0]) + [COMMA] + FieldsText(r[1..])
  }

  function Serialized(r: Record): Bytes {
    [OPEN_BRACE] + FieldsText(r) + [CLOSE_BRACE]
  }

  lemma {:induction false} FieldsTextSnoc(r: Record, f: Field)
    ensures FieldsText(r + [f]) == FieldsText(r) + (if r == [] then [] else [COMMA]) + FieldText(f)
  {
    hide FieldText;
    if r == [] {
      assert r + [f] == [f];
    } else if |r| == 1 {
      assert (r + [f])[1..] == [f];
    } else {
      FieldsTextSnoc(r[1..], f);
      assert (r + [f])[0] == r[0] && (r + [f])[1..] == r[1..] + [f];
    }
  }

  method AppendJsonValue(stream: Bytes, value: Value) returns (grown: Bytes)
    ensures grown == stream + ValueText(value)
  {
    match value {
      case Text(text) =>
        var escaped := EscapeJsonString(text);
        grown := stream + [QUOTE] + escaped + [QUOTE];
      case Whole(number) => grown := stream + Decimal(number);
      case Finite(printed) => grown := stream + printed;
      case NotFinite => grown := stream + NULL_TEXT;
      case Flag(flag) => grown := stream + if flag then TRUE_TEXT else FALSE_TEXT;
    }
  }

  /** The body of the loop over the fields. */
  method AppendField(stream: Bytes, index: nat, field: Field) returns (grown: Bytes)
    ensures grown == stream + (if index > 0 then [COMMA] else []) + FieldText(field)
  {
    hide ValueText, Escaped;
    grown := stream;
    if index > 0 {
      grown := grown + [COMMA];
    }
    var key := EscapeJsonString(field.key);
    grown := grown + ([QUOTE] + key + [QUOTE]) + [COLON];
    grown := AppendJsonValue(grown, field.value);
  }

  method SerializeRecord(fields: Record) returns (line: Bytes)
    ensures line == Serialized(fields)
  {
    hide FieldText, FieldsText;
    line := [OPEN_BRACE];
    NoFields();
    for index := 0 to |fields|
      invariant line == [OPEN_BRACE] + FieldsText(fields[..index])
    {
      line := AppendField(line, index, fields[index]);
      FieldsTextSnoc(fields[..index], fields[index]);
      assert fields[..index] + [fields[index]] == fields[..index + 1];
    }
    assert fields[..|fields|] == fields;
    line := line + [CLOSE_BRACE];
  }

  // ---------------------------------------------------------------------------------------------
  // Numbers and literals

  /** The number a run of decimal digits stands for. */
  function DigitsValue(s: Bytes): int {
    if s == [] then 0 else DigitsValue(s[..|s| - 1]) * 10 + (s[|s| - 1] as int - 48)
  }

  function DecimalValue(s: Bytes): int {
    if s != [] && s[0] == 45 then -DigitsValue(s[1..]) else DigitsValue(s)
  }

  lemma {:induction false} DigitsReturn(n: nat)
    ensures DigitsValue(Digits(n)) == n
  {
    if n >= 10 {
      DigitsReturn(n / 10);
      assert (Digits(n / 10) + [48 + n % 10])[..|Digits(n / 10)|] == Digits(n / 10);
    }
  }

  /** A printed whole number reads back as itself. */
  lemma DecimalReturns(n: int)
    ensures DecimalValue(Decimal(n)) == n
  {
    if n < 0 {
      DigitsReturn(-n);
      assert ([45] + Digits(-n))[1..] == Digits(-n);
    } else {
      DigitsReturn(n);
      assert Digits(n)[0] in Digits(n);
    }
  }

  /** The bytes of a text in ASCII. */
  function Ascii(text: string): (s: Bytes)
    requires forall i :: 0 <= i < |text| ==> text[i] as int < 128
    ensures |s| == |text| && forall i :: 0 <= i < |s| ==> s[i] == text[i] as int
  {
    seq(|text|, i requires 0 <= i < |text| => text[i] as int)
  }

  /**
   What a JSON reader gets for a value: a string, a truth value, null, a whole number, or the text of another number.
   */
  datatype Parsed =
    | ParsedText(text: Bytes)
    | ParsedFlag(flag: bool)
    | ParsedNull
    | ParsedWhole(number: int)
    | ParsedNumber(raw: Bytes)

  /** An optional minus sign and at least one digit. */
  predicate IsWhole(s: Bytes) {
    var digits := if s != [] && s[0] == 45 then s[1..] else s;
    digits != [] && forall b :: b in digits ==> 48 <= b <= 57
  }

  function ParsedScalar(raw: Bytes): Parsed {
    if raw == Ascii("true") then ParsedFlag(true)
    else if raw == Ascii("false") then ParsedFlag(false)
    else if raw == Ascii("null") then ParsedNull
    else if IsWhole(raw) then ParsedWhole(DecimalValue(raw))
    else ParsedNumber(raw)
  }

  /** What a value means to a reader: a printed double is the whole number it spells, or the number of its text. */
  function Meaning(v: Value): Parsed {
    match v
    case Text(text) => ParsedText(text)
    case Whole(number) => ParsedWhole(number)
    case Finite(printed) => if IsWhole(printed) then ParsedWhole(DecimalValue(printed)) else ParsedNumber(printed)
    case NotFinite => ParsedNull
    case Flag(flag) => ParsedFlag(flag)
  }

  lemma DecimalIsWhole(n: int)
    ensures IsWhole(Decimal(n))
  {
    if n < 0 {
      assert Decimal(n)[1..] == Digits(-n);
    } else {
      assert Digits(n)[0] in Digits(n);
    }
  }

  /** The text of a value that is not a string reads as its meaning. */
  lemma ScalarMeans(v: Value)
    requires !v.Text?
    ensures ParsedScalar(ScalarText(v)) == Meaning(v)
  {
    hide Digits, DigitsValue;
    match v
    case Whole(number) =>
      DecimalIsWhole(number);
      DecimalReturns(number);
      NumeralIsNoWord(Decimal(number));
    case Finite(printed) => NumeralIsNoWord(printed);
    case NotFinite => assert NULL_TEXT == Ascii("null") && Ascii("true")[0] == 116 && Ascii("false")[0] == 102;
    case Flag(flag) =>
      assert TRUE_TEXT == Ascii("true") && FALSE_TEXT == Ascii("false") && TRUE_TEXT[0] != FALSE_TEXT[0];
  }

  lemma NumeralIsNoWord(s: Bytes)
    requires forall b :: b in s ==> NumeralByte(b)
    ensures s != Ascii("true") && s != Ascii("false") && s != Ascii("null")
  {
    assert Ascii("true")[0] == 116 && Ascii("false")[0] == 102 && Ascii("null")[0] == 110;
    assert s != [] ==> s[0] in s;
  }

  // ---------------------------------------------------------------------------------------------
  // A reader of records

  datatype ParsedField = ParsedField(key: Bytes, value: Parsed)

  datatype ParsedFields = ParsedFields(fields: seq<ParsedField>) | NoRecord

  function Meanings(r: Record): (p: seq<ParsedField>)
    ensures |p| == |r| && forall i :: 0 <= i < |r| ==> p[i] == ParsedField(r[i].key, Meaning(r[i].value))
  {
    seq(|r|, i requires 0 <= i < |r| => ParsedField(r[i].key, Meaning(r[i].value)))
  }

  /** The length of the scalar at the start of `s`. */
  function ScalarLength(s: Bytes): (n: nat)
    ensures n <= |s|
  {
    if s == [] || s[0] == COMMA || s[0] == CLOSE_BRACE then 0 else 1 + ScalarLength(s[1..])
  }

  /** Reads a value and what follows it. */
  datatype ReadValue = ReadValue(value: Parsed, rest: Bytes) | NoValue

  function ValueAt(s: Bytes): (v: ReadValue)
    ensures v.ReadValue? ==> |v.rest| < |s|
  {
    if s == [] then NoValue
    else if s[0] == QUOTE then
      match DecodeString(s[1..])
      case Decoded(text, rest) => ReadValue(ParsedText(text), rest)
      case Malformed => NoValue
    else
      var n := ScalarLength(s);
      if n == 0 then NoValue else ReadValue(ParsedScalar(s[..n]), s[n..])
  }

  /** Reads `"key":value` pairs up to and with the closing brace, which must end the line. */
  function FieldsAt(s: Bytes): ParsedFields
    decreases |s|
  {
    if s == [] || s[0] != QUOTE then NoRecord
    else
      match DecodeString(s[1..])
      case Malformed => NoRecord
      case Decoded(key, afterKey) =>
        if afterKey == [] || afterKey[0] != COLON then NoRecord
        else AfterColon(key, afterKey[1..])
  }

  function AfterColon(key: Bytes, s: Bytes): ParsedFields
    decreases |s|
  {
    match ValueAt(s)
    case NoValue => NoRecord
    case ReadValue(value, rest) =>
      if rest == [CLOSE_BRACE] then ParsedFields([ParsedField(key, value)])
      else if rest != [] && rest[0] == COMMA then
        match FieldsAt(rest[1..])
        case NoRecord => NoRecord
        case ParsedFields(more) => ParsedFields([ParsedField(key, value)] + more)
      else NoRecord
  }

  function ParseRecord(line: Bytes): ParsedFields {
    if line == [OPEN_BRACE, CLOSE_BRACE] then ParsedFields([])
    else if line != [] && line[0] == OPEN_BRACE then FieldsAt(line[1..])
    else NoRecord
  }

  lemma {:induction false} ScalarEnds(scalar: Bytes, rest: Bytes)
    requires forall b :: b in scalar ==> b != COMMA && b != CLOSE_BRACE
    requires rest != [] && (rest[0] == COMMA || rest[0] == CLOSE_BRACE)
    ensures ScalarLength(scalar + rest) == |scalar|
  {
    if scalar == [] {
      assert scalar + rest == rest;
    } else {
      assert forall b :: b in scalar[1..] ==> b in scalar;
      assert scalar[0] in scalar;
      ScalarEnds(scalar[1..], rest);
      assert (scalar + rest)[1..] == scalar[1..] + rest;
    }
  }

  lemma TextReads(text: Bytes, rest: Bytes)
    ensures ValueAt(Quoted(text) + rest) == ReadValue(ParsedText(text), rest)
  {
    hide Escaped, DecodeString;
    var s := Quoted(text) + rest;
    EscapeDecodes(text, rest);
    assert s[1..] == Escaped(text) + [QUOTE] + rest;
  }

  lemma ScalarReads(scalar: Bytes, rest: Bytes)
    requires scalar != [] && scalar[0] != QUOTE && forall b :: b in scalar ==> b != COMMA && b != CLOSE_BRACE
    requires rest != [] && (rest[0] == COMMA || rest[0] == CLOSE_BRACE)
    ensures ValueAt(scalar + rest) == ReadValue(ParsedScalar(scalar), rest)
  {
    hide DecodeString, ScalarLength, ParsedScalar;
    var s := scalar + rest;
    ScalarEnds(scalar, rest);
    assert s[..|scalar|] == scalar && s[|scalar|..] == rest;
  }

  lemma ValueReads(v: Value, rest: Bytes)
    requires rest != [] && (rest[0] == COMMA || rest[0] == CLOSE_BRACE)
    ensures ValueAt(ValueText(v) + rest) == ReadValue(Meaning(v), rest)
  {
    hide ValueAt, Quoted, ScalarText, ParsedScalar;
    if v.Text? {
      TextReads(v.text, rest);
    } else {
      assert ScalarText(v)[0] in ScalarText(v);
      ScalarMeans(v);
      ScalarReads(ScalarText(v), rest);
    }
  }

  lemma FieldReads(f: Field, rest: Bytes)
    requires rest != [] && (rest[0] == COMMA || rest[0] == CLOSE_BRACE)
    ensures FieldsAt(FieldText(f) + rest) == AfterColon(f.key, ValueText(f.value) + rest)
  {
    hide ValueText, AfterColon, Escaped, DecodeString;
    var s, tail := FieldText(f) + rest, [COLON] + ValueText(f.value) + rest;
    EscapeDecodes(f.key, tail);
    assert s[1..] == Escaped(f.key) + [QUOTE] + tail;
    assert tail[1..] == ValueText(f.value) + rest;
  }

  lemma LastFieldReads(f: Field)
    ensures FieldsAt(FieldText(f) + [CLOSE_BRACE]) == ParsedFields([ParsedField(f.key, Meaning(f.value))])
  {
    hide FieldText, ValueText, ValueAt, FieldsAt, Meaning;
    FieldReads(f, [CLOSE_BRACE]);
    ValueReads(f.value, [CLOSE_BRACE]);
  }

  lemma MoreFieldsRead(f: Field, tail: Bytes, more: seq<ParsedField>)
    requires FieldsAt(tail) == ParsedFields(more)
    ensures FieldsAt(FieldText(f) + ([COMMA] + tail)) == ParsedFields([ParsedField(f.key, Meaning(f.value))] + more)
  {
    hide FieldText, ValueText, ValueAt, FieldsAt, Meaning;
    var rest := [COMMA] + tail;
    FieldReads(f, rest);
    ValueReads(f.value, rest);
    assert rest[1..] == tail;
  }

  lemma {:induction false} FieldsRead(r: Record)
    requires r != []
    ensures FieldsAt(FieldsText(r) + [CLOSE_BRACE]) == ParsedFields(Meanings(r))
  {
    hide FieldText, FieldsAt, Meaning;
    if |r| == 1 {
      LastFieldReads(r[0]);
      assert Meanings(r) == [ParsedField(r[0].key, Meaning(r[0].value))];
    } else {
      var tail := FieldsText(r[1..]) + [CLOSE_BRACE];
      FieldsRead(r[1..]);
      MoreFieldsRead(r[0], tail, Meanings(r[1..]));
      assert FieldsText(r) + [CLOSE_BRACE] == FieldText(r[0]) + ([COMMA] + tail);
      assert Meanings(r) == [ParsedField(r[0].key, Meaning(r[0].value))] + Meanings(r[1..]);
    }
  }

  /** A serialised record reads back as the same keys, in order, with the meanings of their values. */
  lemma RecordReads(r: Record)
    ensures ParseRecord(Serialized(r)) == ParsedFields(Meanings(r))
  {
    hide FieldsText, FieldsAt, Meaning;
    if r == [] {
      assert FieldsText(r) == [] by {
        NoFields();
      }
      assert Serialized(r) == [OPEN_BRACE, CLOSE_BRACE];
      assert Meanings(r) == [];
    } else {
      FieldsRead(r);
      FieldsStart(r);
      assert Serialized(r)[1..] == FieldsText(r) + [CLOSE_BRACE];
    }
  }

  lemma NoFields()
    ensures FieldsText([]) == []
  {
  }

  lemma FieldsStart(r: Record)
    requires r != []
    ensures FieldsText(r) != []
  {
  }

  // ---------------------------------------------------------------------------------------------
  // Lines

  lemma SerializedPrintable(r: Record)
    ensures forall b :: b in Serialized(r) ==> b >= 32
  {
    FieldsPrintable(r);
  }

  lemma FieldPrintable(f: Field)
    ensures forall b :: b in FieldText(f) ==> b >= 32
  {
    hide Escaped;
    EscapedPrintable(f.key);
    if f.value.Text? {
      EscapedPrintable(f.value.text);
    }
  }

  lemma {:induction false} FieldsPrintable(r: Record)
    ensures forall b :: b in FieldsText(r) ==> b >= 32
  {
    hide FieldText;
    if r != [] {
      FieldPrintable(r[0]);
      FieldsPrintable(r[1..]);
    }
  }

  function TextsOf(records: seq<Record>): (r: seq<Bytes>)
    ensures |r| == |records| && forall i :: 0 <= i < |r| ==> r[i] == Serialized(records[i])
  {
    seq(|records|, i requires 0 <= i < |records| => Serialized(records[i]))
  }

  /** What a file of written records holds. */
  function FileOf(records: seq<Record>): Bytes {
    Joined(TextsOf(records), NEWLINE)
  }

  lemma FileSplits(records: seq<Record>)
    ensures Lines(FileOf(records), NEWLINE) == TextsOf(records)
  {
    hide Serialized;
    forall line | line in TextsOf(records)
      ensures NEWLINE !in line
    {
      var i :| 0 <= i < |records| && TextsOf(records)[i] == line;
      SerializedPrintable(records[i]);
    }
    JoinedSplits(TextsOf(records), NEWLINE);
  }

  /**
   A file of written records splits at its newlines into as many lines as records were written, and each line
   reads back as its record: the same keys and strings, byte for byte, in order.
   */
  lemma FileReads(records: seq<Record>)
    ensures var lines := Lines(FileOf(records), NEWLINE);
      |lines| == |records|
      && forall i :: 0 <= i < |lines| ==> ParseRecord(lines[i]) == ParsedFields(Meanings(records[i]))
  {
    hide Serialized, ParseRecord, Meanings;
    FileSplits(records);
    forall i | 0 <= i < |records|
      ensures ParseRecord(Serialized(records[i])) == ParsedFields(Meanings(records[i]))
    {
      RecordReads(records[i]);
    }
  }

  /** What a writer leaves in a file of complete lines: those lines and one for each record written. */
  lemma AppendedFileSplits(held: Bytes, records: seq<Record>)
    requires held == [] || held[|held| - 1] == NEWLINE
    ensures Lines(held + FileOf(records), NEWLINE) == Lines(held, NEWLINE) + TextsOf(records)
  {
    hide Lines, FileOf;
    AppendingKeepsLines(held, FileOf(records), NEWLINE);
    FileSplits(records);
  }

  /** A line cut short by a failing write comes last and disturbs no other. */
  lemma TornFileSplits(held: Bytes, records: seq<Record>, torn: Bytes)
    requires (held == [] || held[|held| - 1] == NEWLINE) && NEWLINE !in torn
    ensures Lines(held + FileOf(records) + torn, NEWLINE)
         == Lines(held, NEWLINE) + TextsOf(records) + if torn == [] then [] else [torn]
  {
    hide Lines, TextsOf;
    var whole := held + FileOf(records);
    AppendedFileSplits(held, records);
    FileEnds(records);
    assert whole == [] || whole[|whole| - 1] == NEWLINE;
    AppendingKeepsLines(whole, torn, NEWLINE);
    LastLine(torn, NEWLINE);
  }

  lemma {:induction false} FileEnds(records: seq<Record>)
    ensures FileOf(records) == [] || FileOf(records)[|FileOf(records)| - 1] == NEWLINE
  {
    hide Serialized;
    if records != [] {
      var n := |records| - 1;
      assert TextsOf(records) == TextsOf(records)[..n] + [TextsOf(records)[n]];
      JoinedSnoc(TextsOf(records)[..n], TextsOf(records)[n], NEWLINE);
    }
  }

  // ---------------------------------------------------------------------------------------------
  // The writer

  class EventRecord {
    var fields: Record

    constructor ()
      ensures fields == []
    {
      fields := [];
    }

    method Add(key: Bytes, value: Value)
      modifies this
      ensures fields == old(fields) + [Field(key, value)]
    {
      fields := fields + [Field(key, value)];
    }
  }

  /**
   A writer whose file holds what it held when it was opened for appending, a line for each record since, and, once a
   write has failed, the part of a line that still went through.
   */
  class JsonlWriter {
    ghost const before: Bytes
    ghost var written: seq<Record>
    ghost var torn: Bytes
    var isOpen: bool
    var good: bool
    var file: Bytes

    ghost predicate Valid()
      reads this
    {
      file == before + FileOf(written) + torn && NEWLINE !in torn && (good ==> torn == [])
    }

    constructor (file: Bytes, opens: bool)
      ensures Valid() && before == file && written == [] && isOpen == good == opens
    {
      before, written, torn, isOpen, good, this.file := file, [], [], opens, opens, file;
    }

    /** Writes one line, of which the stream takes `room` bytes at most. */
    method Write(record: EventRecord, room: nat) returns (ok: bool)
      requires Valid()
      modifies this
      ensures Valid() && isOpen == old(isOpen)
      ensures ok <==> isOpen && old(good) && |Serialized(record.fields)| < room
      ensures good == (old(good) && (isOpen ==> ok))
      ensures written == if ok then old(written) + [record.fields] else old(written)
      ensures good == old(good) ==> torn == old(torn)
      ensures good != old(good) ==> torn == Serialized(record.fields)[..room]
    {
      hide Serialized;
      if !isOpen {
        return false;
      }
      var line := SerializeRecord(record.fields);
      if !good {
        return false;
      }
      if |line| < room {
        file := file + line + [NEWLINE];
        JoinedSnoc(TextsOf(written), line, NEWLINE);
        assert TextsOf(written + [record.fields]) == TextsOf(written) + [line];
        written := written + [record.fields];
        assert file == before + FileOf(written) + torn;
      } else {
        SerializedPrintable(record.fields);
        assert forall b :: b in line[..room] ==> b in line;
        file := file + line[..room];
        torn := line[..room];
        good := false;
      }
      return good;
    }
  }
}
