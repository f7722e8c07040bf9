/**
  The canonical JSON text of the rollback executor (scripts/g3-authority-reconciliation-rollback-executor.py,
  canonical_json): it can be read back, so it is the same for two values exactly when they mean the same.
*/
module CanonicalJson {
  import opened Options
  import Decimal
  import opened StableSort
  import Lexicographic

  datatype Key = Name(name: string) | OtherKey

  datatype Entry = Entry(key: Key, value: Value)

  /**
    A Python value. A finite float is given by its shortest text, `float.__repr__`; a dict keeps its insertion
    order; Unsupported is any other object, with infinity and not-a-number.
  */
  datatype Value = Null | Bool(b: bool) | Int(n: int) | Float(text: string) | Str(s: string) | List(items: seq<Value>)
                 | Dict(entries: seq<Entry>) | Unsupported

  /** What a JSON text says. */
  datatype Doc = DNull | DBool(b: bool) | DInt(n: int) | DFloat(text: string) | DStr(s: string) | DList(items: seq<Doc>)
               | DMap(fields: map<string, Doc>)

  predicate IsDigit(c: char) { '0' <= c <= '9' }

  predicate AllDigits(s: string) { forall c :: c in s ==> IsDigit(c) }

  predicate NumberChar(c: char) { IsDigit(c) || c in {'-', '+', '.', 'e', 'E'} }

  /** A number text with a fraction or an exponent, as every finite float has. */
  predicate FloatText(t: string) {
    && t != "" && (t[0] == '-' || IsDigit(t[0]))
    && (forall c :: c in t ==> NumberChar(c))
    && (exists c :: c in t && (c == '.' || c == 'e'))
  }

  const FORBIDDEN: set<string> := {"__proto__", "constructor", "prototype"}

  predicate ProperKey(k: Key) { k.Name? && k.name !in FORBIDDEN }

  /** The keys of a dict are distinct and floats are texts of floats, at every depth. */
  predicate WellFormed(v: Value) {
    match v
    case Float(text) => FloatText(text)
    case List(items) => forall i :: 0 <= i < |items| ==> WellFormed(items[i])
    case Dict(entries) =>
      && (forall i, j :: 0 <= i < j < |entries| ==> entries[i].key != entries[j].key)
      && (forall i :: 0 <= i < |entries| ==> WellFormed(entries[i].value))
    case _ => true
  }

  /** Nothing in the value raises ROLLBACK_CANONICAL_JSON_INVALID. */
  predicate Printable(v: Value) {
    match v
    case Unsupported => false
    case List(items) => forall i :: 0 <= i < |items| ==> Printable(items[i])
    case Dict(entries) => forall i :: 0 <= i < |entries| ==> ProperKey(entries[i].key) && Printable(entries[i].value)
    case _ => true
  }

  // ---------------------------------------------------------------- printing

  function HexDigit(d: nat): char
    requires d < 16
  {
    "0123456789abcdef"[d]
  }

  /** json.dumps with ensure_ascii=False: RFC 8259, section 7, with the shortest escapes. */
  function Escape(c: char): string {
    if c == '\"' then "\\\""
    else if c == '\\' then "\\\\"
    else if c == '\n' then "\\n"
    else if c == '\r' then "\\r"
    else if c == '\t' then "\\t"
    else if c == 12 as char then "\\f"
    else if c == 8 as char then "\\b"
    else if c < ' ' then "\\u00" + [HexDigit(c as int / 16), HexDigit(c as int % 16)]
    else [c]
  }

  function Escaped(s: string): string { if s == "" then "" else Escape(s[0]) + Escaped(s[1..]) }

  function Quoted(s: string): string { "\"" + Escaped(s) + "\"" }

  function DigitChars(digits: seq<nat>): string
    requires forall d :: d in digits ==> d < 10
  {
    if digits == [] then ""
    else
      assert digits[0] in digits && forall d :: d in digits[1..] ==> d in digits;
      ["0123456789"[digits[0]]] + DigitChars(digits[1..])
  }

  function IntText(n: int): string {
    if n < 0 then "-" + DigitChars(Decimal.Digits(-n)) else DigitChars(Decimal.Digits(n))
  }

  function Join(texts: seq<string>): string {
    if texts == [] then "" else if |texts| == 1 then texts[0] else texts[0] + "," + Join(texts[1..])
  }

  predicate CharBelow(a: char, b: char) { a < b }

  /** A key and the text of its value. */
  datatype Field = Field(name: string, text: string)

  /** By key; distinct keys leave the texts no say. */
  predicate FieldLe(p: Field, q: Field) {
    if p.name == q.name then Lexicographic.Le(CharBelow, p.text, q.text)
    else Lexicographic.Le(CharBelow, p.name, q.name)
  }

  function FieldTexts(fields: seq<Field>): (texts: seq<string>)
    ensures |texts| == |fields|
    ensures forall i :: 0 <= i < |fields| ==> texts[i] == Quoted(fields[i].name) + ":" + fields[i].text
  {
    if fields == [] then [] else [Quoted(fields[0].name) + ":" + fields[0].text] + FieldTexts(fields[1..])
  }

  function Print(v: Value): string
    requires Printable(v)
    decreases v, 1
  {
    match v
    case Null => "null"
    case Bool(b) => if b then "true" else "false"
    case Int(n) => IntText(n)
    case Float(text) => text
    case Str(s) => Quoted(s)
    case List(items) => "[" + Join(seq(|items|, i requires 0 <= i < |items| => Print(items[i]))) + "]"
    case Dict(entries) => "{" + Join(FieldTexts(Sort(FieldLe, Fields(v)))) + "}"
  }

  /** The printed fields in insertion order. */
  function Fields(v: Value): (fields: seq<Field>)
    requires v.Dict? && Printable(v)
    ensures |fields| == |v.entries|
    decreases v, 0
  {
    seq(|v.entries|, i requires 0 <= i < |v.entries| => Field(v.entries[i].key.name, Print(v.entries[i].value)))
  }

  /** None is the raised error. */
  function Canonical(v: Value): Option<string> { if Printable(v) then Some(Print(v)) else None }

  // ---------------------------------------------------------------- what a value means

  datatype Pair = Pair(name: string, doc: Doc)

  /** Later pairs win. */
  function MapOf(pairs: seq<Pair>): map<string, Doc> {
    if pairs == [] then map[] else MapOf(pairs[..|pairs| - 1])[pairs[|pairs| - 1].name := pairs[|pairs| - 1].doc]
  }

  function Meaning(v: Value): Doc
    requires Printable(v)
  {
    match v
    case Null => DNull
    case Bool(b) => DBool(b)
    case Int(n) => DInt(n)
    case Float(text) => DFloat(text)
    case Str(s) => DStr(s)
    case List(items) => DList(seq(|items|, i requires 0 <= i < |items| => Meaning(items[i])))
    case Dict(entries) =>
      DMap(MapOf(seq(|entries|, i requires 0 <= i < |entries| => Pair(entries[i].key.name, Meaning(entries[i].value)))))
  }

  // ---------------------------------------------------------------- reading

  type Rest = string

  function HexValue(c: char): Option<nat> {
    if '0' <= c <= '9' then Some(c as int - '0' as int)
    else if 'a' <= c <= 'f' then Some(c as int - 'a' as int + 10)
    else if 'A' <= c <= 'F' then Some(c as int - 'A' as int + 10)
    else None
  }

  /** The character of an escape `\uXXXX`; halves of surrogate pairs are not read. */
  function UnicodeEscape(s: string): Option<char> {
    if |s| < 4 then None
    else
      match (HexValue(s[0]), HexValue(s[1]), HexValue(s[2]), HexValue(s[3]))
      case (Some(a), Some(b), Some(c), Some(d)) =>
        var n := 4096 * a + 256 * b + 16 * c + d;
        if 0 <= n < 0xD800 || 0xE000 <= n < 0x1_0000 then Some(n as char) else None
      case _ => None
  }

  function SimpleEscape(c: char): Option<char> {
    match c
    case '\"' => Some('\"')
    case '\\' => Some('\\')
    case '/' => Some('/')
    case 'n' => Some('\n')
    case 'r' => Some('\r')
    case 't' => Some('\t')
    case 'f' => Some(12 as char)
    case 'b' => Some(8 as char)
    case _ => None
  }

  /** After the opening quote, up to and with the closing one. */
  function ReadString(s: string): (r: Option<(string, Rest)>)
    ensures r.Some? ==> |r.value.1| < |s|
    decreases |s|
  {
    if s == "" || s[0] < ' ' then None
    else if s[0] == '\"' then Some(("", s[1..]))
    else if s[0] != '\\' then Prepended(s[0], ReadString(s[1..]))
    else if |s| < 2 then None
    else if s[1] == 'u' then
      if UnicodeEscape(s[2..]).None? then None else Prepended(UnicodeEscape(s[2..]).value, ReadString(s[6..]))
    else if SimpleEscape(s[1]).None? then None
    else Prepended(SimpleEscape(s[1]).value, ReadString(s[2..]))
  }

  function Prepended(c: char, r: Option<(string, Rest)>): Option<(string, Rest)> {
    match r case Some((t, rest)) => Some(([c] + t, rest)) case None => None
  }

  function CharDigits(s: string): seq<nat>
    requires AllDigits(s)
  {
    if s == "" then []
    else
      assert s[0] in s && forall c :: c in s[1..] ==> c in s;
      assert IsDigit(s[0]);
      var d: nat := s[0] as int - '0' as int;
      [d] + CharDigits(s[1..])
  }

  /** How far a number token goes. */
  function NumberRun(s: string): (n: nat)
    ensures n <= |s|
  {
    if s != "" && NumberChar(s[0]) then 1 + NumberRun(s[1..]) else 0
  }

  /** What a number token says: an integer, or a float by its text. */
  function NumberOf(t: string): Option<Doc> {
    if t == "" then None
    else if AllDigits(t) then Some(DInt(Decimal.Value(10, CharDigits(t))))
    else if t[0] == '-' && |t| > 1 && AllDigits(t[1..]) then Some(DInt(0 - Decimal.Value(10, CharDigits(t[1..]))))
    else if FloatText(t) then Some(DFloat(t))
    else None
  }

  function ReadNumber(s: string): (r: Option<(Doc, Rest)>)
    ensures r.Some? ==> |r.value.1| < |s|
  {
    var n := NumberRun(s);
    match NumberOf(s[..n]) case Some(doc) => Some((doc, s[n..])) case None => None
  }

  function ReadValue(s: string): (r: Option<(Doc, Rest)>)
    ensures r.Some? ==> |r.value.1| < |s|
    decreases |s|, 0
  {
    if s == "" then None
    else if s[0] == 'n' then if "null" <= s then Some((DNull, s[4..])) else None
    else if s[0] == 't' then if "true" <= s then Some((DBool(true), s[4..])) else None
    else if s[0] == 'f' then if "false" <= s then Some((DBool(false), s[5..])) else None
    else if s[0] == '\"' then match ReadString(s[1..]) case Some((t, rest)) => Some((DStr(t), rest)) case None => None
    else if s[0] == '-' || IsDigit(s[0]) then ReadNumber(s)
    else if s[0] == '[' then
      if |s| >= 2 && s[1] == ']' then Some((DList([]), s[2..]))
      else match ReadItems(s[1..]) case Some((items, rest)) => Some((DList(items), rest)) case None => None
    else if s[0] == '{' then
      if |s| >= 2 && s[1] == '}' then Some((DMap(map[]), s[2..]))
      else match ReadFields(s[1..]) case Some((pairs, rest)) => Some((DMap(MapOf(pairs)), rest)) case None => None
    else None
  }

  /** One or more items, up to and with the closing bracket. */
  function ReadItems(s: string): (r: Option<(seq<Doc>, Rest)>)
    ensures r.Some? ==> |r.value.1| < |s|
    decreases |s|, 1
  {
    match ReadValue(s)
    case None => None
    case Some((doc, rest)) =>
      if rest == "" then None
      else if rest[0] == ']' then Some(([doc], rest[1..]))
      else if rest[0] != ',' then None
      else match ReadItems(rest[1..]) case Some((docs, more)) => Some(([doc] + docs, more)) case None => None
  }

  function ReadField(s: string): (r: Option<(Pair, Rest)>)
    ensures r.Some? ==> |r.value.1| < |s|
    decreases |s|, 1
  {
    if s == "" || s[0] != '\"' then None
    else match ReadString(s[1..])
      case None => None
      case Some((name, rest)) =>
        if rest == "" || rest[0] != ':' then None
        else match ReadValue(rest[1..]) case Some((doc, more)) => Some((Pair(name, doc), more)) case None => None
  }

  function ReadFields(s: string): (r: Option<(seq<Pair>, Rest)>)
    ensures r.Some? ==> |r.value.1| < |s|
    decreases |s|, 2
  {
    match ReadField(s)
    case None => None
    case Some((pair, rest)) =>
      if rest == "" then None
      else if rest[0] == '}' then Some(([pair], rest[1..]))
      else if rest[0] != ',' then None
      else match ReadFields(rest[1..]) case Some((pairs, more)) => Some(([pair] + pairs, more)) case None => None
  }

  /** A whole text. */
  function Read(s: string): Option<Doc> {
    match ReadValue(s) case Some((doc, rest)) => if rest == "" then Some(doc) else None case None => None
  }

  // ---------------------------------------------------------------- strings and numbers come back

  lemma {:induction false} StringRoundTrip(t: string, rest: string)
    ensures ReadString(Escaped(t) + "\"" + rest) == Some((t, rest))
  {
    if t == "" {
      assert Escaped(t) + "\"" + rest == "\"" + rest;
    } else {
      StringRoundTrip(t[1..], rest);
      EscapeRoundTrip(t[0], Escaped(t[1..]) + "\"" + rest);
      EscapedSplits(t, rest);
    }
  }

  lemma EscapedSplits(t: string, rest: string)
    requires t != ""
    ensures Escaped(t) + "\"" + rest == Escape(t[0]) + (Escaped(t[1..]) + "\"" + rest)
    ensures [t[0]] + t[1..] == t
  {
    Regrouped(Escape(t[0]), Escaped(t[1..]), "\"", rest);
  }

  lemma Regrouped(a: string, b: string, c: string, d: string)
    ensures a + b + c + d == a + (b + c + d)
  {}

  /** One escaped character, read off. */
  lemma EscapeRoundTrip(c: char, rest: string)
    ensures ReadString(Escape(c) + rest) == Prepended(c, ReadString(rest))
  {
    var s := Escape(c) + rest;
    if |Escape(c)| == 1 {
      assert s[0] == c && s[1..] == rest;
    } else if |Escape(c)| == 2 {
      assert s[0] == '\\' && s[1] == Escape(c)[1] && s[2..] == rest;
    } else {
      ControlEscape(c);
      UnicodeRoundTrip(Escape(c), c, rest);
    }
  }

  lemma UnicodeRoundTrip(escape: string, c: char, rest: string)
    requires |escape| == 6 && escape[0] == '\\' && escape[1] == 'u' && UnicodeEscape(escape[2..]) == Some(c)
    ensures ReadString(escape + rest) == Prepended(c, ReadString(rest))
  {
    var s := escape + rest;
    assert s[2..][..4] == escape[2..] && s[6..] == rest;
    assert UnicodeEscape(s[2..]) == UnicodeEscape(escape[2..]);
  }

  lemma HexRoundTrip(d: nat)
    requires d < 16
    ensures HexValue(HexDigit(d)) == Some(d)
  {}

  lemma ControlEscape(c: char)
    requires |Escape(c)| > 2
    ensures |Escape(c)| == 6 && Escape(c)[0] == '\\' && Escape(c)[1] == 'u'
    ensures UnicodeEscape(Escape(c)[2..]) == Some(c)
  {
    HexRoundTrip(c as int / 16);
    HexRoundTrip(c as int % 16);
  }

  /** The rest of the text does not go on with a number. */
  predicate Ends(rest: string) { rest == "" || !NumberChar(rest[0]) }

  lemma {:induction false} NumberRunIs(t: string, rest: string)
    requires (forall c :: c in t ==> NumberChar(c)) && Ends(rest)
    ensures NumberRun(t + rest) == |t|
  {
    if t == "" {
      assert t + rest == rest;
    } else {
      assert t[0] in t && forall c :: c in t[1..] ==> c in t;
      NumberRunIs(t[1..], rest);
      assert (t + rest)[1..] == t[1..] + rest;
    }
  }

  lemma {:induction false} DigitCharsRead(digits: seq<nat>)
    requires forall d :: d in digits ==> d < 10
    ensures AllDigits(DigitChars(digits)) && CharDigits(DigitChars(digits)) == digits
    ensures |DigitChars(digits)| == |digits|
  {
    if digits != [] {
      assert digits[0] in digits && forall d :: d in digits[1..] ==> d in digits;
      DigitCharsRead(digits[1..]);
      FirstDigit(digits[0], DigitChars(digits[1..]));
    }
  }

  lemma FirstDigit(d: nat, chars: string)
    requires d < 10 && AllDigits(chars)
    ensures var all := ["0123456789"[d]] + chars; AllDigits(all) && CharDigits(all) == [d] + CharDigits(chars)
  {
    var all := ["0123456789"[d]] + chars;
    assert all[0] as int - '0' as int == d && all[1..] == chars;
  }

  /** This text reads as this document, whatever follows. */
  ghost predicate Reads(text: string, doc: Doc) {
    forall rest :: Ends(rest) ==> ReadValue(text + rest) == Some((doc, rest))
  }

  /** A number token reads as what it says. */
  lemma TokenReads(t: string, doc: Doc)
    requires t != "" && (t[0] == '-' || IsDigit(t[0])) && forall c :: c in t ==> NumberChar(c)
    requires NumberOf(t) == Some(doc)
    ensures Reads(t, doc)
  {
    forall rest | Ends(rest) ensures ReadValue(t + rest) == Some((doc, rest)) {
      NumberRunIs(t, rest);
      assert (t + rest)[..|t|] == t && (t + rest)[|t|..] == rest;
      NumberAt(t + rest, doc, rest);
    }
  }

  lemma NumberAt(s: string, doc: Doc, rest: string)
    requires s != "" && (s[0] == '-' || IsDigit(s[0])) && ReadNumber(s) == Some((doc, rest))
    ensures ReadValue(s) == Some((doc, rest))
  {}

  lemma NaturalToken(n: nat)
    ensures var chars := DigitChars(Decimal.Digits(n));
            chars != "" && AllDigits(chars) && Decimal.Value(10, CharDigits(chars)) == n
  {
    DigitCharsRead(Decimal.Digits(n));
    Decimal.DigitsValue(n);
  }

  lemma NegativeToken(chars: string)
    requires chars != "" && AllDigits(chars)
    ensures !AllDigits("-" + chars) && NumberOf("-" + chars) == Some(DInt(0 - Decimal.Value(10, CharDigits(chars))))
  {
    var t := "-" + chars;
    assert t[0] in t && t[1..] == chars;
  }

  lemma IntReads(n: int)
    ensures Reads(IntText(n), DInt(n))
  {
    var m: nat := if n < 0 then -n else n;
    var chars := DigitChars(Decimal.Digits(m));
    NaturalToken(m);
    NegativeToken(chars);
    assert chars[0] in chars;
    TokenReads(IntText(n), DInt(n));
  }

  lemma FloatReads(t: string)
    requires FloatText(t)
    ensures Reads(t, DFloat(t))
  {
    var c :| c in t && (c == '.' || c == 'e');
    assert t[0] != c;
    TailMember(t, c);
    TokenReads(t, DFloat(t));
  }

  lemma TailMember(t: string, c: char)
    requires t != "" && c in t && t[0] != c
    ensures c in t[1..]
  {
    assert t == [t[0]] + t[1..];
  }

  lemma StringAt(s: string, t: string, rest: string)
    requires s != "" && s[0] == '\"' && ReadString(s[1..]) == Some((t, rest))
    ensures ReadValue(s) == Some((DStr(t), rest))
  {}

  lemma AfterQuote(t: string, rest: string)
    ensures (Quoted(t) + rest)[0] == '\"' && (Quoted(t) + rest)[1..] == Escaped(t) + "\"" + rest
  {}

  lemma StringReads(t: string)
    ensures Reads(Quoted(t), DStr(t))
  {
    forall rest | Ends(rest) ensures ReadValue(Quoted(t) + rest) == Some((DStr(t), rest)) {
      StringRoundTrip(t, rest);
      AfterQuote(t, rest);
      StringAt(Quoted(t) + rest, t, rest);
    }
  }

  lemma LiteralsRead()
    ensures Reads("null", DNull) && Reads("true", DBool(true)) && Reads("false", DBool(false))
  {
    forall rest ensures ReadValue("null" + rest) == Some((DNull, rest)) { assert ("null" + rest)[4..] == rest; }
    forall rest ensures ReadValue("true" + rest) == Some((DBool(true), rest)) { assert ("true" + rest)[4..] == rest; }
    forall rest ensures ReadValue("false" + rest) == Some((DBool(false), rest)) {
      assert ("false" + rest)[5..] == rest;
    }
  }

  // ---------------------------------------------------------------- lists and dicts come back

  lemma ItemsEnd(text: string, doc: Doc, rest: string)
    requires Reads(text, doc)
    ensures ReadItems(text + ("]" + rest)) == Some(([doc], rest))
  {
    assert ReadValue(text + ("]" + rest)) == Some((doc, "]" + rest));
    assert ("]" + rest)[1..] == rest;
  }

  lemma ItemsGoOn(text: string, doc: Doc, more: string, docs: seq<Doc>, rest: string)
    requires Reads(text, doc) && ReadItems(more) == Some((docs, rest))
    ensures ReadItems(text + ("," + more)) == Some(([doc] + docs, rest))
  {
    assert ReadValue(text + ("," + more)) == Some((doc, "," + more));
    assert ("," + more)[1..] == more;
  }

  lemma Enclosed(open: string, body: string, close: string, rest: string)
    ensures open + body + close + rest == open + (body + (close + rest))
  {}

  lemma JoinMore(texts: seq<string>, tail: string)
    requires |texts| > 1
    ensures Join(texts) + tail == texts[0] + ("," + (Join(texts[1..]) + tail))
  {
    Enclosed(texts[0], ",", Join(texts[1..]), tail);
  }

  lemma {:induction false} ItemsRead(texts: seq<string>, docs: seq<Doc>, rest: string)
    requires |texts| == |docs| > 0 && forall i :: 0 <= i < |texts| ==> Reads(texts[i], docs[i])
    ensures ReadItems(Join(texts) + ("]" + rest)) == Some((docs, rest))
    decreases |texts|
  {
    if |texts| == 1 {
      ItemsEnd(texts[0], docs[0], rest);
      assert docs == [docs[0]];
    } else {
      ItemsRead(texts[1..], docs[1..], rest);
      ItemsGoOn(texts[0], docs[0], Join(texts[1..]) + ("]" + rest), docs[1..], rest);
      JoinMore(texts, "]" + rest);
      assert docs == [docs[0]] + docs[1..];
    }
  }

  lemma ListAt(text: string, docs: seq<Doc>, rest: string)
    requires text != "" && text[0] != ']' && ReadItems(text) == Some((docs, rest))
    ensures ReadValue("[" + text) == Some((DList(docs), rest))
  {
    assert ("[" + text)[1..] == text;
  }

  lemma TextNotClosing(text: string, doc: Doc)
    requires Reads(text, doc)
    ensures text != "" && text[0] != ']' && text[0] != '}'
  {
    assert text + "" == text;
    assert ReadValue(text).Some?;
  }

  lemma ListReads(texts: seq<string>, docs: seq<Doc>)
    requires |texts| == |docs| && forall i :: 0 <= i < |texts| ==> Reads(texts[i], docs[i])
    ensures Reads("[" + Join(texts) + "]", DList(docs))
  {
    forall rest | Ends(rest) ensures ReadValue("[" + Join(texts) + "]" + rest) == Some((DList(docs), rest)) {
      if texts == [] {
        var s := "[" + Join(texts) + "]" + rest;
        assert s == "[]" + rest && s[2..] == rest;
      } else {
        NonemptyListReads(texts, docs, rest);
        Enclosed("[", Join(texts), "]", rest);
      }
    }
  }

  lemma NonemptyListReads(texts: seq<string>, docs: seq<Doc>, rest: string)
    requires |texts| == |docs| > 0 && forall i :: 0 <= i < |texts| ==> Reads(texts[i], docs[i])
    ensures ReadValue("[" + (Join(texts) + ("]" + rest))) == Some((DList(docs), rest))
  {
    ItemsRead(texts, docs, rest);
    TextNotClosing(texts[0], docs[0]);
    ListAt(Join(texts) + ("]" + rest), docs, rest);
  }

  lemma FieldReads(name: string, text: string, doc: Doc, rest: string)
    requires Reads(text, doc) && Ends(rest)
    ensures ReadField(Quoted(name) + ":" + text + rest) == Some((Pair(name, doc), rest))
  {
    var s := Quoted(name) + ":" + text + rest;
    var after := ":" + (text + rest);
    StringRoundTrip(name, after);
    QuotedThen(name, text, rest);
    FieldAt(s, name, after, doc, rest);
  }

  lemma QuotedThen(name: string, text: string, rest: string)
    ensures (Quoted(name) + ":" + text + rest)[1..] == Escaped(name) + "\"" + (":" + (text + rest))
    ensures (":" + (text + rest))[1..] == text + rest
  {}

  lemma FieldAt(s: string, name: string, after: string, doc: Doc, rest: string)
    requires s != "" && s[0] == '\"' && ReadString(s[1..]) == Some((name, after))
    requires after != "" && after[0] == ':' && ReadValue(after[1..]) == Some((doc, rest))
    ensures ReadField(s) == Some((Pair(name, doc), rest))
  {}

  lemma FieldsEnd(s: string, pair: Pair, rest: string)
    requires ReadField(s) == Some((pair, "}" + rest))
    ensures ReadFields(s) == Some(([pair], rest))
  {
    assert ("}" + rest)[1..] == rest;
  }

  lemma FieldsGoOn(s: string, pair: Pair, more: string, pairs: seq<Pair>, rest: string)
    requires ReadField(s) == Some((pair, "," + more)) && ReadFields(more) == Some((pairs, rest))
    ensures ReadFields(s) == Some(([pair] + pairs, rest))
  {
    assert ("," + more)[1..] == more;
  }

  /** These fields read as these pairs. */
  ghost predicate FieldsMean(fields: seq<Field>, pairs: seq<Pair>) {
    && |fields| == |pairs|
    && (forall i :: 0 <= i < |fields| ==> fields[i].name == pairs[i].name && Reads(fields[i].text, pairs[i].doc))
  }

  function FieldText(f: Field): string { Quoted(f.name) + ":" + f.text }

  lemma LastField(field: Field, pair: Pair, rest: string)
    requires field.name == pair.name && Reads(field.text, pair.doc)
    ensures ReadFields(FieldText(field) + ("}" + rest)) == Some(([pair], rest))
  {
    FieldReads(field.name, field.text, pair.doc, "}" + rest);
    FieldsEnd(FieldText(field) + ("}" + rest), pair, rest);
  }

  lemma NextField(field: Field, pair: Pair, more: string, pairs: seq<Pair>, rest: string)
    requires field.name == pair.name && Reads(field.text, pair.doc) && ReadFields(more) == Some((pairs, rest))
    ensures ReadFields(FieldText(field) + ("," + more)) == Some(([pair] + pairs, rest))
  {
    FieldReads(field.name, field.text, pair.doc, "," + more);
    FieldsGoOn(FieldText(field) + ("," + more), pair, more, pairs, rest);
  }

  lemma FieldsMeanTail(fields: seq<Field>, pairs: seq<Pair>)
    requires fields != [] && FieldsMean(fields, pairs)
    ensures FieldsMean(fields[1..], pairs[1..]) && fields[0].name == pairs[0].name
            && Reads(fields[0].text, pairs[0].doc)
    ensures FieldTexts(fields)[0] == FieldText(fields[0]) && FieldTexts(fields)[1..] == FieldTexts(fields[1..])
    ensures pairs == [pairs[0]] + pairs[1..]
  {}

  lemma {:induction false} FieldsRead(fields: seq<Field>, pairs: seq<Pair>, rest: string)
    requires |fields| > 0 && FieldsMean(fields, pairs)
    ensures ReadFields(Join(FieldTexts(fields)) + ("}" + rest)) == Some((pairs, rest))
    decreases |fields|
  {
    FieldsMeanTail(fields, pairs);
    if |fields| == 1 {
      LastField(fields[0], pairs[0], rest);
      assert pairs == [pairs[0]];
    } else {
      FieldsRead(fields[1..], pairs[1..], rest);
      NextField(fields[0], pairs[0], Join(FieldTexts(fields[1..])) + ("}" + rest), pairs[1..], rest);
      JoinMore(FieldTexts(fields), "}" + rest);
    }
  }

  lemma DictAt(text: string, pairs: seq<Pair>, rest: string)
    requires text != "" && text[0] != '}' && ReadFields(text) == Some((pairs, rest))
    ensures ReadValue("{" + text) == Some((DMap(MapOf(pairs)), rest))
  {
    assert ("{" + text)[1..] == text;
  }

  lemma FieldsOpen(fields: seq<Field>, tail: string)
    requires fields != []
    ensures Join(FieldTexts(fields)) + tail != "" && (Join(FieldTexts(fields)) + tail)[0] == '\"'
  {
    var texts := FieldTexts(fields);
    assert texts[0] == Quoted(fields[0].name) + ":" + fields[0].text;
    assert texts[0][0] == '\"';
    if |texts| > 1 { JoinMore(texts, tail); }
  }

  lemma DictReads(fields: seq<Field>, pairs: seq<Pair>)
    requires FieldsMean(fields, pairs)
    ensures Reads("{" + Join(FieldTexts(fields)) + "}", DMap(MapOf(pairs)))
  {
    var body := Join(FieldTexts(fields));
    forall rest | Ends(rest) ensures ReadValue("{" + body + "}" + rest) == Some((DMap(MapOf(pairs)), rest)) {
      if fields == [] {
        assert "{" + body + "}" + rest == "{}" + rest && ("{}" + rest)[2..] == rest;
      } else {
        NonemptyDictReads(fields, pairs, rest);
        Enclosed("{", body, "}", rest);
      }
    }
  }

  lemma NonemptyDictReads(fields: seq<Field>, pairs: seq<Pair>, rest: string)
    requires |fields| > 0 && FieldsMean(fields, pairs)
    ensures ReadValue("{" + (Join(FieldTexts(fields)) + ("}" + rest))) == Some((DMap(MapOf(pairs)), rest))
  {
    FieldsRead(fields, pairs, rest);
    FieldsOpen(fields, "}" + rest);
    DictAt(Join(FieldTexts(fields)) + ("}" + rest), pairs, rest);
  }

  /** Pairs that agree with a map and cover it build that map. */
  lemma {:induction false} MapOfIs(pairs: seq<Pair>, m: map<string, Doc>)
    requires forall i :: 0 <= i < |pairs| ==> pairs[i].name in m && m[pairs[i].name] == pairs[i].doc
    ensures forall k :: k in MapOf(pairs) ==> k in m && m[k] == MapOf(pairs)[k]
    ensures forall i :: 0 <= i < |pairs| ==> pairs[i].name in MapOf(pairs)
  {
    if pairs != [] {
      var front := pairs[..|pairs| - 1];
      MapOfIs(front, m);
      forall i | 0 <= i < |pairs| ensures pairs[i].name in MapOf(pairs) {
        if i < |front| { assert pairs[i] == front[i]; }
      }
    }
  }

  lemma MapOfExactly(pairs: seq<Pair>, m: map<string, Doc>)
    requires forall i :: 0 <= i < |pairs| ==> pairs[i].name in m && m[pairs[i].name] == pairs[i].doc
    requires forall k :: k in m ==> exists i :: 0 <= i < |pairs| && pairs[i].name == k
    ensures MapOf(pairs) == m
  {
    MapOfIs(pairs, m);
  }

  /** The pairs of a dict in insertion order. */
  function Pairs(v: Value): (pairs: seq<Pair>)
    requires v.Dict? && Printable(v)
    ensures |pairs| == |v.entries|
  {
    seq(|v.entries|, i requires 0 <= i < |v.entries| => Pair(v.entries[i].key.name, Meaning(v.entries[i].value)))
  }

  ghost predicate DistinctNames(pairs: seq<Pair>) {
    forall i, j :: 0 <= i < j < |pairs| ==> pairs[i].name != pairs[j].name
  }

  lemma {:induction false} MapOfDistinct(pairs: seq<Pair>)
    requires DistinctNames(pairs)
    ensures forall i ::
              0 <= i < |pairs| ==> pairs[i].name in MapOf(pairs) && MapOf(pairs)[pairs[i].name] == pairs[i].doc
    ensures forall k :: k in MapOf(pairs) ==> exists i :: 0 <= i < |pairs| && pairs[i].name == k
  {
    if pairs != [] {
      var front := pairs[..|pairs| - 1];
      MapOfDistinct(front);
      forall i | 0 <= i < |pairs|
        ensures pairs[i].name in MapOf(pairs) && MapOf(pairs)[pairs[i].name] == pairs[i].doc
      {
        if i < |front| { assert pairs[i] == front[i]; }
      }
      forall k | k in MapOf(pairs) ensures exists i :: 0 <= i < |pairs| && pairs[i].name == k {
        if k in MapOf(front) {
          var i :| 0 <= i < |front| && front[i].name == k;
          assert pairs[i].name == k;
        }
      }
    }
  }

  lemma DictMeaning(v: Value)
    requires v.Dict? && Printable(v) && WellFormed(v)
    ensures Meaning(v) == DMap(MapOf(Pairs(v))) && DistinctNames(Pairs(v))
  {}

  /** Each sorted field with the meaning of its entry. */
  function SortedPairs(fields: seq<Field>, m: map<string, Doc>): (pairs: seq<Pair>)
    requires forall i :: 0 <= i < |fields| ==> fields[i].name in m
    ensures |pairs| == |fields|
  {
    seq(|fields|, i requires 0 <= i < |fields| => Pair(fields[i].name, m[fields[i].name]))
  }

  /** These fields spell out this map. */
  ghost predicate Spells(fields: seq<Field>, m: map<string, Doc>) {
    && (forall i :: 0 <= i < |fields| ==> fields[i].name in m && Reads(fields[i].text, m[fields[i].name]))
    && (forall k :: k in m ==> exists i :: 0 <= i < |fields| && fields[i].name == k)
  }

  lemma FieldsSpell(v: Value)
    requires v.Dict? && Printable(v) && WellFormed(v)
    requires forall i :: 0 <= i < |v.entries| ==> Reads(Fields(v)[i].text, Pairs(v)[i].doc)
    ensures Spells(Fields(v), MapOf(Pairs(v)))
  {
    DictMeaning(v);
    MapOfDistinct(Pairs(v));
    var m := MapOf(Pairs(v));
    forall i | 0 <= i < |Fields(v)| ensures Fields(v)[i].name in m && Reads(Fields(v)[i].text, m[Fields(v)[i].name]) {
      assert Pairs(v)[i].name == Fields(v)[i].name;
    }
    forall k | k in m ensures exists i :: 0 <= i < |Fields(v)| && Fields(v)[i].name == k {
      var j :| 0 <= j < |Pairs(v)| && Pairs(v)[j].name == k;
      assert Fields(v)[j].name == k;
    }
  }

  /** Sorting moves the fields and nothing else. */
  lemma SortedSpells(fields: seq<Field>, m: map<string, Doc>)
    requires Spells(fields, m)
    ensures Spells(Sort(FieldLe, fields), m)
  {
    var sorted := Sort(FieldLe, fields);
    SameMembers(fields, sorted);
    forall i | 0 <= i < |sorted| ensures sorted[i].name in m && Reads(sorted[i].text, m[sorted[i].name]) {
      assert sorted[i] in fields;
    }
    forall k | k in m ensures exists i :: 0 <= i < |sorted| && sorted[i].name == k {
      var j :| 0 <= j < |fields| && fields[j].name == k;
      assert fields[j] in sorted;
    }
  }

  lemma SpellsReads(fields: seq<Field>, m: map<string, Doc>)
    requires Spells(fields, m)
    ensures Reads("{" + Join(FieldTexts(fields)) + "}", DMap(m))
  {
    var pairs := SortedPairs(fields, m);
    SpelledMap(fields, m);
    DictReads(fields, pairs);
  }

  lemma SpelledMap(fields: seq<Field>, m: map<string, Doc>)
    requires Spells(fields, m)
    ensures MapOf(SortedPairs(fields, m)) == m
  {
    var pairs := SortedPairs(fields, m);
    forall k | k in m ensures exists i :: 0 <= i < |pairs| && pairs[i].name == k {
      var i :| 0 <= i < |fields| && fields[i].name == k;
      assert pairs[i].name == k;
    }
    MapOfExactly(pairs, m);
  }

  lemma SortedDictReads(v: Value)
    requires v.Dict? && Printable(v) && WellFormed(v)
    requires forall i :: 0 <= i < |v.entries| ==> Reads(Fields(v)[i].text, Pairs(v)[i].doc)
    ensures Reads(Print(v), Meaning(v))
  {
    FieldsSpell(v);
    SortedSpells(Fields(v), MapOf(Pairs(v)));
    SpellsReads(Sort(FieldLe, Fields(v)), MapOf(Pairs(v)));
    DictMeaning(v);
  }

  /** The text of a value reads as what the value means, in any context. */
  lemma {:induction false} PrintReads(v: Value)
    requires Printable(v) && WellFormed(v)
    ensures Reads(Print(v), Meaning(v))
  {
    match v
    case Null => LiteralsRead();
    case Bool(_) => LiteralsRead();
    case Int(n) => IntReads(n);
    case Float(text) => FloatReads(text);
    case Str(s) => StringReads(s);
    case List(items) =>
      forall i | 0 <= i < |items| ensures Reads(Print(items[i]), Meaning(items[i])) { PrintReads(items[i]); }
      ListReads(seq(|items|, i requires 0 <= i < |items| => Print(items[i])),
                seq(|items|, i requires 0 <= i < |items| => Meaning(items[i])));
    case Dict(entries) =>
      forall i | 0 <= i < |entries| ensures Reads(Fields(v)[i].text, Pairs(v)[i].doc) { PrintReads(entries[i].value); }
      SortedDictReads(v);
  }

  /** The canonical text of a value can be read back, and reads as that value. */
  lemma CanonicalRoundTrip(v: Value)
    requires WellFormed(v)
    ensures Canonical(v).Some? ==> Read(Canonical(v).value) == Some(Meaning(v))
  {
    if Printable(v) {
      PrintReads(v);
      assert Print(v) + "" == Print(v);
      assert ReadValue(Print(v) + "") == Some((Meaning(v), ""));
    }
  }

  // ---------------------------------------------------------------- equal meanings print alike

  lemma FieldOrder()
    ensures TotalPreorder(FieldLe) && Antisymmetric(FieldLe)
  {
    forall p, q ensures FieldLe(p, q) || FieldLe(q, p) {
      Lexicographic.Total(CharBelow, p.name, q.name);
      Lexicographic.Total(CharBelow, p.text, q.text);
    }
    forall p, q, r | FieldLe(p, q) && FieldLe(q, r) ensures FieldLe(p, r) { FieldLeTransitive(p, q, r); }
    forall p, q | FieldLe(p, q) && FieldLe(q, p) ensures p == q {
      if p.name == q.name { Lexicographic.Antisymmetry(CharBelow, p.text, q.text); }
      else { Lexicographic.Antisymmetry(CharBelow, p.name, q.name); }
    }
  }

  lemma FieldLeTransitive(p: Field, q: Field, r: Field)
    requires FieldLe(p, q) && FieldLe(q, r)
    ensures FieldLe(p, r)
  {
    if p.name == q.name == r.name {
      Lexicographic.Transitive(CharBelow, p.text, q.text, r.text);
    } else if p.name != q.name && q.name != r.name {
      Lexicographic.Transitive(CharBelow, p.name, q.name, r.name);
      if p.name == r.name { Lexicographic.Antisymmetry(CharBelow, p.name, q.name); }
    }
  }

  ghost predicate DistinctFields(fields: seq<Field>) {
    forall i, j :: 0 <= i < j < |fields| ==> fields[i].name != fields[j].name
  }

  lemma {:induction false} OnceEach(fields: seq<Field>, f: Field)
    requires DistinctFields(fields)
    ensures multiset(fields)[f] == if f in fields then 1 else 0
  {
    if fields != [] {
      assert fields == [fields[0]] + fields[1..];
      OnceEach(fields[1..], f);
    }
  }

  /** Lists of distinct fields with the same members are sorted alike. */
  lemma SameFieldsSortAlike(a: seq<Field>, b: seq<Field>)
    requires DistinctFields(a) && DistinctFields(b) && forall f :: f in a <==> f in b
    ensures Sort(FieldLe, a) == Sort(FieldLe, b)
  {
    forall f ensures multiset(a)[f] == multiset(b)[f] {
      OnceEach(a, f);
      OnceEach(b, f);
    }
    FieldOrder();
    SortForgetsOrder(FieldLe, a, b);
  }

  /** The field of one dict stands in the other, if entries of the same name print alike. */
  lemma FieldCarries(a: Value, b: Value)
    requires a.Dict? && b.Dict? && Printable(a) && Printable(b) && WellFormed(a) && WellFormed(b)
    requires MapOf(Pairs(a)) == MapOf(Pairs(b))
    requires forall i, j :: 0 <= i < |a.entries| && 0 <= j < |b.entries| && Pairs(a)[i] == Pairs(b)[j] ==>
               Fields(a)[i].text == Fields(b)[j].text
    ensures forall f :: f in Fields(a) ==> f in Fields(b)
  {
    DictMeaning(a);
    DictMeaning(b);
    forall f | f in Fields(a) ensures f in Fields(b) {
      var i :| 0 <= i < |Fields(a)| && Fields(a)[i] == f;
      var j := SamePair(Pairs(a), Pairs(b), i);
      assert Fields(b)[j] == f;
    }
  }

  lemma SamePair(a: seq<Pair>, b: seq<Pair>, i: nat) returns (j: nat)
    requires DistinctNames(a) && DistinctNames(b) && MapOf(a) == MapOf(b) && i < |a|
    ensures j < |b| && a[i] == b[j]
  {
    MapOfDistinct(a);
    MapOfDistinct(b);
    assert a[i].name in MapOf(b);
    j :| 0 <= j < |b| && b[j].name == a[i].name;
  }

  lemma NamesDistinct(v: Value)
    requires v.Dict? && Printable(v) && WellFormed(v)
    ensures DistinctFields(Fields(v))
  {}

  lemma {:induction false} MeaningPrints(a: Value, b: Value)
    requires Printable(a) && Printable(b) && WellFormed(a) && WellFormed(b) && Meaning(a) == Meaning(b)
    ensures Print(a) == Print(b)
    decreases a
  {
    match a
    case List(items) => ListPrints(a, b);
    case Dict(entries) =>
      assert b.Dict?;
      forall i, j | 0 <= i < |entries| && 0 <= j < |b.entries| && Pairs(a)[i] == Pairs(b)[j]
        ensures Fields(a)[i].text == Fields(b)[j].text
      {
        MeaningPrints(entries[i].value, b.entries[j].value);
      }
      DictPrints(a, b);
    case _ => {}
  }

  lemma {:induction false} ListPrints(a: Value, b: Value)
    requires a.List? && Printable(a) && Printable(b) && WellFormed(a) && WellFormed(b) && Meaning(a) == Meaning(b)
    ensures Print(a) == Print(b)
    decreases a, 0
  {
    assert b.List?;
    var docsA := seq(|a.items|, i requires 0 <= i < |a.items| => Meaning(a.items[i]));
    var docsB := seq(|b.items|, i requires 0 <= i < |b.items| => Meaning(b.items[i]));
    assert docsA == docsB;
    var textsA := seq(|a.items|, i requires 0 <= i < |a.items| => Print(a.items[i]));
    var textsB := seq(|b.items|, i requires 0 <= i < |b.items| => Print(b.items[i]));
    forall i | 0 <= i < |a.items| ensures textsA[i] == textsB[i] {
      assert docsA[i] == docsB[i];
      MeaningPrints(a.items[i], b.items[i]);
    }
    assert textsA == textsB;
  }

  lemma DictPrints(a: Value, b: Value)
    requires a.Dict? && b.Dict? && Printable(a) && Printable(b) && WellFormed(a) && WellFormed(b)
             && Meaning(a) == Meaning(b)
    requires forall i, j :: 0 <= i < |a.entries| && 0 <= j < |b.entries| && Pairs(a)[i] == Pairs(b)[j] ==>
               Fields(a)[i].text == Fields(b)[j].text
    ensures Print(a) == Print(b)
  {
    DictMeaning(a);
    DictMeaning(b);
    FieldCarries(a, b);
    FieldCarries(b, a);
    NamesDistinct(a);
    NamesDistinct(b);
    SameFieldsSortAlike(Fields(a), Fields(b));
  }

  /**
    Two printable values have the same canonical text exactly when they mean the same: the order in which
    dicts were filled does not matter, and nothing else is lost.
  */
  lemma CanonicalDecidesMeaning(a: Value, b: Value)
    requires WellFormed(a) && WellFormed(b) && Printable(a) && Printable(b)
    ensures Canonical(a) == Canonical(b) <==> Meaning(a) == Meaning(b)
  {
    CanonicalRoundTrip(a);
    CanonicalRoundTrip(b);
    if Meaning(a) == Meaning(b) { MeaningPrints(a, b); }
  }

  /** In particular a dict filled in another order has the same text, or raises the same error. */
  lemma InsertionOrderIrrelevant(a: seq<Entry>, b: seq<Entry>)
    requires multiset(a) == multiset(b) && WellFormed(Dict(a)) && WellFormed(Dict(b))
    ensures Canonical(Dict(a)) == Canonical(Dict(b))
  {
    SameMembers(a, b);
    if Printable(Dict(a)) { PrintableEntries(a, b); }
    if Printable(Dict(b)) { PrintableEntries(b, a); }
    if Printable(Dict(a)) {
      EntriesCarry(a, b);
      EntriesCarry(b, a);
      NamesDistinct(Dict(a));
      NamesDistinct(Dict(b));
      SameFieldsSortAlike(Fields(Dict(a)), Fields(Dict(b)));
    }
  }

  lemma PrintableEntries(a: seq<Entry>, b: seq<Entry>)
    requires (forall e :: e in b ==> e in a) && Printable(Dict(a))
    ensures Printable(Dict(b))
  {
    forall i | 0 <= i < |b| ensures ProperKey(b[i].key) && Printable(b[i].value) {
      assert b[i] in a;
    }
  }

  lemma EntriesCarry(a: seq<Entry>, b: seq<Entry>)
    requires (forall e :: e in a ==> e in b) && Printable(Dict(a)) && Printable(Dict(b))
    ensures forall f :: f in Fields(Dict(a)) ==> f in Fields(Dict(b))
  {
    forall f | f in Fields(Dict(a)) ensures f in Fields(Dict(b)) {
      var i :| 0 <= i < |a| && Fields(Dict(a))[i] == f;
      assert a[i] in b;
      var j :| 0 <= j < |b| && b[j] == a[i];
      assert Fields(Dict(b))[j] == f;
    }
  }

  // ---------------------------------------------------------------- which of the texts it is

  /** Texts of floats as Python prints them, and two that are no floats. */
  lemma FloatTexts()
    ensures FloatText("3.0") && FloatText("-0.5") && FloatText("1e-07") && !FloatText("12") && !FloatText("nan")
  {
    assert "3.0"[1] == '.' && "-0.5"[2] == '.' && "1e-07"[1] == 'e';
    assert '.' in "3.0" && '.' in "-0.5" && 'e' in "1e-07";
  }

  /** By code points: a proper prefix comes first, otherwise the first difference decides. */
  ghost predicate Precedes(a: string, b: string) {
    exists k :: 0 <= k < |b| && DiffersAt(a, b, k)
  }

  predicate DiffersAt(a: string, b: string, k: nat)
    requires k < |b|
  {
    k <= |a| && a[..k] == b[..k] && (k == |a| || a[k] < b[k])
  }

  lemma LePrecedes(a: string, b: string)
    requires Lexicographic.Le(CharBelow, a, b) && a != b
    ensures Precedes(a, b)
  {
    var k := Lexicographic.FirstDifference(CharBelow, a, b);
    assert DiffersAt(a, b, k);
  }

  /** The fields of a dict are printed by rising names. */
  lemma KeysInCodePointOrder(v: Value) returns (fields: seq<Field>)
    requires v.Dict? && Printable(v) && WellFormed(v)
    ensures Canonical(v) == Some("{" + Join(FieldTexts(fields)) + "}") && multiset(fields) == multiset(Fields(v))
    ensures forall i, j :: 0 <= i < j < |fields| ==> Precedes(fields[i].name, fields[j].name)
  {
    fields := Sort(FieldLe, Fields(v));
    FieldOrder();
    SortSorted(FieldLe, Fields(v));
    NamesDistinct(v);
    SameCounts(fields, Fields(v));
    forall i, j | 0 <= i < j < |fields| ensures Precedes(fields[i].name, fields[j].name) {
      assert FieldLe(fields[i], fields[j]) && fields[i].name != fields[j].name;
      LePrecedes(fields[i].name, fields[j].name);
    }
  }

  lemma SameCounts(a: seq<Field>, b: seq<Field>)
    requires multiset(a) == multiset(b) && DistinctFields(b)
    ensures DistinctFields(a)
  {
    SameMembers(a, b);
    forall i, j | 0 <= i < j < |a| ensures a[i].name != a[j].name {
      OnceEach(b, a[i]);
      if a[i] == a[j] {
        TwiceThere(a, i, j);
        assert false;
      } else {
        NamesTell(b, a[i], a[j]);
      }
    }
  }

  lemma NamesTell(b: seq<Field>, p: Field, q: Field)
    requires DistinctFields(b) && p in b && q in b && p != q
    ensures p.name != q.name
  {
    var i :| 0 <= i < |b| && b[i] == p;
    var j :| 0 <= j < |b| && b[j] == q;
    assert i != j;
  }

  lemma TwiceThere(a: seq<Field>, i: nat, j: nat)
    requires i < j < |a| && a[i] == a[j]
    ensures multiset(a)[a[i]] >= 2
  {
    assert a == a[..i] + [a[i]] + a[i + 1..j] + [a[j]] + a[j + 1..];
  }

  predicate Plain(c: char) { c >= ' ' && c != '\"' && c != '\\' }

  /** Escapes are as short as RFC 8259 has them, and hexadecimal digits small. */
  lemma ShortestEscapes(c: char)
    ensures |Escape(c)| == if Plain(c) then 1
                           else if c in {'\"', '\\', '\n', '\r', '\t', 8 as char, 12 as char} then 2 else 6
    ensures |Escape(c)| == 1 ==> Escape(c) == [c]
    ensures |Escape(c)| == 6 ==>
              Escape(c)[..4] == "\\u00" && Escape(c)[4] in "01" && Escape(c)[5] in "0123456789abcdef"
  {}

  /** A string is printed as it is exactly when it has no quote, backslash or control character. */
  lemma {:induction false} PlainText(t: string)
    ensures |Escaped(t)| >= |t|
    ensures |Escaped(t)| == |t| <==> forall c :: c in t ==> Plain(c)
    ensures Quoted(t) == "\"" + t + "\"" <==> forall c :: c in t ==> Plain(c)
  {
    if t != "" {
      PlainText(t[1..]);
      ShortestEscapes(t[0]);
      assert t == [t[0]] + t[1..];
      assert (forall c :: c in t ==> Plain(c)) <==> Plain(t[0]) && forall c :: c in t[1..] ==> Plain(c);
      if |Escaped(t)| == |t| {
        assert Quoted(t[1..])[1..|t[1..]| + 1] == Escaped(t[1..]);
        assert Quoted(t[1..]) == "\"" + t[1..] + "\"";
        assert ("\"" + t[1..] + "\"")[1..|t[1..]| + 1] == t[1..];
      } else {
        assert |Quoted(t)| > |"\"" + t + "\""|;
      }
    }
  }

  /** Integers have no leading zero and no sign but a minus. */
  lemma PlainIntegers(n: int)
    ensures n == 0 ==> IntText(n) == "0"
    ensures n > 0 ==> IntText(n) != "" && AllDigits(IntText(n)) && IntText(n)[0] != '0'
    ensures n < 0 ==> IntText(n) == "-" + IntText(-n)
  {
    var digits := Decimal.Digits(if n < 0 then -n else n);
    DigitCharsRead(digits);
    if n > 0 {
      Decimal.DigitsValue(n);
    } else if n == 0 {
      assert DigitChars([0]) == "0";
    }
  }

  /** A value and all that is inside it. */
  ghost predicate Inside(w: Value, v: Value)
    decreases v
  {
    w == v
    || match v
       case List(items) => exists i :: 0 <= i < |items| && Inside(w, items[i])
       case Dict(entries) => exists i :: 0 <= i < |entries| && Inside(w, entries[i].value)
       case _ => false
  }

  /** What cannot be printed for its own sake. */
  predicate Offends(w: Value) {
    w.Unsupported?
    || (w.Dict? && exists e :: e in w.entries
                               && e.key in {OtherKey, Name("__proto__"), Name("constructor"), Name("prototype")})
  }

  /** Exactly when the error is raised. */
  lemma {:induction false} RaisesExactly(v: Value)
    ensures Canonical(v) == None <==> exists w :: Inside(w, v) && Offends(w)
    decreases v
  {
    match v
    case List(items) =>
      forall i | 0 <= i < |items| ensures !Printable(items[i]) <==> exists w :: Inside(w, items[i]) && Offends(w) {
        RaisesExactly(items[i]);
      }
      ListRaises(v);
    case Dict(entries) =>
      forall i | 0 <= i < |entries|
        ensures !Printable(entries[i].value) <==> exists w :: Inside(w, entries[i].value) && Offends(w)
      {
        RaisesExactly(entries[i].value);
      }
      DictRaises(v);
    case _ => assert Inside(v, v);
  }

  lemma ListRaises(v: Value)
    requires v.List?
    requires forall i :: 0 <= i < |v.items| ==>
               (!Printable(v.items[i]) <==> exists w :: Inside(w, v.items[i]) && Offends(w))
    ensures !Printable(v) <==> exists w :: Inside(w, v) && Offends(w)
  {
    if !Printable(v) {
      var i :| 0 <= i < |v.items| && !Printable(v.items[i]);
      var w :| Inside(w, v.items[i]) && Offends(w);
      assert Inside(w, v);
    }
    if w :| Inside(w, v) && Offends(w) {
      var i :| 0 <= i < |v.items| && Inside(w, v.items[i]);
      assert !Printable(v.items[i]);
    }
  }

  lemma DictRaises(v: Value)
    requires v.Dict?
    requires forall i :: 0 <= i < |v.entries| ==>
               (!Printable(v.entries[i].value) <==> exists w :: Inside(w, v.entries[i].value) && Offends(w))
    ensures !Printable(v) <==> exists w :: Inside(w, v) && Offends(w)
  {
    if !Printable(v) {
      var i :| 0 <= i < |v.entries| && !(ProperKey(v.entries[i].key) && Printable(v.entries[i].value));
      if Printable(v.entries[i].value) {
        assert v.entries[i] in v.entries;
        assert Inside(v, v) && Offends(v);
      } else {
        var w :| Inside(w, v.entries[i].value) && Offends(w);
        assert Inside(w, v);
      }
    }
    if w :| Inside(w, v) && Offends(w) {
      if w == v {
        var e :| e in v.entries && e.key in {OtherKey, Name("__proto__"), Name("constructor"), Name("prototype")};
        assert !ProperKey(e.key);
      } else {
        var i :| 0 <= i < |v.entries| && Inside(w, v.entries[i].value);
        assert !Printable(v.entries[i].value);
      }
    }
  }
}
