/** Brace structure of JSON-like text: what the hand-written scanner of
`agent/text_tool_calls.go` has to recognise, as a grammar with a printer, and a JSON value
printer (sections 4 to 7 of RFC 8259) whose output has that structure. */
module BraceGrammar {

  // ----- the grammar -----

  /** A piece of a string literal: a plain character, or a backslash and a character. */
  datatype Part = Lit(c: char) | Esc(c: char)

  /** Text in which braces outside string literals are balanced. */
  datatype Items =
    | End
    | Plain(c: char, rest: Items)
    | Text(parts: seq<Part>, rest: Items)
    | Object(inner: Items, rest: Items)

  predicate PartOk(p: Part) {
    p.Lit? ==> p.c != '"' && p.c != '\\'
  }

  predicate ItemsOk(x: Items) {
    match x
    case End => true
    case Plain(c, rest) => c != '"' && c != '{' && c != '}' && ItemsOk(rest)
    case Text(parts, rest) => (forall i :: 0 <= i < |parts| ==> PartOk(parts[i])) && ItemsOk(rest)
    case Object(inner, rest) => ItemsOk(inner) && ItemsOk(rest)
  }

  function PrintParts(parts: seq<Part>): string {
    if parts == [] then []
    else (if parts[0].Lit? then [parts[0].c] else ['\\', parts[0].c]) + PrintParts(parts[1..])
  }

  function PrintItems(x: Items): string {
    match x
    case End => []
    case Plain(c, rest) => [c] + PrintItems(rest)
    case Text(parts, rest) => ['"'] + PrintParts(parts) + ['"'] + PrintItems(rest)
    case Object(inner, rest) => ['{'] + PrintItems(inner) + ['}'] + PrintItems(rest)
  }

  /** A complete object. */
  function PrintObject(inner: Items): string {
    ['{'] + PrintItems(inner) + ['}']
  }

  function Append(x: Items, y: Items): Items {
    match x
    case End => y
    case Plain(c, rest) => Plain(c, Append(rest, y))
    case Text(parts, rest) => Text(parts, Append(rest, y))
    case Object(inner, rest) => Object(inner, Append(rest, y))
  }

  lemma {:induction false} PrintAppend(x: Items, y: Items)
    ensures PrintItems(Append(x, y)) == PrintItems(x) + PrintItems(y)
    ensures ItemsOk(x) && ItemsOk(y) ==> ItemsOk(Append(x, y))
  {
    match x
    case End =>
    case Plain(c, rest) => PrintAppend(rest, y);
    case Text(parts, rest) => PrintAppend(rest, y);
    case Object(inner, rest) => PrintAppend(rest, y);
  }

  // ----- JSON values -----

  datatype Json =
    | Null
    | Bool(b: bool)
    | Number(text: string)
    | Str(s: string)
    | Array(elems: Elems)
    | Obj(fields: Fields)

  datatype Elems = NoElem | Elem(head: Json, tail: Elems)

  datatype Fields = NoField | Field(name: string, value: Json, rest: Fields)

  const Digits := "0123456789abcdef"

  predicate NumberOk(text: string) {
    forall i :: 0 <= i < |text| ==> text[i] in "0123456789+-.eE"
  }

  predicate JsonOk(v: Json) {
    match v
    case Number(text) => NumberOk(text)
    case Array(elems) => ElemsOk(elems)
    case Obj(fields) => FieldsOk(fields)
    case _ => true
  }

  predicate ElemsOk(x: Elems) {
    x.Elem? ==> JsonOk(x.head) && ElemsOk(x.tail)
  }

  predicate FieldsOk(x: Fields) {
    x.Field? ==> JsonOk(x.value) && FieldsOk(x.rest)
  }

  /** Quotes and backslashes get a backslash; control characters and the characters an HTML
      page would react to become a four-digit escape. */
  function EscapeChar(c: char): seq<Part> {
    if c == '"' || c == '\\' then [Esc(c)]
    else if c < ' ' || c == '<' || c == '>' || c == '&' then
      [Esc('u'), Lit('0'), Lit('0'), Lit(Digits[c as int / 16 % 16]), Lit(Digits[c as int % 16])]
    else [Lit(c)]
  }

  function EscapeString(s: string): seq<Part> {
    if s == [] then [] else EscapeChar(s[0]) + EscapeString(s[1..])
  }

  function PrintString(s: string): string {
    ['"'] + PrintParts(EscapeString(s)) + ['"']
  }

  function PrintJson(v: Json): string {
    match v
    case Null => "null"
    case Bool(b) => if b then "true" else "false"
    case Number(text) => text
    case Str(s) => PrintString(s)
    case Array(elems) => "[" + PrintElems(elems) + "]"
    case Obj(fields) => "{" + PrintFields(fields) + "}"
  }

  function PrintElems(x: Elems): string {
    match x
    case NoElem => ""
    case Elem(head, tail) => PrintJson(head) + (if tail.NoElem? then "" else "," + PrintElems(tail))
  }

  function PrintFields(x: Fields): string {
    match x
    case NoField => ""
    case Field(name, value, rest) =>
      PrintString(name) + ":" + PrintJson(value) + (if rest.NoField? then "" else "," + PrintFields(rest))
  }

  // ----- the printed form of a value has the brace structure -----

  function PlainText(s: string): Items {
    if s == [] then End else Plain(s[0], PlainText(s[1..]))
  }

  function Structure(v: Json): Items {
    match v
    case Null => PlainText("null")
    case Bool(b) => PlainText(if b then "true" else "false")
    case Number(text) => PlainText(text)
    case Str(s) => Text(EscapeString(s), End)
    case Array(elems) => Plain('[', Append(ElemsStructure(elems), Plain(']', End)))
    case Obj(fields) => Object(FieldsStructure(fields), End)
  }

  function ElemsStructure(x: Elems): Items {
    match x
    case NoElem => End
    case Elem(head, tail) => Append(Structure(head), if tail.NoElem? then End else Plain(',', ElemsStructure(tail)))
  }

  function FieldsStructure(x: Fields): Items {
    match x
    case NoField => End
    case Field(name, value, rest) =>
      Text(EscapeString(name), Plain(':',
        Append(Structure(value), if rest.NoField? then End else Plain(',', FieldsStructure(rest)))))
  }

  lemma {:induction false} PlainTextStructure(s: string)
    requires forall i :: 0 <= i < |s| ==> s[i] != '"' && s[i] != '{' && s[i] != '}'
    ensures ItemsOk(PlainText(s)) && PrintItems(PlainText(s)) == s
  {
    if s != [] {
      PlainTextStructure(s[1..]);
      assert s == [s[0]] + s[1..];
    }
  }

  lemma LiteralStructure(s: string)
    requires s == "null" || s == "true" || s == "false"
    ensures ItemsOk(PlainText(s)) && PrintItems(PlainText(s)) == s
  {
    PlainTextStructure(s);
  }

  lemma {:induction false} EscapeOk(s: string)
    ensures forall i :: 0 <= i < |EscapeString(s)| ==> PartOk(EscapeString(s)[i])
  {
    if s != [] {
      EscapeOk(s[1..]);
    }
  }

  /** The printed form of every JSON value is the print of its brace structure. */
  lemma {:induction false} JsonStructure(v: Json)
    requires JsonOk(v)
    ensures ItemsOk(Structure(v)) && PrintItems(Structure(v)) == PrintJson(v)
    decreases v
  {
    match v
    case Null => LiteralStructure("null");
    case Bool(b) => LiteralStructure(if b then "true" else "false");
    case Number(text) => PlainTextStructure(text);
    case Str(s) => EscapeOk(s);
    case Array(elems) =>
      ElemsHaveStructure(elems);
      PrintAppend(ElemsStructure(elems), Plain(']', End));
    case Obj(fields) => FieldsHaveStructure(fields);
  }

  lemma {:induction false} ElemsHaveStructure(x: Elems)
    requires ElemsOk(x)
    ensures ItemsOk(ElemsStructure(x)) && PrintItems(ElemsStructure(x)) == PrintElems(x)
    decreases x
  {
    if x.Elem? {
      JsonStructure(x.head);
      ElemsHaveStructure(x.tail);
      PrintAppend(Structure(x.head), if x.tail.NoElem? then End else Plain(',', ElemsStructure(x.tail)));
    }
  }

  lemma {:induction false} FieldsHaveStructure(x: Fields)
    requires FieldsOk(x)
    ensures ItemsOk(FieldsStructure(x)) && PrintItems(FieldsStructure(x)) == PrintFields(x)
    decreases x
  {
    if x.Field? {
      EscapeOk(x.name);
      JsonStructure(x.value);
      FieldsHaveStructure(x.rest);
      var rest := if x.rest.NoField? then End else Plain(',', FieldsStructure(x.rest));
      PrintAppend(Structure(x.value), rest);
      FieldPrinted(x.name, Append(Structure(x.value), rest), PrintJson(x.value), PrintItems(rest));
    }
  }

  lemma FieldPrinted(name: string, value: Items, v: string, rest: string)
    requires PrintItems(value) == v + rest
    ensures PrintItems(Text(EscapeString(name), Plain(':', value))) == PrintString(name) + ":" + v + rest
  {
    assert PrintItems(Plain(':', value)) == ":" + (v + rest);
  }
}
