/** The string-aware brace scanner of `agent/text_tool_calls.go` (balancedJSONObjectEnd). */
module TextScanner {
  import opened Options
  import opened BraceGrammar

  predicate IsSpace(c: char) {
    c == ' ' || c == '\n' || c == '\r' || c == '\t'
  }

  /** Only white space from a up to, not including, b. */
  predicate AllSpace(text: string, a: nat, b: nat)
    requires b <= |text|
  {
    forall i :: a <= i < b ==> text[i] in {' ', '\n', '\r', '\t'}
  }

  // ----- what is to be found -----

  /** text[b..end] is a complete object, only preceded by white space after `start`. */
  ghost predicate ObjectFrom(text: string, start: nat, b: nat, end: nat, inner: Items) {
    && start <= b <= end <= |text|
    && AllSpace(text, start, b)
    && ItemsOk(inner)
    && text[b..end] == PrintObject(inner)
  }

  ghost predicate ObjectAt(text: string, start: nat, end: nat) {
    exists b: nat, inner :: ObjectFrom(text, start, b, end, inner)
  }

  /** After `end` there is only white space up to a closing parenthesis. */
  ghost predicate ClosedAfter(text: string, end: nat) {
    exists p: nat :: end <= p < |text| && AllSpace(text, end, p) && text[p] == ')'
  }

  // ----- the scan as a function -----

  /** The end of the object that is open `depth` levels deep at position i. */
  function CloseOf(text: string, i: nat, depth: nat): Option<nat>
    decreases |text| - i
  {
    if i >= |text| then None
    else if text[i] == '"' then
      var j := StringEnd(text, i + 1);
      if j.None? then None else CloseOf(text, j.value, depth)
    else if text[i] == '{' then CloseOf(text, i + 1, depth + 1)
    else if text[i] == '}' then
      if depth <= 1 then Some(i + 1) else CloseOf(text, i + 1, depth - 1)
    else CloseOf(text, i + 1, depth)
  }

  /** The position after the quote that ends a string literal whose inside starts at i. */
  function StringEnd(text: string, i: nat): (j: Option<nat>)
    ensures j.Some? ==> i < j.value <= |text|
    decreases |text| - i
  {
    if i >= |text| then None
    else if text[i] == '\\' then StringEnd(text, i + 2)
    else if text[i] == '"' then Some(i + 1)
    else StringEnd(text, i + 1)
  }

  // ----- printed structure is scanned to its end -----

  /** The text reads p at position i. */
  ghost predicate Reads(text: string, i: nat, p: string) {
    i + |p| <= |text| && forall k :: 0 <= k < |p| ==> text[i + k] == p[k]
  }

  lemma ReadsConcat(text: string, i: nat, p: string, q: string)
    requires Reads(text, i, p + q)
    ensures Reads(text, i, p) && Reads(text, i + |p|, q)
  {
    assert forall k :: 0 <= k < |p| ==> (p + q)[k] == p[k];
    forall k | 0 <= k < |q| ensures text[i + |p| + k] == q[k] {
      assert (p + q)[|p| + k] == q[k];
    }
  }

  lemma ReadsChar(text: string, i: nat, c: char)
    requires Reads(text, i, [c])
    ensures i < |text| && text[i] == c
  {
    assert [c][0] == c && text[i + 0] == c;
  }

  lemma {:induction false} StringPrinted(text: string, i: nat, parts: seq<Part>)
    requires forall k :: 0 <= k < |parts| ==> PartOk(parts[k])
    requires Reads(text, i, PrintParts(parts) + ['"'])
    ensures StringEnd(text, i) == Some(i + |PrintParts(parts)| + 1)
    decreases |parts|
  {
    if parts == [] {
      assert PrintParts(parts) + ['"'] == ['"'];
      ReadsChar(text, i, '"');
    } else {
      var head := if parts[0].Lit? then [parts[0].c] else ['\\', parts[0].c];
      var rest := PrintParts(parts[1..]) + ['"'];
      assert PrintParts(parts) + ['"'] == head + rest;
      ReadsConcat(text, i, head, rest);
      assert head == [head[0]] + head[1..];
      ReadsConcat(text, i, [head[0]], head[1..]);
      ReadsChar(text, i, head[0]);
      StringPrinted(text, i + |head|, parts[1..]);
    }
  }

  lemma TextPrinted(text: string, i: nat, parts: seq<Part>, rest: string, depth: nat)
    requires forall k :: 0 <= k < |parts| ==> PartOk(parts[k])
    requires Reads(text, i, ['"'] + PrintParts(parts) + ['"'] + rest)
    ensures var j := i + 2 + |PrintParts(parts)|;
            Reads(text, j, rest) && CloseOf(text, i, depth) == CloseOf(text, j, depth)
  {
    var q := PrintParts(parts) + ['"'];
    assert ['"'] + PrintParts(parts) + ['"'] == ['"'] + q;
    ReadsConcat(text, i, ['"'] + q, rest);
    ReadsConcat(text, i, ['"'], q);
    ReadsChar(text, i, '"');
    StringPrinted(text, i + 1, parts);
  }

  /** Printed items leave the depth as it was. */
  lemma {:induction false} ItemsPrinted(text: string, i: nat, x: Items, depth: nat)
    requires ItemsOk(x) && depth >= 1 && Reads(text, i, PrintItems(x))
    ensures CloseOf(text, i, depth) == CloseOf(text, i + |PrintItems(x)|, depth)
    decreases x
  {
    match x {
      case End =>
      case Plain(c, rest) =>
        PlainReads(text, i, c, PrintItems(rest), depth);
        ItemsPrinted(text, i + 1, rest, depth);
      case Text(parts, rest) =>
        TextPrinted(text, i, parts, PrintItems(rest), depth);
        ItemsPrinted(text, i + 2 + |PrintParts(parts)|, rest, depth);
      case Object(inner, rest) =>
        var m := |PrintItems(inner)|;
        ObjectReads(text, i, inner, PrintItems(rest));
        ItemsPrinted(text, i + 1, inner, depth + 1);
        ObjectStep(text, i, m, depth);
        ItemsPrinted(text, i + 2 + m, rest, depth);
    }
  }

  lemma PlainReads(text: string, i: nat, c: char, rest: string, depth: nat)
    requires Reads(text, i, [c] + rest) && c != '"' && c != '{' && c != '}'
    ensures Reads(text, i + 1, rest) && CloseOf(text, i, depth) == CloseOf(text, i + 1, depth)
  {
    ReadsConcat(text, i, [c], rest);
    ReadsChar(text, i, c);
  }

  lemma ObjectStep(text: string, i: nat, m: nat, depth: nat)
    requires depth >= 1 && i + 1 + m < |text| && text[i] == '{' && text[i + 1 + m] == '}'
    requires CloseOf(text, i + 1, depth + 1) == CloseOf(text, i + 1 + m, depth + 1)
    ensures CloseOf(text, i, depth) == CloseOf(text, i + 2 + m, depth)
  {
  }

  lemma ObjectReads(text: string, i: nat, inner: Items, rest: string)
    requires Reads(text, i, ['{'] + PrintItems(inner) + ['}'] + rest)
    ensures Reads(text, i + 1, PrintItems(inner)) && Reads(text, i + 2 + |PrintItems(inner)|, rest)
    ensures i + 1 + |PrintItems(inner)| < |text| && text[i] == '{' && text[i + 1 + |PrintItems(inner)|] == '}'
  {
    ReadsBraced(text, i, PrintItems(inner), rest);
  }

  lemma ReadsBraced(text: string, i: nat, q: string, rest: string)
    requires Reads(text, i, ['{'] + q + ['}'] + rest)
    ensures Reads(text, i + 1, q) && Reads(text, i + 2 + |q|, rest)
    ensures i + 1 + |q| < |text| && text[i] == '{' && text[i + 1 + |q|] == '}'
  {
    ReadsConcat(text, i, ['{'] + q + ['}'], rest);
    ReadsConcat(text, i, ['{'] + q, ['}']);
    ReadsConcat(text, i, ['{'], q);
    ReadsChar(text, i, '{');
    ReadsChar(text, i + 1 + |q|, '}');
  }

  lemma ObjectPrinted(text: string, b: nat, end: nat, inner: Items)
    requires b <= end <= |text| && ItemsOk(inner) && text[b..end] == PrintObject(inner)
    ensures b < |text| && text[b] == '{' && CloseOf(text, b, 0) == Some(end)
  {
    assert PrintObject(inner) == ['{'] + PrintItems(inner) + ['}'] + [];
    assert forall k :: 0 <= k < end - b ==> text[b + k] == text[b..end][k];
    ObjectReads(text, b, inner, []);
    ItemsPrinted(text, b + 1, inner, 1);
  }

  // ----- what is scanned has printed structure -----

  lemma {:induction false} StringScanned(text: string, i: nat) returns (parts: seq<Part>)
    requires StringEnd(text, i).Some?
    ensures forall k :: 0 <= k < |parts| ==> PartOk(parts[k])
    ensures text[i..StringEnd(text, i).value] == PrintParts(parts) + ['"']
    decreases |text| - i
  {
    var j := StringEnd(text, i).value;
    if text[i] == '\\' {
      var rest := StringScanned(text, i + 2);
      parts := [Esc(text[i + 1])] + rest;
      assert parts[1..] == rest;
      assert text[i..j] == [text[i], text[i + 1]] + text[i + 2..j];
    } else if text[i] == '"' {
      parts := [];
    } else {
      var rest := StringScanned(text, i + 1);
      parts := [Lit(text[i])] + rest;
      assert parts[1..] == rest;
      assert text[i..j] == [text[i]] + text[i + 1..j];
    }
  }

  /** The text of several levels, each followed by the brace that closes it. */
  function PrintLevels(levels: seq<Items>): string {
    if levels == [] then [] else PrintItems(levels[0]) + ['}'] + PrintLevels(levels[1..])
  }

  ghost predicate Scanned(text: string, i: nat, e: nat, levels: seq<Items>) {
    && i <= e <= |text|
    && (forall k :: 0 <= k < |levels| ==> ItemsOk(levels[k]))
    && text[i..e] == PrintLevels(levels)
  }

  /** Something in front of what was scanned goes to the first level. */
  lemma ScannedMore(text: string, i: nat, j: nat, e: nat, rest: seq<Items>, first: Items)
    requires i <= j && Scanned(text, j, e, rest) && rest != [] && ItemsOk(first)
    requires PrintItems(first) == text[i..j] + PrintItems(rest[0])
    ensures Scanned(text, i, e, [first] + rest[1..])
  {
    var levels := [first] + rest[1..];
    assert levels[1..] == rest[1..];
    assert text[i..e] == text[i..j] + text[j..e];
  }

  lemma ScannedText(text: string, i: nat, j: nat, e: nat, parts: seq<Part>, rest: seq<Items>)
    requires i <= j && Scanned(text, j, e, rest) && rest != []
    requires text[i..j] == ['"'] + PrintParts(parts) + ['"']
    requires forall k :: 0 <= k < |parts| ==> PartOk(parts[k])
    ensures Scanned(text, i, e, [Text(parts, rest[0])] + rest[1..])
  {
    ScannedMore(text, i, j, e, rest, Text(parts, rest[0]));
  }

  lemma ScannedPlain(text: string, i: nat, e: nat, rest: seq<Items>)
    requires i < |text| && text[i] != '"' && text[i] != '{' && text[i] != '}'
    requires Scanned(text, i + 1, e, rest) && rest != []
    ensures Scanned(text, i, e, [Plain(text[i], rest[0])] + rest[1..])
  {
    assert text[i..i + 1] == [text[i]];
    ScannedMore(text, i, i + 1, e, rest, Plain(text[i], rest[0]));
  }

  lemma Regrouped(p: string, q: string, rest: string)
    ensures ['{'] + (p + ['}'] + (q + ['}'] + rest)) == (['{'] + p + ['}'] + q) + ['}'] + rest
  {
  }

  lemma ScannedOpen(text: string, i: nat, e: nat, rest: seq<Items>)
    requires i < |text| && text[i] == '{' && Scanned(text, i + 1, e, rest) && |rest| >= 2
    ensures Scanned(text, i, e, [Object(rest[0], rest[1])] + rest[2..])
  {
    var levels := [Object(rest[0], rest[1])] + rest[2..];
    assert rest[1..][1..] == rest[2..] && levels[1..] == rest[2..];
    assert PrintLevels(rest) == PrintItems(rest[0]) + ['}'] + PrintLevels(rest[1..]);
    assert PrintLevels(rest[1..]) == PrintItems(rest[1]) + ['}'] + PrintLevels(rest[2..]);
    assert text[i..e] == ['{'] + text[i + 1..e];
    Regrouped(PrintItems(rest[0]), PrintItems(rest[1]), PrintLevels(rest[2..]));
  }

  lemma ScannedClose(text: string, i: nat, e: nat, rest: seq<Items>)
    requires i < |text| && text[i] == '}' && Scanned(text, i + 1, e, rest)
    ensures Scanned(text, i, e, [End] + rest)
  {
    assert ([End] + rest)[1..] == rest;
    assert text[i..e] == ['}'] + text[i + 1..e];
  }

  /** A scan that closes `depth` levels has read exactly that many levels of printed items. */
  lemma {:induction false} LevelsScanned(text: string, i: nat, depth: nat) returns (levels: seq<Items>)
    requires depth >= 1 && CloseOf(text, i, depth).Some?
    ensures |levels| == depth && Scanned(text, i, CloseOf(text, i, depth).value, levels)
    decreases |text| - i
  {
    var e := CloseOf(text, i, depth).value;
    if text[i] == '"' {
      var j := StringEnd(text, i + 1).value;
      var parts := StringScanned(text, i + 1);
      var rest := LevelsScanned(text, j, depth);
      levels := [Text(parts, rest[0])] + rest[1..];
      assert text[i..j] == ['"'] + text[i + 1..j];
      ScannedText(text, i, j, e, parts, rest);
    } else if text[i] == '{' {
      var rest := LevelsScanned(text, i + 1, depth + 1);
      levels := [Object(rest[0], rest[1])] + rest[2..];
      ScannedOpen(text, i, e, rest);
    } else if text[i] == '}' {
      var rest := [];
      if depth > 1 {
        rest := LevelsScanned(text, i + 1, depth - 1);
      }
      levels := [End] + rest;
      ScannedClose(text, i, e, rest);
    } else {
      var rest := LevelsScanned(text, i + 1, depth);
      levels := [Plain(text[i], rest[0])] + rest[1..];
      ScannedPlain(text, i, e, rest);
    }
  }

  lemma ObjectScanned(text: string, b: nat) returns (inner: Items)
    requires b < |text| && text[b] == '{' && CloseOf(text, b, 0).Some?
    ensures b < CloseOf(text, b, 0).value <= |text|
    ensures ItemsOk(inner) && text[b..CloseOf(text, b, 0).value] == PrintObject(inner)
  {
    var e := CloseOf(text, b, 0).value;
    var levels := LevelsScanned(text, b + 1, 1);
    inner := levels[0];
    assert text[b..e] == ['{'] + text[b + 1..e];
    assert PrintLevels(levels[1..]) == [];
  }

  // ----- the scanner -----

  /** Finds the end of the object after `start` that is followed by a closing parenthesis. */
  method BalancedObjectEnd(text: string, start: nat) returns (end: nat, ok: bool)
    ensures ok ==> ObjectAt(text, start, end) && ClosedAfter(text, end)
    ensures !ok ==> forall e: nat :: !(ObjectAt(text, start, e) && ClosedAfter(text, e))
    ensures ok ==> forall e: nat :: ObjectAt(text, start, e) ==> e == end
  {
    var b := start;
    while b < |text| && IsSpace(text[b])
      invariant start <= |text| ==> start <= b <= |text| && AllSpace(text, start, b)
      invariant start > |text| ==> b == start
    {
      b := b + 1;
    }
    if b >= |text| || text[b] != '{' {
      NoObject(text, start, b);
      return 0, false;
    }
    ghost var close := CloseOf(text, b, 0);
    OnlyObject(text, start, b);
    var depth, inString, escaped := 0, false, false;
    var i := b;
    while i < |text|
      invariant b <= i <= |text|
      invariant depth >= 0 && (i > b && !inString ==> depth >= 1) && (inString ==> depth >= 1)
      invariant escaped ==> inString && i > b
      invariant close == ScanFrom(text, i, depth, inString, escaped)
    {
      var c := text[i];
      if inString {
        if escaped {
          escaped := false;
        } else if c == '\\' {
          escaped := true;
        } else if c == '"' {
          inString := false;
        }
      } else if c == '"' {
        inString := true;
      } else if c == '{' {
        depth := depth + 1;
      } else if c == '}' {
        depth := depth - 1;
        if depth == 0 {
          end, ok := ParenthesisAfter(text, i + 1);
          if ok {
            ghost var inner := ObjectScanned(text, b);
            assert ObjectFrom(text, start, b, end, inner);
          }
          return;
        }
      }
      i := i + 1;
    }
    return 0, false;
  }

  /** The scan of the loop, whatever lexical state it is in. */
  ghost function ScanFrom(text: string, i: nat, depth: nat, inString: bool, escaped: bool): Option<nat>
    requires escaped ==> inString
  {
    if inString then
      var j := StringEnd(text, if escaped then i + 1 else i);
      if j.None? then None else CloseOf(text, j.value, depth)
    else CloseOf(text, i, depth)
  }

  /** Looks for the closing parenthesis; when the text ends first, the object is not a call. */
  method ParenthesisAfter(text: string, end: nat) returns (e: nat, ok: bool)
    requires end <= |text|
    ensures ok <==> ClosedAfter(text, end)
    ensures ok ==> e == end
  {
    var j := end;
    while j < |text|
      invariant end <= j <= |text| && AllSpace(text, end, j)
    {
      if text[j] == ')' {
        return end, true;
      }
      if !IsSpace(text[j]) {
        return 0, false;
      }
      j := j + 1;
    }
    return 0, false;
  }

  lemma NoObject(text: string, start: nat, b: nat)
    requires start <= |text| ==> start <= b <= |text| && AllSpace(text, start, b)
    requires start > |text| ==> b == start
    requires b >= |text| || (text[b] != '{' && !IsSpace(text[b]))
    ensures forall e: nat :: !ObjectAt(text, start, e)
  {
    forall e: nat, b2: nat, inner | ObjectFrom(text, start, b2, e, inner) ensures b < |text| && text[b] == '{' {
      ObjectPrinted(text, b2, e, inner);
    }
  }

  lemma OnlyObject(text: string, start: nat, b: nat)
    requires start <= b < |text| && AllSpace(text, start, b) && text[b] == '{'
    ensures forall e: nat :: ObjectAt(text, start, e) ==> CloseOf(text, b, 0) == Some(e)
  {
    forall e: nat, b2: nat, inner | ObjectFrom(text, start, b2, e, inner) ensures CloseOf(text, b, 0) == Some(e) {
      ObjectPrinted(text, b2, e, inner);
    }
  }
}
