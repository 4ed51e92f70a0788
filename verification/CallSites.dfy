/** The search for `name({...})` call sites in model output (functionCallBodies and
isFunctionCallBoundary of `agent/text_tool_calls.go`). */
module CallSites {
  import opened BraceGrammar
  import opened TextScanner

  ghost predicate Occurs(text: string, s: nat, name: string) {
    s + |name| <= |text| && text[s..s + |name|] == name
  }

  predicate IsWordChar(c: char) {
    c == '_' || c == '.' || c == '-' || c == '$' || '0' <= c <= '9' || 'A' <= c <= 'Z' || 'a' <= c <= 'z'
  }

  /** The character is none of a word: letter, digit, underscore, dot, dash or dollar sign. */
  ghost predicate EndsWord(c: char) {
    c !in {'_', '.', '-', '$'} && !('0' <= c <= '9') && !('A' <= c <= 'Z') && !('a' <= c <= 'z')
  }

  /** A name at `start` that ends at `open` is followed by a parenthesis and, after white
      space, a brace; and it is not the tail of a longer word. */
  ghost predicate Boundary(text: string, start: nat, open: nat) {
    && start <= open < |text| && text[open] == '('
    && (start > 0 ==> EndsWord(text[start - 1]))
    && (exists b: nat :: open < b < |text| && AllSpace(text, open + 1, b) && text[b] == '{')
  }

  /** A complete call site: the name at s, and an argument object that ends at e. */
  ghost predicate Site(text: string, name: string, s: nat, e: nat) {
    && Occurs(text, s, name)
    && Boundary(text, s, s + |name|)
    && ObjectAt(text, s + |name| + 1, e)
    && ClosedAfter(text, e)
  }

  method IndexFrom(text: string, from: nat, name: string) returns (at: int)
    requires from <= |text|
    ensures at < 0 ==> forall s: nat :: from <= s ==> !Occurs(text, s, name)
    ensures at >= 0 ==> from <= at && Occurs(text, at, name)
    ensures at >= 0 ==> forall s: nat :: from <= s < at ==> !Occurs(text, s, name)
  {
    var i := from;
    while i + |name| <= |text|
      invariant from <= i
      invariant forall s: nat :: from <= s < i ==> !Occurs(text, s, name)
      decreases |text| - i
    {
      if text[i..i + |name|] == name {
        return i;
      }
      i := i + 1;
    }
    return -1;
  }

  method IsFunctionCallBoundary(text: string, start: nat, open: nat) returns (ok: bool)
    requires start <= open <= |text|
    ensures ok <==> Boundary(text, start, open)
  {
    if open >= |text| || text[open] != '(' {
      return false;
    }
    if start > 0 && IsWordChar(text[start - 1]) {
      return false;
    }
    var i := open + 1;
    while i < |text|
      invariant open < i <= |text| && AllSpace(text, open + 1, i)
    {
      if IsSpace(text[i]) {
        i := i + 1;
      } else {
        return text[i] == '{';
      }
    }
    return false;
  }

  // ----- trimming -----

  predicate IsUnicodeSpace(c: char) {
    IsSpace(c) || c == '\U{000B}' || c == '\U{000C}' || c == '\U{0085}' || c == '\U{00A0}'
  }

  function TrimLeft(s: string): string {
    if s != [] && IsUnicodeSpace(s[0]) then TrimLeft(s[1..]) else s
  }

  function TrimRight(s: string): string {
    if s != [] && IsUnicodeSpace(s[|s| - 1]) then TrimRight(s[..|s| - 1]) else s
  }

  function TrimSpace(s: string): string {
    TrimRight(TrimLeft(s))
  }

  lemma {:induction false} TrimToObject(text: string, start: nat, b: nat, e: nat, inner: Items)
    requires ObjectFrom(text, start, b, e, inner)
    ensures TrimSpace(text[start..e]) == PrintObject(inner)
    decreases b - start
  {
    var s := text[start..e];
    if start < b {
      assert s[0] == text[start] && s[1..] == text[start + 1..e];
      TrimToObject(text, start + 1, b, e, inner);
    } else {
      assert s == PrintObject(inner);
      assert s[0] == '{' && s[|s| - 1] == '}';
    }
  }

  // ----- the search -----

  /** `body` is the argument object of the call site whose parenthesis is just before a. */
  ghost predicate Found(text: string, name: string, a: nat, b: nat, body: string) {
    && a >= |name| + 1 && Site(text, name, a - 1 - |name|, b)
    && (exists o: nat, inner :: ObjectFrom(text, a, o, b, inner) && body == PrintObject(inner))
  }

  datatype Span = Span(from: nat, to: nat)

  /** A site is reported, or overlaps an earlier occurrence of the name, or lies inside the
      argument of a reported one. */
  ghost predicate Accounted(text: string, name: string, s: nat, e: nat, spans: seq<Span>) {
    || Span(s + |name| + 1, e) in spans
    || (exists t: nat :: t < s <= t + |name| && Occurs(text, t, name))
    || (exists i :: 0 <= i < |spans| && spans[i].from <= s <= spans[i].to)
  }

  ghost predicate AllFound(text: string, name: string, spans: seq<Span>, bodies: seq<string>) {
    && |spans| == |bodies|
    && (forall i :: 0 <= i < |spans| ==> Found(text, name, spans[i].from, spans[i].to, bodies[i]))
  }

  /** The reported arguments are disjoint and come left to right. */
  ghost predicate Ordered(spans: seq<Span>) {
    forall i, j :: 0 <= i < j < |spans| ==> spans[i].to < spans[j].from
  }

  ghost predicate EndBefore(spans: seq<Span>, from: nat) {
    forall i :: 0 <= i < |spans| ==> spans[i].to < from
  }

  /** Every call site that starts before `from` is accounted for. */
  ghost predicate Complete(text: string, name: string, from: nat, spans: seq<Span>) {
    forall s: nat, e: nat :: s < from && Site(text, name, s, e) ==> Accounted(text, name, s, e, spans)
  }

  /** Nothing is lost between the search position and the end of the next occurrence's name,
      or one character further when the occurrence is not a complete call site. */
  lemma SkipIsComplete(text: string, name: string, from: nat, start: nat, next: nat, spans: seq<Span>)
    requires Complete(text, name, from, spans) && Occurs(text, start, name)
    requires forall s: nat :: from <= s < start ==> !Occurs(text, s, name)
    requires start <= next <= start + |name| + 1
    requires forall e: nat :: !Site(text, name, start, e)
    ensures Complete(text, name, next, spans)
  {
    forall s: nat, e: nat | s < next && Site(text, name, s, e) ensures Accounted(text, name, s, e, spans) {
      if s >= from {
        assert s > start;
      }
    }
  }

  lemma ReportIsComplete(text: string, name: string, from: nat, start: nat, end: nat, spans: seq<Span>)
    requires Complete(text, name, from, spans) && Occurs(text, start, name)
    requires forall s: nat :: from <= s < start ==> !Occurs(text, s, name)
    requires forall e: nat :: Site(text, name, start, e) ==> e == end
    ensures Complete(text, name, end + 1, spans + [Span(start + |name| + 1, end)])
  {
    var more := spans + [Span(start + |name| + 1, end)];
    assert more[|spans|] in more;
    forall s: nat, e: nat | s < end + 1 && Site(text, name, s, e) ensures Accounted(text, name, s, e, more) {
      if s < from {
        AccountedGrows(text, name, s, e, spans, Span(start + |name| + 1, end));
      } else if s > start + |name| {
        assert more[|spans|].from <= s <= more[|spans|].to;
      }
    }
  }

  lemma AccountedGrows(text: string, name: string, s: nat, e: nat, spans: seq<Span>, one: Span)
    requires Accounted(text, name, s, e, spans)
    ensures Accounted(text, name, s, e, spans + [one])
  {
    var more := spans + [one];
    if Span(s + |name| + 1, e) in spans {
      assert Span(s + |name| + 1, e) in more;
    } else if exists i :: 0 <= i < |spans| && spans[i].from <= s <= spans[i].to {
      var i :| 0 <= i < |spans| && spans[i].from <= s <= spans[i].to;
      assert more[i] == spans[i];
    }
  }

  /** The argument objects of the call sites of `name`, left to right. */
  method FunctionCallBodies(text: string, name: string) returns (bodies: seq<string>, ghost spans: seq<Span>)
    ensures name == [] ==> bodies == []
    ensures AllFound(text, name, spans, bodies) && Ordered(spans)
    ensures name != [] ==> forall s: nat, e: nat :: Site(text, name, s, e) ==> Accounted(text, name, s, e, spans)
  {
    bodies, spans := [], [];
    if name == [] {
      return;
    }
    var from := 0;
    while from < |text|
      invariant AllFound(text, name, spans, bodies) && Ordered(spans) && EndBefore(spans, from)
      invariant Complete(text, name, from, spans)
      decreases |text| - from
    {
      var start := IndexFrom(text, from, name);
      if start < 0 {
        SearchIsOver(text, name, from, spans);
        return;
      }
      var open := start + |name|;
      var ok := IsFunctionCallBoundary(text, start, open);
      if !ok {
        SkipIsComplete(text, name, from, start, open, spans);
        from := open;
        continue;
      }
      var end;
      end, ok := BalancedObjectEnd(text, open + 1);
      if !ok {
        SkipIsComplete(text, name, from, start, open + 1, spans);
        from := open + 1;
        continue;
      }
      var body := TrimSpace(text[open + 1..end]);
      IsFound(text, name, start, end);
      OneMoreFound(text, name, spans, bodies, Span(open + 1, end), body);
      OneMoreOrdered(spans, from, Span(open + 1, end));
      ReportIsComplete(text, name, from, start, end, spans);
      bodies, spans := bodies + [body], spans + [Span(open + 1, end)];
      from := end + 1;
    }
    SearchIsOver(text, name, from, spans);
  }

  lemma IsFound(text: string, name: string, start: nat, end: nat)
    requires Site(text, name, start, end)
    ensures start + |name| + 1 <= end <= |text|
    ensures Found(text, name, start + |name| + 1, end, TrimSpace(text[start + |name| + 1..end]))
  {
    var a := start + |name| + 1;
    var o: nat, inner :| ObjectFrom(text, a, o, end, inner);
    TrimToObject(text, a, o, end, inner);
  }

  lemma OneMoreFound(text: string, name: string, spans: seq<Span>, bodies: seq<string>, one: Span, body: string)
    requires AllFound(text, name, spans, bodies) && Found(text, name, one.from, one.to, body)
    ensures AllFound(text, name, spans + [one], bodies + [body])
  {
    var ss, bs := spans + [one], bodies + [body];
    forall i | 0 <= i < |ss| ensures Found(text, name, ss[i].from, ss[i].to, bs[i]) {
      if i < |spans| {
        assert Found(text, name, spans[i].from, spans[i].to, bodies[i]);
      }
    }
  }

  lemma OneMoreOrdered(spans: seq<Span>, from: nat, one: Span)
    requires Ordered(spans) && EndBefore(spans, from) && from <= one.from <= one.to
    ensures Ordered(spans + [one]) && EndBefore(spans + [one], one.to + 1)
  {
  }

  /** When the name does not occur any more, every site is accounted for. */
  lemma SearchIsOver(text: string, name: string, from: nat, spans: seq<Span>)
    requires Complete(text, name, from, spans) && name != []
    requires from >= |text| || forall s: nat :: from <= s ==> !Occurs(text, s, name)
    ensures forall s: nat, e: nat :: Site(text, name, s, e) ==> Accounted(text, name, s, e, spans)
  {
  }

  // ----- round trip -----

  /** The text has, at s, the name, a parenthesis, white space, the printed object (at b), white
      space and a parenthesis. */
  ghost predicate PrintedCall(text: string, name: string, s: nat, b: nat, fields: Fields) {
    var obj := PrintJson(Obj(fields));
    && FieldsOk(fields)
    && Occurs(text, s, name) && (s > 0 ==> EndsWord(text[s - 1]))
    && s + |name| < b && b + |obj| <= |text| && text[s + |name|] == '('
    && AllSpace(text, s + |name| + 1, b)
    && text[b..b + |obj|] == obj
    && ClosedAfter(text, b + |obj|)
  }

  lemma PrintedCallIsSite(text: string, name: string, s: nat, b: nat, fields: Fields)
    requires PrintedCall(text, name, s, b, fields)
    ensures Site(text, name, s, b + |PrintJson(Obj(fields))|)
    ensures text[b] == '{'
  {
    var obj := PrintJson(Obj(fields));
    FieldsHaveStructure(fields);
    assert obj == PrintObject(FieldsStructure(fields));
    BoundaryAt(text, s, s + |name|, b, obj);
    assert ObjectFrom(text, s + |name| + 1, b, b + |obj|, FieldsStructure(fields));
  }

  lemma BoundaryAt(text: string, start: nat, open: nat, b: nat, obj: string)
    requires start <= open < b && b + |obj| <= |text| && text[open] == '(' && AllSpace(text, open + 1, b)
    requires (start > 0 ==> EndsWord(text[start - 1])) && obj != [] && obj[0] == '{' && text[b..b + |obj|] == obj
    ensures Boundary(text, start, open) && text[b] == '{'
  {
    assert text[b] == text[b..b + |obj|][0];
  }

  /** Searching a text for a name whose first occurrence is a printed call gives back exactly
      the printed object as the first body. */
  method FirstCallRoundTrip(text: string, name: string, s: nat, b: nat, fields: Fields) returns (bodies: seq<string>)
    requires name != [] && PrintedCall(text, name, s, b, fields)
    requires forall t: nat :: t < s ==> !Occurs(text, t, name)
    ensures |bodies| > 0 && bodies[0] == PrintJson(Obj(fields))
  {
    ghost var spans;
    bodies, spans := FunctionCallBodies(text, name);
    PrintedCallIsReported(text, name, s, b, fields, spans, bodies);
  }

  lemma PrintedCallIsReported(text: string, name: string, s: nat, b: nat, fields: Fields,
                              spans: seq<Span>, bodies: seq<string>)
    requires name != [] && PrintedCall(text, name, s, b, fields)
    requires forall t: nat :: t < s ==> !Occurs(text, t, name)
    requires AllFound(text, name, spans, bodies) && Ordered(spans)
    requires forall t: nat, e: nat :: Site(text, name, t, e) ==> Accounted(text, name, t, e, spans)
    ensures |bodies| > 0 && bodies[0] == PrintJson(Obj(fields))
  {
    var e := b + |PrintJson(Obj(fields))|;
    PrintedCallIsSite(text, name, s, b, fields);
    assert Accounted(text, name, s, e, spans);
    FirstCallIsReported(text, name, s, b, e, spans, bodies);
  }

  lemma FirstCallIsReported(text: string, name: string, s: nat, b: nat, e: nat, spans: seq<Span>, bodies: seq<string>)
    requires Accounted(text, name, s, e, spans) && AllFound(text, name, spans, bodies) && Ordered(spans)
    requires forall t: nat :: t < s ==> !Occurs(text, t, name)
    requires s + |name| + 1 <= b < e <= |text| && AllSpace(text, s + |name| + 1, b) && text[b] == '{'
    ensures |bodies| > 0 && bodies[0] == text[b..e]
  {
    FirstSiteIsFirst(text, name, s, e, spans, bodies);
    assert Found(text, name, spans[0].from, spans[0].to, bodies[0]);
    FirstBody(text, name, s, b, e, bodies[0]);
  }

  lemma FirstSiteIsFirst(text: string, name: string, s: nat, e: nat, spans: seq<Span>, bodies: seq<string>)
    requires Accounted(text, name, s, e, spans) && AllFound(text, name, spans, bodies) && Ordered(spans)
    requires forall t: nat :: t < s ==> !Occurs(text, t, name)
    ensures |spans| > 0 && spans[0] == Span(s + |name| + 1, e)
  {
    forall i | 0 <= i < |spans| ensures s + |name| + 1 <= spans[i].from <= spans[i].to {
      assert Found(text, name, spans[i].from, spans[i].to, bodies[i]);
      assert Occurs(text, spans[i].from - 1 - |name|, name);
    }
    var k :| 0 <= k < |spans| && spans[k] == Span(s + |name| + 1, e);
    assert s + |name| + 1 <= spans[0].from <= spans[0].to;
  }

  /** The body of a site is the text of its object. */
  lemma FirstBody(text: string, name: string, s: nat, b: nat, e: nat, body: string)
    requires Found(text, name, s + |name| + 1, e, body)
    requires s + |name| + 1 <= b < e <= |text| && AllSpace(text, s + |name| + 1, b) && text[b] == '{'
    ensures body == text[b..e]
  {
    var o: nat, inner :| ObjectFrom(text, s + |name| + 1, o, e, inner) && body == PrintObject(inner);
    ObjectPrinted(text, o, e, inner);
  }
}
