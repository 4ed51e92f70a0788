/** The in-memory query engine (`model/memory.go`): filtering, the in-place sort by printed
value, and paging. Filters are any predicate on rows. */
module Query {
  import opened Ordering

  /** A row: the printed form of each field it has. */
  datatype Row = Row(fields: map<string, string>)

  /** The printed form of a missing field is that of a nil value. */
  function Printed(r: Row, field: string): string {
    if field in r.fields then r.fields[field] else "<nil>"
  }

  predicate OutOfOrder(a: string, b: string, desc: bool) {
    if desc then StringLess(a, b) else StringLess(b, a)
  }

  /** Equal values, or ones whose first difference goes up, or down if that is asked for. */
  ghost predicate InDirection(a: string, b: string, desc: bool) {
    a == b || if desc then ComesFirst(b, a) else ComesFirst(a, b)
  }

  // ----- the stable arrangement -----

  /** Position i comes before position j: by printed value in the wanted direction, by
      position among equal values. */
  predicate Before(s: seq<Row>, field: string, desc: bool, i: nat, j: nat) {
    if i >= |s| || j >= |s| then i < j
    else
      var a, b := Printed(s[i], field), Printed(s[j], field);
      OutOfOrder(b, a, desc) || (a == b && i < j)
  }

  function Order(s: seq<Row>, field: string, desc: bool): (nat, nat) -> bool {
    (i: nat, j: nat) => Before(s, field, desc, i, j)
  }

  function Positions(n: nat): seq<nat> {
    seq(n, i => i)
  }

  function Arrangement(s: seq<Row>, field: string, desc: bool): seq<nat> {
    Sort<nat>(Order(s, field, desc), Positions(|s|))
  }

  /** The rows at the given positions. */
  function Pick(s: seq<Row>, p: seq<nat>): seq<Row>
    requires forall k :: 0 <= k < |p| ==> p[k] < |s|
  {
    seq(|p|, k requires 0 <= k < |p| => s[p[k]])
  }

  ghost predicate Arranges(s: seq<Row>, p: seq<nat>) {
    && |p| == |s| && multiset(p) == multiset(Positions(|s|))
    && (forall k :: 0 <= k < |p| ==> p[k] < |s|)
  }

  lemma BeforeTransitive(s: seq<Row>, field: string, desc: bool, i: nat, j: nat, k: nat)
    requires i < |s| && j < |s| && k < |s| && Before(s, field, desc, i, j) && Before(s, field, desc, j, k)
    ensures Before(s, field, desc, i, k)
  {
    var a, b, c := Printed(s[i], field), Printed(s[j], field), Printed(s[k], field);
    if a != b && b != c {
      if desc { StringLessTransitive(c, b, a); } else { StringLessTransitive(a, b, c); }
    }
  }

  lemma BeforeTotal(s: seq<Row>, field: string, desc: bool, i: nat, j: nat)
    requires i < |s| && j < |s|
    ensures i != j ==> Before(s, field, desc, i, j) || Before(s, field, desc, j, i)
    ensures !Before(s, field, desc, i, i)
    ensures !(Before(s, field, desc, i, j) && Before(s, field, desc, j, i))
  {
    var a, b := Printed(s[i], field), Printed(s[j], field);
    StringLessTotal(a, b);
    StringLessIrreflexive(a);
    if StringLess(a, b) && StringLess(b, a) { StringLessTransitive(a, b, a); }
  }

  lemma OrderTotal(s: seq<Row>, field: string, desc: bool, xs: set<nat>)
    requires forall x :: x in xs ==> x < |s|
    ensures TotalOn(Order(s, field, desc), xs)
  {
    forall a | a in xs ensures !Before(s, field, desc, a, a) {
      BeforeTotal(s, field, desc, a, a);
    }
    forall a, b | a in xs && b in xs && a != b ensures Before(s, field, desc, a, b) || Before(s, field, desc, b, a) {
      BeforeTotal(s, field, desc, a, b);
    }
    forall a, b, c | a in xs && b in xs && c in xs && Before(s, field, desc, a, b) && Before(s, field, desc, b, c)
      ensures Before(s, field, desc, a, c)
    {
      BeforeTransitive(s, field, desc, a, b, c);
    }
  }

  lemma PositionsElements(n: nat, p: seq<nat>)
    requires multiset(p) == multiset(Positions(n))
    ensures |p| == n && (forall k :: 0 <= k < |p| ==> p[k] < n)
    ensures forall x: nat :: x in Elements(p) ==> x < n
  {
    SameElements(p, Positions(n));
    forall x: nat | x in Elements(p) ensures x < n {
      assert x in Elements(Positions(n));
    }
    assert forall k :: 0 <= k < |p| ==> p[k] in Elements(p);
  }

  lemma ArrangementArranges(s: seq<Row>, field: string, desc: bool)
    ensures Arranges(s, Arrangement(s, field, desc))
  {
    SortElements<nat>(Order(s, field, desc), Positions(|s|));
    PositionsElements(|s|, Arrangement(s, field, desc));
  }

  /** Any sorted permutation of the positions is the arrangement. */
  lemma ArrangementUnique(s: seq<Row>, field: string, desc: bool, p: seq<nat>)
    requires Arranges(s, p)
    requires forall i, j :: 0 <= i < j < |p| ==> Before(s, field, desc, p[i], p[j])
    ensures p == Arrangement(s, field, desc)
  {
    var less := Order(s, field, desc);
    PositionsElements(|s|, Positions(|s|));
    PositionsElements(|s|, p);
    OrderTotal(s, field, desc, Elements(p));
    OrderTotal(s, field, desc, Elements(Positions(|s|)));
    SortSorted<nat>(less, Positions(|s|));
    SortElements<nat>(less, Positions(|s|));
    forall i, j | 0 <= i < j < |p| ensures !less(p[j], p[i]) {
      BeforeTotal(s, field, desc, p[i], p[j]);
    }
    SortedUnique<nat>(less, p, Arrangement(s, field, desc));
  }

  /** The sorted rows. */
  function SortedRows(s: seq<Row>, field: string, desc: bool): seq<Row> {
    ArrangementArranges(s, field, desc);
    Pick(s, Arrangement(s, field, desc))
  }

  /** Sorting gives a permutation that is ordered by printed value and stable: it picks every
      position once, values never step out of order, and equal values keep their positions. */
  lemma SortedRowsStable(s: seq<Row>, field: string, desc: bool, i: nat, j: nat)
    requires i < j < |s|
    ensures Arranges(s, Arrangement(s, field, desc)) && |SortedRows(s, field, desc)| == |s|
    ensures var a, t := Arrangement(s, field, desc), SortedRows(s, field, desc);
            && t == Pick(s, a)
            && !OutOfOrder(Printed(t[i], field), Printed(t[j], field), desc)
            && InDirection(Printed(t[i], field), Printed(t[j], field), desc)
            && (Printed(t[i], field) == Printed(t[j], field) ==> a[i] < a[j])
  {
    ArrangementArranges(s, field, desc);
    var a := Arrangement(s, field, desc);
    PositionsElements(|s|, Positions(|s|));
    OrderTotal(s, field, desc, Elements(Positions(|s|)));
    SortSorted<nat>(Order(s, field, desc), Positions(|s|));
    assert !Order(s, field, desc)(a[j], a[i]);
    DistinctPositions(|s|, a, i, j);
    BeforeTotal(s, field, desc, a[i], a[j]);
    var x, y := Printed(s[a[i]], field), Printed(s[a[j]], field);
    StringLessTotal(x, y);
    StringLessIrreflexive(x);
    StringLessIff(x, y);
    StringLessIff(y, x);
  }

  lemma DistinctPositions(n: nat, p: seq<nat>, i: nat, j: nat)
    requires multiset(p) == multiset(Positions(n)) && i < j < |p|
    ensures p[i] != p[j]
  {
    OncePerPosition(n, p[i]);
    assert p == p[..j] + [p[j]] + p[j + 1..];
    assert p[i] in multiset(p[..j]);
  }

  lemma {:induction false} OncePerPosition(n: nat, x: nat)
    ensures multiset(Positions(n))[x] == if x < n then 1 else 0
  {
    if n > 0 {
      OncePerPosition(n - 1, x);
      assert Positions(n) == Positions(n - 1) + [n - 1];
    }
  }

  // ----- sortRows -----

  /** Among the first i + 1 positions every pair is in order except pairs that end at j, and
      position j still holds the row that started at i unless it too is in order. */
  ghost predicate Settling(s: seq<Row>, field: string, desc: bool, p: seq<nat>, i: nat, j: nat) {
    && Arranges(s, p) && j <= i < |p|
    && (forall a, b :: 0 <= a < b <= i && b != j ==> Before(s, field, desc, p[a], p[b]))
    && (p[j] == i || forall a :: 0 <= a < j ==> Before(s, field, desc, p[a], p[j]))
    && (forall a :: 0 <= a <= i ==> p[a] <= i)
    && (forall a, b :: 0 <= a < b <= i ==> p[a] != p[b])
    && (forall a :: i < a < |p| ==> p[a] == a)
  }

  ghost predicate Settled(s: seq<Row>, field: string, desc: bool, p: seq<nat>, i: nat) {
    && Arranges(s, p) && i <= |p|
    && (forall a, b :: 0 <= a < b < i ==> Before(s, field, desc, p[a], p[b]))
    && (forall a :: 0 <= a < i ==> p[a] < i)
    && (forall a, b :: 0 <= a < b < i ==> p[a] != p[b])
    && (forall a :: i <= a < |p| ==> p[a] == a)
  }

  function Swap<T>(p: seq<T>, j: nat): seq<T>
    requires 0 < j < |p|
  {
    p[j - 1 := p[j]][j := p[j - 1]]
  }

  lemma SwapElements<T>(p: seq<T>, j: nat)
    requires 0 < j < |p|
    ensures multiset(Swap(p, j)) == multiset(p)
  {
    assert p == p[..j - 1] + [p[j - 1], p[j]] + p[j + 1..];
    assert Swap(p, j) == p[..j - 1] + [p[j], p[j - 1]] + p[j + 1..];
  }

  lemma SwapSettles(s: seq<Row>, field: string, desc: bool, p: seq<nat>, i: nat, j: nat)
    requires Settling(s, field, desc, p, i, j) && 0 < j
    requires OutOfOrder(Printed(s[p[j - 1]], field), Printed(s[p[j]], field), desc)
    ensures Settling(s, field, desc, Swap(p, j), i, j - 1)
  {
    SwapElements(p, j);
    BeforeTotal(s, field, desc, p[j - 1], p[j]);
    var q := Swap(p, j);
    assert p[j] == i;
    forall a, b | 0 <= a < b <= i && b != j - 1 ensures Before(s, field, desc, q[a], q[b]) {
      if b == j && a < j - 1 {
        assert Before(s, field, desc, p[a], p[j - 1]);
      }
    }
  }

  lemma StaySettles(s: seq<Row>, field: string, desc: bool, p: seq<nat>, i: nat, j: nat)
    requires Settling(s, field, desc, p, i, j) && 0 < j
    requires !OutOfOrder(Printed(s[p[j - 1]], field), Printed(s[p[j]], field), desc)
    ensures Settling(s, field, desc, p, i, j - 1)
  {
    StringLessTotal(Printed(s[p[j - 1]], field), Printed(s[p[j]], field));
    assert Before(s, field, desc, p[j - 1], p[j]);
    forall a | 0 <= a < j ensures Before(s, field, desc, p[a], p[j]) {
      if a < j - 1 {
        BeforeTransitive(s, field, desc, p[a], p[j - 1], p[j]);
      }
    }
  }

  lemma SettledStarts(s: seq<Row>, field: string, desc: bool, p: seq<nat>, i: nat)
    requires Settled(s, field, desc, p, i) && i < |p|
    ensures Settling(s, field, desc, p, i, i)
  {
  }

  lemma SettlingEnds(s: seq<Row>, field: string, desc: bool, p: seq<nat>, i: nat)
    requires Settling(s, field, desc, p, i, 0)
    ensures Settled(s, field, desc, p, i + 1)
  {
  }

  lemma PickSwap(s: seq<Row>, p: seq<nat>, j: nat)
    requires 0 < j < |p| && forall k :: 0 <= k < |p| ==> p[k] < |s|
    ensures (forall k :: 0 <= k < |p| ==> Swap(p, j)[k] < |s|) && Pick(s, Swap(p, j)) == Swap(Pick(s, p), j)
  {
  }

  /** The inner loop: the row at i moves down to its place among the rows before it. */
  method Settle(rows: array<Row>, field: string, desc: bool, i: nat, ghost s: seq<Row>, ghost p: seq<nat>)
    returns (ghost q: seq<nat>)
    requires 0 < i < rows.Length && Settled(s, field, desc, p, i) && rows[..] == Pick(s, p)
    modifies rows
    ensures Settled(s, field, desc, q, i + 1) && rows[..] == Pick(s, q)
  {
    q := p;
    SettledStarts(s, field, desc, p, i);
    var j := i;
    while j > 0
      invariant 0 <= j <= i
      invariant Settling(s, field, desc, q, i, j) && rows[..] == Pick(s, q)
    {
      ghost var before := rows[..];
      assert rows[j - 1] == before[j - 1] == s[q[j - 1]] && rows[j] == before[j] == s[q[j]];
      var a, b := Printed(rows[j - 1], field), Printed(rows[j], field);
      if OutOfOrder(a, b, desc) {
        rows[j - 1], rows[j] := rows[j], rows[j - 1];
        assert rows[..] == Swap(before, j);
        SwapSettles(s, field, desc, q, i, j);
        PickSwap(s, q, j);
        q := Swap(q, j);
      } else {
        StaySettles(s, field, desc, q, i, j);
      }
      j := j - 1;
    }
    SettlingEnds(s, field, desc, q, i);
  }

  /** Sorts the rows in place by the printed value of a field. */
  method SortRows(rows: array<Row>, field: string, desc: bool)
    modifies rows
    ensures rows[..] == SortedRows(old(rows[..]), field, desc)
  {
    ghost var s := rows[..];
    ghost var p := Positions(|s|);
    assert rows[..] == Pick(s, p);
    var i := 1;
    while i < rows.Length
      invariant 1 <= i && Settled(s, field, desc, p, if i < |s| then i else |s|) && rows[..] == Pick(s, p)
    {
      p := Settle(rows, field, desc, i, s, p);
      i := i + 1;
    }
    ArrangementUnique(s, field, desc, p);
  }

  // ----- listing and counting -----

  /** The rows of the table that match, in the order in which the keys are enumerated. */
  function Selected(table: map<string, Row>, matches: Row -> bool, keys: seq<string>): seq<Row>
    requires forall i :: 0 <= i < |keys| ==> keys[i] in table
  {
    if keys == [] then []
    else
      var rest := Selected(table, matches, keys[..|keys| - 1]);
      var row := table[keys[|keys| - 1]];
      if matches(row) then rest + [row] else rest
  }

  /** A map is enumerated in any order, each key once. */
  ghost predicate Enumerates(keys: seq<string>, table: map<string, Row>) {
    && (forall i, j :: 0 <= i < j < |keys| ==> keys[i] != keys[j])
    && (forall k :: k in keys <==> k in table)
  }

  ghost function MatchingKeys(table: map<string, Row>, matches: Row -> bool): set<string> {
    set k | k in table && matches(table[k])
  }

  /** Offset and limit of a query; 0 is no limit. */
  function Page(rows: seq<Row>, offset: nat, limit: nat): (r: seq<Row>)
    ensures |r| == PageLength(|rows|, offset, limit)
    ensures forall i :: 0 <= i < |r| ==> r[i] == rows[offset + i]
  {
    var from := if offset < |rows| then rows[offset..] else [];
    if limit > 0 && |from| > limit then from[..limit] else from
  }

  function PageLength(count: nat, offset: nat, limit: nat): nat {
    var left := if count > offset then count - offset else 0;
    if limit > 0 && left > limit then limit else left
  }

  /** The keys among `keys` whose rows match. */
  ghost function Chosen(table: map<string, Row>, matches: Row -> bool, keys: set<string>): set<string> {
    set k | k in keys && k in table && matches(table[k])
  }

  lemma ChosenMore(table: map<string, Row>, matches: Row -> bool, keys: set<string>, k: string)
    requires k in table && k !in keys
    ensures |Chosen(table, matches, keys + {k})| == |Chosen(table, matches, keys)| + if matches(table[k]) then 1 else 0
  {
    assert Chosen(table, matches, keys + {k}) ==
           if matches(table[k]) then Chosen(table, matches, keys) + {k} else Chosen(table, matches, keys);
  }

  lemma {:induction false} SelectedCount(table: map<string, Row>, matches: Row -> bool, keys: seq<string>)
    requires forall i :: 0 <= i < |keys| ==> keys[i] in table
    requires forall i, j :: 0 <= i < j < |keys| ==> keys[i] != keys[j]
    ensures |Selected(table, matches, keys)| == |Chosen(table, matches, (set k | k in keys))|
  {
    if keys != [] {
      var n := |keys| - 1;
      SelectedCount(table, matches, keys[..n]);
      ChosenMore(table, matches, (set k | k in keys[..n]), keys[n]);
      assert (set k | k in keys) == (set k | k in keys[..n]) + {keys[n]} by {
        assert keys == keys[..n] + [keys[n]];
      }
    }
  }

  method Enumerate(table: map<string, Row>, matches: Row -> bool) returns (rows: seq<Row>, keys: seq<string>)
    ensures Enumerates(keys, table) && rows == Selected(table, matches, keys)
  {
    rows, keys := [], [];
    var left := table.Keys;
    while left != {}
      invariant left <= table.Keys
      invariant forall i, j :: 0 <= i < j < |keys| ==> keys[i] != keys[j]
      invariant forall k :: k in keys <==> k in table && k !in left
      invariant rows == Selected(table, matches, keys)
      decreases |left|
    {
      var k :| k in left;
      var next := keys + [k];
      assert next[..|next| - 1] == keys;
      if matches(table[k]) {
        rows := rows + [table[k]];
      }
      keys, left := next, left - {k};
    }
  }

  /** The matching keys among `keys`, in their order. */
  ghost function SelectedKeys(table: map<string, Row>, matches: Row -> bool, keys: seq<string>): seq<string>
    requires forall i :: 0 <= i < |keys| ==> keys[i] in table
  {
    if keys == [] then []
    else
      var rest, k := SelectedKeys(table, matches, keys[..|keys| - 1]), keys[|keys| - 1];
      if matches(table[k]) then rest + [k] else rest
  }

  /** Each of the keys is in the table and matches, and occurs once. */
  ghost predicate MatchOnce(table: map<string, Row>, matches: Row -> bool, keys: seq<string>) {
    && (forall i :: 0 <= i < |keys| ==> keys[i] in table && matches(table[keys[i]]))
    && (forall i, j :: 0 <= i < j < |keys| ==> keys[i] != keys[j])
  }

  ghost predicate RowsOf(table: map<string, Row>, keys: seq<string>, rows: seq<Row>) {
    |rows| == |keys| && forall i :: 0 <= i < |keys| ==> keys[i] in table && rows[i] == table[keys[i]]
  }

  lemma {:induction false} SelectedAreMatching(table: map<string, Row>, matches: Row -> bool, keys: seq<string>)
    requires forall i :: 0 <= i < |keys| ==> keys[i] in table
    requires forall i, j :: 0 <= i < j < |keys| ==> keys[i] != keys[j]
    ensures var ks := SelectedKeys(table, matches, keys);
            && MatchOnce(table, matches, ks) && RowsOf(table, ks, Selected(table, matches, keys))
            && (forall k :: k in ks <==> k in keys && matches(table[k]))
  {
    if keys != [] {
      var n := |keys| - 1;
      SelectedAreMatching(table, matches, keys[..n]);
      assert keys == keys[..n] + [keys[n]];
      assert keys[n] !in keys[..n];
    }
  }

  /** The listing of all matching rows of the table, each key once, in the wanted order: `all` are
      their keys. */
  ghost predicate Lists(table: map<string, Row>, matches: Row -> bool, orderBy: string, desc: bool, all: seq<string>) {
    && MatchOnce(table, matches, all)
    && (forall k :: k in table && matches(table[k]) ==> k in all)
    && (orderBy != "" ==> forall i, j :: 0 <= i < j < |all| && all[i] in table && all[j] in table ==>
          InDirection(Printed(table[all[i]], orderBy), Printed(table[all[j]], orderBy), desc))
  }

  /** The keys in the order of the sorted rows. */
  lemma SortedKeys(table: map<string, Row>, matches: Row -> bool, orderBy: string, desc: bool, ks: seq<string>,
                   rows: seq<Row>)
    returns (all: seq<string>)
    requires MatchOnce(table, matches, ks) && RowsOf(table, ks, rows)
    requires forall k :: k in table && matches(table[k]) ==> k in ks
    ensures Lists(table, matches, orderBy, desc, all) && RowsOf(table, all, SortedRows(rows, orderBy, desc))
  {
    ArrangementArranges(rows, orderBy, desc);
    var a := Arrangement(rows, orderBy, desc);
    all := seq(|a|, i requires 0 <= i < |a| => ks[a[i]]);
    forall i, j | 0 <= i < j < |all|
      ensures all[i] != all[j]
      ensures InDirection(Printed(table[all[i]], orderBy), Printed(table[all[j]], orderBy), desc)
    {
      DistinctPositions(|rows|, a, i, j);
      SortedRowsStable(rows, orderBy, desc, i, j);
    }
    forall k | k in ks ensures k in all {
      var p :| 0 <= p < |ks| && ks[p] == k;
      OncePerPosition(|rows|, p);
      assert p in multiset(a);
      var i :| 0 <= i < |a| && a[i] == p;
      assert all[i] == k;
    }
  }

  /** Filters, and sorts when an order is asked for. */
  method Find(table: map<string, Row>, matches: Row -> bool, orderBy: string, desc: bool)
    returns (rows: seq<Row>, ghost keys: seq<string>, ghost all: seq<string>)
    ensures Enumerates(keys, table) && Lists(table, matches, orderBy, desc, all) && RowsOf(table, all, rows)
    ensures var found := Selected(table, matches, keys);
            rows == if orderBy != "" then SortedRows(found, orderBy, desc) else found
    ensures |rows| == |MatchingKeys(table, matches)|
  {
    rows, keys := Enumerate(table, matches);
    SelectedCount(table, matches, keys);
    assert MatchingKeys(table, matches) == Chosen(table, matches, (set k | k in keys));
    SelectedAreMatching(table, matches, keys);
    all := SelectedKeys(table, matches, keys);
    if orderBy != "" {
      all := SortedKeys(table, matches, orderBy, desc, all, rows);
      var buffer := new Row[|rows|](i requires 0 <= i < |rows| => rows[i]);
      assert buffer[..] == rows;
      ArrangementArranges(rows, orderBy, desc);
      SortRows(buffer, orderBy, desc);
      rows := buffer[..];
    }
  }

  /** The rows are those of the keys from Offset on, at most Limit. */
  ghost predicate IsPage(table: map<string, Row>, all: seq<string>, offset: nat, limit: nat, rows: seq<Row>) {
    && |rows| == (var left := if |all| > offset then |all| - offset else 0;
                  if limit > 0 && left > limit then limit else left)
    && forall i :: 0 <= i < |rows| ==> all[offset + i] in table && rows[i] == table[all[offset + i]]
  }

  lemma PageOfKeys(table: map<string, Row>, all: seq<string>, rows: seq<Row>, offset: nat, limit: nat)
    requires RowsOf(table, all, rows)
    ensures IsPage(table, all, offset, limit, Page(rows, offset, limit))
  {
  }

  method TakePage(rows: seq<Row>, offset: nat, limit: nat) returns (result: seq<Row>)
    ensures result == Page(rows, offset, limit)
  {
    result := rows;
    if offset > 0 && |result| > offset {
      result := result[offset..];
    } else if offset > 0 {
      result := [];
    }
    if limit > 0 && |result| > limit {
      result := result[..limit];
    }
  }

  /** The query: filter, sort when an order is asked for, then page. */
  method List(table: map<string, Row>, matches: Row -> bool, orderBy: string, desc: bool, offset: nat, limit: nat)
    returns (result: seq<Row>, ghost keys: seq<string>, ghost all: seq<string>)
    // The rows of the table that match, each key once and in order, from Offset on, at most Limit.
    ensures Lists(table, matches, orderBy, desc, all) && IsPage(table, all, offset, limit, result)
    ensures Enumerates(keys, table)
    ensures var found := Selected(table, matches, keys);
            result == Page(if orderBy != "" then SortedRows(found, orderBy, desc) else found, offset, limit)
    ensures |result| == PageLength(|MatchingKeys(table, matches)|, offset, limit)
  {
    result, keys, all := Find(table, matches, orderBy, desc);
    PageOfKeys(table, all, result, offset, limit);
    result := TakePage(result, offset, limit);
  }

  method Count(table: map<string, Row>, matches: Row -> bool) returns (count: nat)
    ensures count == |MatchingKeys(table, matches)|
  {
    count := 0;
    var left := table.Keys;
    ghost var seen: set<string> := {};
    while left != {}
      invariant left <= table.Keys && seen == table.Keys - left
      invariant count == |Chosen(table, matches, seen)|
      decreases |left|
    {
      var k :| k in left;
      ChosenMore(table, matches, seen, k);
      if matches(table[k]) {
        count := count + 1;
      }
      left, seen := left - {k}, seen + {k};
    }
    assert MatchingKeys(table, matches) == Chosen(table, matches, seen);
  }
}
