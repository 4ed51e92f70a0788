/** Access rule evaluation (`auth/rules.go`): the deciding rule is the one of highest
priority, the earliest among equals, that matches the resource and applies to the account. */
module Rules {
  import opened Options
  import opened Ordering

  datatype Resource = Resource(kind: string, name: string, endpoint: string)

  /** `access` is an int of the source: 0 grants, 1 denies, anything else decides nothing. */
  datatype Rule = Rule(scope: string, resource: Resource, access: int, priority: int)

  datatype Account = Account(scopes: seq<string>)

  const GRANTED := 0
  const DENIED := 1

  // ----- case-insensitive matching -----

  /** Equal under case folding; `fold` gives the representative of a character's case variants. */
  predicate EqualFold(fold: char -> char, a: string, b: string) {
    |a| == |b| && forall i :: 0 <= i < |a| ==> fold(a[i]) == fold(b[i])
  }

  /** Two strings match if and only if they are the same after folding; where folding keeps all
      characters apart, only a string itself matches it. */
  lemma EqualFoldIff(fold: char -> char, a: string, b: string)
    ensures EqualFold(fold, a, b) <==>
            seq(|a|, i requires 0 <= i < |a| => fold(a[i])) == seq(|b|, i requires 0 <= i < |b| => fold(b[i]))
    ensures (forall x, y :: fold(x) == fold(y) ==> x == y) ==> (EqualFold(fold, a, b) <==> a == b)
  {
    var fa, fb := seq(|a|, i requires 0 <= i < |a| => fold(a[i])), seq(|b|, i requires 0 <= i < |b| => fold(b[i]));
    if fa == fb {
      assert |fa| == |fb|;
      assert forall i :: 0 <= i < |a| ==> fa[i] == fold(a[i]) && fb[i] == fold(b[i]);
    }
  }

  method Include(fold: char -> char, slice: seq<string>, val: string) returns (found: bool)
    ensures found <==> Included(fold, slice, val)
  {
    for i := 0 to |slice|
      invariant forall j :: 0 <= j < i ==> !EqualFold(fold, slice[j], val)
    {
      if EqualFold(fold, slice[i], val) {
        return true;
      }
    }
    return false;
  }

  ghost predicate Included(fold: char -> char, slice: seq<string>, val: string) {
    exists i :: 0 <= i < |slice| && EqualFold(fold, slice[i], val)
  }

  // ----- endpoints -----

  /** The components of a path; a path without a slash is its only component. */
  function Split(s: string): (comps: seq<string>)
    ensures comps != []
  {
    if s == [] then [[]]
    else
      var rest := Split(s[1..]);
      if s[0] == '/' then [[]] + rest else [[s[0]] + rest[0]] + rest[1..]
  }

  function Join(comps: seq<string>): string {
    if comps == [] then [] else if |comps| == 1 then comps[0] else comps[0] + "/" + Join(comps[1..])
  }

  /** Where the n-th component of the path ends. */
  ghost predicate EndsComponent(s: string, k: nat) {
    k == |s| || (k < |s| && s[k] == '/')
  }

  /** Joining the first components gives the path up to the end of the last of them. */
  lemma {:induction false} JoinPrefix(s: string, n: nat) returns (k: nat)
    requires 1 <= n <= |Split(s)|
    ensures k <= |s| && EndsComponent(s, k) && Join(Split(s)[..n]) == s[..k]
  {
    var comps := Split(s);
    if s == [] {
      k := 0;
    } else if s[0] == '/' {
      if n == 1 {
        k := 0;
        assert comps[..1] == [[]];
      } else {
        var j := JoinPrefix(s[1..], n - 1);
        k := j + 1;
        assert comps[..n][1..] == Split(s[1..])[..n - 1];
        assert s[..k] == "/" + s[1..][..j];
      }
    } else {
      var rest := Split(s[1..]);
      var j := JoinPrefix(s[1..], n);
      k := j + 1;
      assert comps[..n][1..] == rest[..n][1..] && comps[..n][0] == [s[0]] + rest[..n][0];
      assert Join(comps[..n]) == [s[0]] + Join(rest[..n]);
      assert s[..k] == [s[0]] + s[1..][..j];
    }
  }

  /** Every component end is reached by some number of components. */
  lemma {:induction false} PrefixJoin(s: string, k: nat) returns (n: nat)
    requires k <= |s| && EndsComponent(s, k)
    ensures 1 <= n <= |Split(s)| && Join(Split(s)[..n]) == s[..k]
  {
    var comps := Split(s);
    if s == [] {
      n := 1;
    } else if k == 0 {
      n := 1;
      assert comps[..1] == [[]];
    } else {
      var rest := Split(s[1..]);
      var m := PrefixJoin(s[1..], k - 1);
      assert s[..k] == [s[0]] + s[1..][..k - 1];
      if s[0] == '/' {
        n := m + 1;
        assert comps[..n][1..] == rest[..m];
      } else {
        n := m;
        assert comps[..n][1..] == rest[..n][1..] && comps[..n][0] == [s[0]] + rest[..n][0];
        assert Join(comps[..n]) == [s[0]] + Join(rest[..n]);
      }
    }
  }

  lemma {:induction false} SplitCount(s: string)
    ensures |Split(s)| > 1 <==> '/' in s
  {
    if s != [] {
      SplitCount(s[1..]);
      assert s == [s[0]] + s[1..];
    }
  }

  /** The patterns that match an endpoint: the catch-all, the endpoint itself and, for a path,
      a slash and a star after any of its ancestors or after itself. */
  ghost predicate EndpointMatches(fold: char -> char, endpoint: string, pattern: string) {
    || EqualFold(fold, "*", pattern)
    || EqualFold(fold, endpoint, pattern)
    || ('/' in endpoint &&
        exists k: nat ::
          k <= |endpoint| && EndsComponent(endpoint, k) && EqualFold(fold, endpoint[..k] + "/*", pattern))
  }

  method ValidEndpoints(fold: char -> char, endpoint: string) returns (valid: seq<string>)
    ensures forall pattern :: Included(fold, valid, pattern) <==> EndpointMatches(fold, endpoint, pattern)
  {
    valid := ["*", endpoint];
    var comps := Split(endpoint);
    SplitCount(endpoint);
    if |comps| > 1 {
      var i := 1;
      while i < |comps| + 1
        invariant 1 <= i <= |comps| + 1 && |valid| == i + 1
        invariant valid[0] == "*" && valid[1] == endpoint
        invariant forall n :: 1 <= n < i ==> valid[n + 1] == Join(comps[..n]) + "/*"
      {
        valid := valid + [Join(comps[0..i]) + "/*"];
        assert comps[0..i] == comps[..i];
        i := i + 1;
      }
    }
    forall pattern ensures Included(fold, valid, pattern) <==> EndpointMatches(fold, endpoint, pattern) {
      EndpointPatterns(fold, endpoint, valid, pattern);
    }
  }

  lemma EndpointPatterns(fold: char -> char, endpoint: string, valid: seq<string>, pattern: string)
    requires |valid| == if '/' in endpoint then |Split(endpoint)| + 2 else 2
    requires valid[0] == "*" && valid[1] == endpoint
    requires forall n :: 1 <= n < |valid| - 1 ==>
               n <= |Split(endpoint)| && valid[n + 1] == Join(Split(endpoint)[..n]) + "/*"
    ensures Included(fold, valid, pattern) <==> EndpointMatches(fold, endpoint, pattern)
  {
    if Included(fold, valid, pattern) {
      var i :| 0 <= i < |valid| && EqualFold(fold, valid[i], pattern);
      if i >= 2 {
        assert valid[(i - 1) + 1] == Join(Split(endpoint)[..i - 1]) + "/*";
        var k := JoinPrefix(endpoint, i - 1);
      }
    }
    if EndpointMatches(fold, endpoint, pattern) {
      if EqualFold(fold, "*", pattern) {
        assert EqualFold(fold, valid[0], pattern);
      } else if EqualFold(fold, endpoint, pattern) {
        assert EqualFold(fold, valid[1], pattern);
      } else {
        var k: nat :| k <= |endpoint| && EndsComponent(endpoint, k) && EqualFold(fold, endpoint[..k] + "/*", pattern);
        var n := PrefixJoin(endpoint, k);
        assert EqualFold(fold, valid[n + 1], pattern);
      }
    }
  }

  // ----- the decision -----

  ghost predicate Matches(fold: char -> char, r: Rule, res: Resource) {
    && (EqualFold(fold, "*", r.resource.kind) || EqualFold(fold, res.kind, r.resource.kind))
    && (EqualFold(fold, "*", r.resource.name) || EqualFold(fold, res.name, r.resource.name))
    && EndpointMatches(fold, res.endpoint, r.resource.endpoint)
  }

  /** The rule says something about the account: a blank scope is about everyone, "*" about
      any account, another scope about accounts that have it. */
  ghost predicate Applies(fold: char -> char, r: Rule, acc: Option<Account>) {
    && (r.access == 0 || r.access == 1)
    && (|| r.scope == ""
        || (acc.Some? && (r.scope == "*" || Included(fold, acc.value.scopes, r.scope))))
  }

  ghost predicate Eligible(fold: char -> char, rules: seq<Rule>, acc: Option<Account>, res: Resource, i: int) {
    0 <= i < |rules| && Matches(fold, rules[i], res) && Applies(fold, rules[i], acc)
  }

  /** No eligible rule has a higher priority, or the same priority and an earlier position. */
  ghost predicate Decides(fold: char -> char, rules: seq<Rule>, acc: Option<Account>, res: Resource, i: int) {
    && Eligible(fold, rules, acc, res, i)
    && (forall j :: Eligible(fold, rules, acc, res, j) ==>
          rules[j].priority < rules[i].priority || (rules[j].priority == rules[i].priority && i <= j))
  }

  ghost predicate Granted(fold: char -> char, rules: seq<Rule>, acc: Option<Account>, res: Resource) {
    exists i :: Decides(fold, rules, acc, res, i) && rules[i].access == 0
  }

  // ----- stable sorting by priority -----

  predicate Higher(rules: seq<Rule>, i: nat, j: nat) {
    i < |rules| && j < |rules| && rules[i].priority > rules[j].priority
  }

  /** The order a stable sort by priority has to produce. */
  predicate First(rules: seq<Rule>, i: nat, j: nat) {
    if i < |rules| && j < |rules| && rules[i].priority != rules[j].priority then rules[i].priority > rules[j].priority
    else i < j
  }

  function ByPriority(rules: seq<Rule>): (nat, nat) -> bool {
    (i: nat, j: nat) => Higher(rules, i, j)
  }

  function ByPlace(rules: seq<Rule>): (nat, nat) -> bool {
    (i: nat, j: nat) => First(rules, i, j)
  }

  lemma FirstTotal(rules: seq<Rule>, xs: set<nat>)
    requires forall x :: x in xs ==> x < |rules|
    ensures TotalOn(ByPlace(rules), xs)
  {
  }

  lemma {:induction false} InsertStable(rules: seq<Rule>, x: nat, s: seq<nat>)
    requires x < |rules| && forall i :: 0 <= i < |s| ==> s[i] < x
    ensures Insert<nat>(ByPriority(rules), x, s) == Insert<nat>(ByPlace(rules), x, s)
  {
    if s != [] {
      InsertStable(rules, x, s[1..]);
    }
  }

  /** Sorting positions in ascending order by priority alone is stable. */
  lemma {:induction false} SortStable(rules: seq<Rule>, s: seq<nat>)
    requires forall i :: 0 <= i < |s| ==> s[i] < |rules|
    requires forall i, j :: 0 <= i < j < |s| ==> s[i] < s[j]
    ensures Sort<nat>(ByPriority(rules), s) == Sort<nat>(ByPlace(rules), s)
  {
    if s != [] {
      var n := |s| - 1;
      SortStable(rules, s[..n]);
      var t := Sort<nat>(ByPriority(rules), s[..n]);
      SortElements(ByPriority(rules), s[..n]);
      SameElements(t, s[..n]);
      forall i | 0 <= i < |t| ensures t[i] < s[n] {
        assert t[i] in Elements(t);
        assert t[i] in s[..n];
      }
      InsertStable(rules, s[n], t);
    }
  }

  // ----- Verify -----

  method Matching(fold: char -> char, rules: seq<Rule>, res: Resource) returns (at: seq<nat>)
    ensures forall i :: 0 <= i < |at| ==> at[i] < |rules|
    ensures forall i, j :: 0 <= i < j < |at| ==> at[i] < at[j]
    ensures forall k: nat :: k in at <==> k < |rules| && Matches(fold, rules[k], res)
  {
    at := [];
    var validEndpoints := ValidEndpoints(fold, res.endpoint);
    for i := 0 to |rules|
      invariant forall k :: 0 <= k < |at| ==> at[k] < i
      invariant forall k, l :: 0 <= k < l < |at| ==> at[k] < at[l]
      invariant forall k: nat :: k in at <==> k < i && Matches(fold, rules[k], res)
    {
      var kind := Include(fold, ["*", res.kind], rules[i].resource.kind);
      var name := Include(fold, ["*", res.name], rules[i].resource.name);
      var endpoint := Include(fold, validEndpoints, rules[i].resource.endpoint);
      IncludedPair(fold, "*", res.kind, rules[i].resource.kind);
      IncludedPair(fold, "*", res.name, rules[i].resource.name);
      if kind && name && endpoint {
        at := at + [i];
      }
    }
  }

  lemma IncludedPair(fold: char -> char, a: string, b: string, val: string)
    ensures Included(fold, [a, b], val) <==> EqualFold(fold, a, val) || EqualFold(fold, b, val)
  {
    assert [a, b][0] == a && [a, b][1] == b;
  }

  /** What one matching rule says about the account, if anything. */
  method Opinion(fold: char -> char, rule: Rule, acc: Option<Account>) returns (granted: Option<bool>)
    ensures granted.Some? <==> Applies(fold, rule, acc)
    ensures granted.Some? ==> (granted.value <==> rule.access == 0)
  {
    if rule.scope == "" && rule.access == DENIED {
      return Some(false);
    } else if rule.scope == "" && rule.access == GRANTED {
      return Some(true);
    }
    if acc.None? {
      return None;
    }
    if rule.scope == "*" && rule.access == DENIED {
      return Some(false);
    } else if rule.scope == "*" && rule.access == GRANTED {
      return Some(true);
    }
    var has := Include(fold, acc.value.scopes, rule.scope);
    if has && rule.access == DENIED {
      return Some(false);
    } else if has && rule.access == GRANTED {
      return Some(true);
    }
    return None;
  }

  /** Grants exactly when the deciding rule exists and grants. */
  method Verify(fold: char -> char, rules: seq<Rule>, acc: Option<Account>, res: Resource) returns (granted: bool)
    ensures granted <==> Granted(fold, rules, acc, res)
  {
    var at := Matching(fold, rules, res);
    var order := Sort<nat>(ByPriority(rules), at);
    Arranged(rules, at);
    for n := 0 to |order|
      invariant forall m :: 0 <= m < n ==> !Applies(fold, rules[order[m]], acc)
    {
      var opinion := Opinion(fold, rules[order[n]], acc);
      if opinion.Some? {
        FirstDecides(fold, rules, acc, res, at, order, n);
        return opinion.value;
      }
    }
    assert forall i :: 0 <= i < |rules| && Matches(fold, rules[i], res) ==> i in order;
    return false;
  }

  /** The arrangement holds the matching positions, in stable priority order. */
  lemma Arranged(rules: seq<Rule>, at: seq<nat>)
    requires forall i :: 0 <= i < |at| ==> at[i] < |rules|
    requires forall i, j :: 0 <= i < j < |at| ==> at[i] < at[j]
    ensures var order := Sort<nat>(ByPriority(rules), at);
            && (forall k :: k in order <==> k in at)
            && (forall m :: 0 <= m < |order| ==> order[m] < |rules|)
            && (forall m, n :: 0 <= m < n < |order| ==> !First(rules, order[n], order[m]))
  {
    var less: (nat, nat) -> bool := ByPlace(rules);
    var order := Sort<nat>(ByPriority(rules), at);
    SortStable(rules, at);
    assert order == Sort<nat>(less, at);
    FirstTotal(rules, Elements(at));
    SortSorted(less, at);
    SortElements(less, at);
    SameElements(order, at);
    forall k ensures k in order <==> k in at {
      assert k in Elements(order) <==> k in Elements(at);
    }
    forall m, n | 0 <= m < n < |order| ensures !First(rules, order[n], order[m]) {
      assert !less(order[n], order[m]);
    }
    forall m | 0 <= m < |order| ensures order[m] < |rules| {
      assert order[m] in at;
    }
  }

  lemma FirstDecides(fold: char -> char, rules: seq<Rule>, acc: Option<Account>, res: Resource,
                     at: seq<nat>, order: seq<nat>, n: nat)
    requires n < |order| && (forall m :: 0 <= m < |order| ==> order[m] < |rules|)
    requires forall k: nat :: k in at <==> k < |rules| && Matches(fold, rules[k], res)
    requires forall k :: k in order <==> k in at
    requires forall m, l :: 0 <= m < l < |order| ==> !First(rules, order[l], order[m])
    requires forall m :: 0 <= m < n ==> !Applies(fold, rules[order[m]], acc)
    requires Applies(fold, rules[order[n]], acc)
    ensures Granted(fold, rules, acc, res) <==> rules[order[n]].access == GRANTED
  {
    var i := order[n];
    assert i in order;
    forall j | Eligible(fold, rules, acc, res, j)
      ensures rules[j].priority < rules[i].priority || (rules[j].priority == rules[i].priority && i <= j)
    {
      assert j in order;
      var l :| 0 <= l < |order| && order[l] == j;
      assert l > n ==> !First(rules, order[l], order[n]);
    }
    assert Decides(fold, rules, acc, res, i);
    OneDecider(fold, rules, acc, res, i);
  }

  lemma OneDecider(fold: char -> char, rules: seq<Rule>, acc: Option<Account>, res: Resource, i: int)
    requires Decides(fold, rules, acc, res, i)
    ensures forall j :: Decides(fold, rules, acc, res, j) ==> j == i
  {
  }

  /** Adding a rule below the deciding one never changes the answer. */
  lemma LowerRuleIsIrrelevant(fold: char -> char, rules: seq<Rule>, acc: Option<Account>, res: Resource,
                              i: nat, p: nat, r: Rule)
    requires Decides(fold, rules, acc, res, i) && p <= |rules|
    requires r.priority < rules[i].priority || (r.priority == rules[i].priority && p > i)
    ensures Granted(fold, rules[..p] + [r] + rules[p..], acc, res) <==> Granted(fold, rules, acc, res)
  {
    var more := rules[..p] + [r] + rules[p..];
    var k := if i < p then i else i + 1;
    assert more[k] == rules[i];
    forall j | Eligible(fold, more, acc, res, j)
      ensures more[j].priority < more[k].priority || (more[j].priority == more[k].priority && k <= j)
    {
      if j != p {
        var o := if j < p then j else j - 1;
        assert more[j] == rules[o];
        assert Eligible(fold, rules, acc, res, o);
      }
    }
    assert Decides(fold, more, acc, res, k);
    OneDecider(fold, more, acc, res, k);
    OneDecider(fold, rules, acc, res, i);
  }
}
