// SELECT ... ORDER BY key, id LIMIT n: what such a query answers, and that it always has an answer,
// and only one.
module Pages {
  import opened Wrappers

  predicate InOrder(key: nat -> int, a: nat, b: nat) {
    key(a) < key(b) || (key(a) == key(b) && a < b)
  }

  ghost predicate IsPage(rows: set<nat>, key: nat -> int, limit: nat, page: seq<nat>) {
    && |page| <= limit
    && (forall i :: 0 <= i < |page| ==> page[i] in rows)
    && (forall i, k :: 0 <= i < k < |page| ==> InOrder(key, page[i], page[k]))
    && (forall r :: r in rows && r !in page ==>
          |page| == limit && forall i :: 0 <= i < |page| ==> InOrder(key, page[i], r))
  }

  lemma {:induction false} LeastExists(rows: set<nat>, key: nat -> int) returns (least: nat)
    requires rows != {}
    ensures least in rows && forall r :: r in rows && r != least ==> InOrder(key, least, r)
    decreases |rows|
  {
    var any :| any in rows;
    least := any;
    if rows - {any} != {} {
      var other := LeastExists(rows - {any}, key);
      if InOrder(key, other, any) {
        least := other;
      }
    }
    assert forall r :: r in rows ==> r == any || r in rows - {any};
  }

  method Page(rows: set<nat>, key: nat -> int, limit: nat) returns (page: seq<nat>)
    ensures IsPage(rows, key, limit, page)
  {
    page := [];
    var rest := rows;
    while rest != {} && |page| < limit
      invariant rest <= rows && |page| <= limit
      invariant forall r :: r in rows ==> (r in page <==> r !in rest)
      invariant forall i :: 0 <= i < |page| ==> page[i] in rows
      invariant forall i, k :: 0 <= i < k < |page| ==> InOrder(key, page[i], page[k])
      invariant forall i, r :: 0 <= i < |page| && r in rest ==> InOrder(key, page[i], r)
      decreases |rest|
    {
      ghost var least := LeastExists(rest, key);
      var next :| next in rest && forall r :: r in rest && r != next ==> InOrder(key, next, r);
      page, rest := page + [next], rest - {next};
    }
  }

  // A page shows the first rows: no two pages of the same rows differ.
  lemma {:induction false} PageIsUnique(rows: set<nat>, key: nat -> int, limit: nat, p: seq<nat>, q: seq<nat>)
    requires IsPage(rows, key, limit, p) && IsPage(rows, key, limit, q)
    ensures p == q
  {
    SamePrefix(rows, key, limit, p, q, |p|);
    SamePrefix(rows, key, limit, q, p, |q|);
  }

  lemma {:induction false} SamePrefix(rows: set<nat>, key: nat -> int, limit: nat, p: seq<nat>, q: seq<nat>, n: nat)
    requires IsPage(rows, key, limit, p) && IsPage(rows, key, limit, q) && n <= |p|
    ensures n <= |q| && forall i :: 0 <= i < n ==> p[i] == q[i]
  {
    if n > 0 {
      SamePrefix(rows, key, limit, p, q, n - 1);
      NextRow(rows, key, limit, p, q, n - 1);
    }
  }

  // Row m of a page comes before every row the first m leave out.
  lemma ComesNext(rows: set<nat>, key: nat -> int, limit: nat, page: seq<nat>, m: nat, r: nat)
    requires IsPage(rows, key, limit, page) && m < |page| && r in rows && r !in page[..m]
    ensures r == page[m] || InOrder(key, page[m], r)
  {
    if r in page {
      var a :| 0 <= a < |page| && page[a] == r;
      assert forall i :: 0 <= i < m ==> page[..m][i] == page[i];
    }
  }

  lemma NotInPrefix(rows: set<nat>, key: nat -> int, limit: nat, page: seq<nat>, m: nat)
    requires IsPage(rows, key, limit, page) && m < |page|
    ensures page[m] !in page[..m]
  {
  }

  lemma NextRow(rows: set<nat>, key: nat -> int, limit: nat, p: seq<nat>, q: seq<nat>, m: nat)
    requires IsPage(rows, key, limit, p) && IsPage(rows, key, limit, q) && m < |p| && m <= |q|
    requires forall i :: 0 <= i < m ==> p[i] == q[i]
    ensures m < |q| && p[m] == q[m]
  {
    NotInPrefix(rows, key, limit, p, m);
    assert p[..m] == q[..m];
    assert q[..|q|] == q;
    if m < |q| {
      NotInPrefix(rows, key, limit, q, m);
      ComesNext(rows, key, limit, p, m, q[m]);
      ComesNext(rows, key, limit, q, m, p[m]);
    }
  }

  // ---- which rows a page shows ----

  ghost function Ahead(rows: set<nat>, key: nat -> int, r: nat): set<nat> {
    set b | b in rows && InOrder(key, b, r)
  }

  function Elements(page: seq<nat>): set<nat> {
    set i | 0 <= i < |page| :: page[i]
  }

  lemma {:induction false} ElementsOf(page: seq<nat>)
    requires forall i, k :: 0 <= i < k < |page| ==> page[i] != page[k]
    ensures |Elements(page)| == |page| && forall r :: r in Elements(page) <==> r in page
  {
    if page != [] {
      var front, last := page[..|page| - 1], page[|page| - 1];
      ElementsOf(front);
      assert Elements(page) == Elements(front) + {last};
    }
  }

  lemma ShownRowIsEarly(rows: set<nat>, key: nat -> int, limit: nat, page: seq<nat>, i: nat)
    requires IsPage(rows, key, limit, page) && i < |page|
    ensures |Ahead(rows, key, page[i])| < limit
  {
    forall b | b in Ahead(rows, key, page[i])
      ensures b in Elements(page[..i])
    {
      assert b in page;
      var k :| 0 <= k < |page| && page[k] == b;
      assert k < i && page[..i][k] == b;
    }
    ElementsOf(page[..i]);
    SubsetSize(Ahead(rows, key, page[i]), Elements(page[..i]));
  }

  lemma LeftOutRowIsLate(rows: set<nat>, key: nat -> int, limit: nat, page: seq<nat>, r: nat)
    requires IsPage(rows, key, limit, page) && r in rows && r !in page
    ensures limit <= |Ahead(rows, key, r)|
  {
    ElementsOf(page);
    SubsetSize(Elements(page), Ahead(rows, key, r));
  }

  // A row is on the page exactly when fewer than `limit` rows come before it.
  lemma OnPageExactly(rows: set<nat>, key: nat -> int, limit: nat, page: seq<nat>, r: nat)
    requires IsPage(rows, key, limit, page) && r in rows
    ensures r in page <==> |Ahead(rows, key, r)| < limit
  {
    if r in page {
      var i :| 0 <= i < |page| && page[i] == r;
      ShownRowIsEarly(rows, key, limit, page, i);
    } else {
      LeftOutRowIsLate(rows, key, limit, page, r);
    }
  }

  // Rows that fill a page keep every later row off it.
  lemma CrowdedOut(rows: set<nat>, key: nat -> int, limit: nat, page: seq<nat>, first: set<nat>, r: nat)
    requires IsPage(rows, key, limit, page) && r in rows
    requires first <= rows && limit <= |first| && forall b :: b in first ==> InOrder(key, b, r)
    ensures r !in page
  {
    SubsetSize(first, Ahead(rows, key, r));
    OnPageExactly(rows, key, limit, page, r);
  }
}
