/** What a collection query does to the documents it reads: keeps those a
    filter admits, sorts them by a key in descending order
    (`.sort({createdAt: -1})`) and keeps a prefix (`.limit(n)`). */
module Query {
  import opened Common

  function Min(a: nat, b: nat): nat {
    if a <= b then a else b
  }

  /** `.limit(n)`: the first `n` elements, or all of them. */
  function Take<T>(s: seq<T>, n: nat): (r: seq<T>)
    ensures |r| == Min(n, |s|)
    ensures r == s[..|r|]
  {
    if |s| <= n then s else s[..n]
  }

  /** Non-increasing by `key`: newest first when the key is a creation time. */
  predicate SortedDesc<T>(s: seq<T>, key: T -> int) {
    forall i, j :: 0 <= i < j < |s| ==> key(s[i]) >= key(s[j])
  }

  function InsertDesc<T(==,!new)>(x: T, s: seq<T>, key: T -> int): (r: seq<T>)
    requires SortedDesc(s, key)
    ensures SortedDesc(r, key)
    ensures multiset(r) == multiset(s) + multiset{x}
    ensures forall y :: y in r ==> y == x || y in s
  {
    if s == [] then [x]
    else if key(x) >= key(s[0]) then
      HeadIsNewest(s, key);
      ConsSorted(x, s, key);
      [x] + s
    else
      var t := InsertDesc(x, s[1..], key);
      assert s == [s[0]] + s[1..];
      HeadIsNewest(s, key);
      ConsSorted(s[0], t, key);
      [s[0]] + t
  }

  /** Nothing after the head of a sorted sequence is newer than it. */
  lemma HeadIsNewest<T>(s: seq<T>, key: T -> int)
    requires SortedDesc(s, key) && |s| > 0
    ensures SortedDesc(s[1..], key)
    ensures forall y :: y in s ==> key(y) <= key(s[0])
  {
    forall i, j | 0 <= i < j < |s[1..]|
      ensures key(s[1..][i]) >= key(s[1..][j])
    {
      assert s[1..][i] == s[i + 1] && s[1..][j] == s[j + 1];
    }
  }

  /** A head no older than anything in a sorted tail keeps it sorted. */
  lemma ConsSorted<T>(h: T, t: seq<T>, key: T -> int)
    requires SortedDesc(t, key)
    requires forall y :: y in t ==> key(y) <= key(h)
    ensures SortedDesc([h] + t, key)
  {
    forall i, j | 0 <= i < j < |[h] + t|
      ensures key(([h] + t)[i]) >= key(([h] + t)[j])
    {
      assert ([h] + t)[j] == t[j - 1];
      if i > 0 {
        assert ([h] + t)[i] == t[i - 1];
      }
    }
  }

  /** The documents ordered by descending `key`. */
  function SortDesc<T(==,!new)>(s: seq<T>, key: T -> int): (r: seq<T>)
    ensures SortedDesc(r, key)
    ensures multiset(r) == multiset(s)
    ensures |r| == |s|
  {
    if s == [] then []
    else
      assert s == [s[0]] + s[1..];
      InsertDesc(s[0], SortDesc(s[1..], key), key)
  }

  /** `find(..).sort({key: -1}).limit(limit)` over the documents `all`:
      as many as the limit allows, newest first, each one a document of the
      collection, and no document left out is newer than one kept. */
  function NewestPage<T(==,!new)>(all: seq<T>, limit: nat, key: T -> int): (page: seq<T>)
    ensures |page| == Min(limit, |all|)
    ensures SortedDesc(page, key)
    ensures multiset(page) <= multiset(all)
    ensures forall x :: x in page ==> x in all
    ensures forall x, y :: x in multiset(all) - multiset(page) && y in page ==> key(x) <= key(y)
  {
    var sorted := SortDesc(all, key);
    var page := Take(sorted, limit);
    PrefixIsNewest(sorted, |page|, key);
    SortedPrefix(sorted, |page|, key);
    assert sorted == page + sorted[|page|..];
    assert multiset(all) - multiset(page) == multiset(sorted[|page|..]);
    assert forall x :: x in page ==> x in multiset(all);
    page
  }

  lemma SortedPrefix<T>(s: seq<T>, n: nat, key: T -> int)
    requires SortedDesc(s, key) && n <= |s|
    ensures SortedDesc(s[..n], key)
  {
    forall i, j | 0 <= i < j < n
      ensures key(s[..n][i]) >= key(s[..n][j])
    {
      assert s[..n][i] == s[i] && s[..n][j] == s[j];
    }
  }

  /** In a sequence sorted by descending key, nothing after position `n` is
      newer than anything before it. */
  lemma PrefixIsNewest<T>(sorted: seq<T>, n: nat, key: T -> int)
    requires SortedDesc(sorted, key) && n <= |sorted|
    ensures forall x, y :: x in multiset(sorted[n..]) && y in sorted[..n] ==> key(x) <= key(y)
  {
    forall x, y | x in multiset(sorted[n..]) && y in sorted[..n]
      ensures key(x) <= key(y)
    {
      var j :| 0 <= j < |sorted[n..]| && sorted[n..][j] == x;
      var i :| 0 <= i < n && sorted[..n][i] == y;
      assert sorted[i] == y && sorted[n + j] == x;
    }
  }

  /** A document strictly newer than every other one heads any non-empty
      page. */
  lemma NewestLeads<T(!new)>(all: seq<T>, limit: nat, key: T -> int, s: T)
    requires limit > 0 && s in all
    requires forall y :: y in all ==> y == s || key(y) < key(s)
    ensures NewestPage(all, limit, key)[0] == s
  {
    var page := NewestPage(all, limit, key);
    var top := page[0];
    assert top in all;
    assert key(top) <= key(s);
    forall k | 0 <= k < |page|
      ensures key(page[k]) <= key(top)
    {
    }
    assert s in page || s in multiset(all) - multiset(page);
    assert key(s) <= key(top);
  }

  /** The first `n` rows of a newest-first page of size `limit >= n` are the
      `n` newest of all: sorted, as many as there are up to `n`, and newer
      than every document they leave out. */
  lemma NewestPrefix<T(!new)>(all: seq<T>, limit: nat, n: nat, key: T -> int)
    requires n <= limit
    ensures var shown := Take(NewestPage(all, limit, key), n);
      && |shown| == Min(n, |all|)
      && SortedDesc(shown, key)
      && forall x, y :: x in multiset(all) - multiset(shown) && y in shown ==> key(x) <= key(y)
  {
    var page := NewestPage(all, limit, key);
    var m := Min(n, |page|);
    assert Take(page, n) == page[..m];
    SortedPrefix(page, m, key);
    PrefixIsNewest(page, m, key);
    LeftOutSplit(all, page, m);
  }

  /** What a prefix of `page` leaves out of `all` is what `page` leaves out
      or the rest of `page`. */
  lemma LeftOutSplit<T>(all: seq<T>, page: seq<T>, m: nat)
    requires multiset(page) <= multiset(all) && m <= |page|
    ensures forall x :: x in multiset(all) - multiset(page[..m]) ==>
      x in multiset(all) - multiset(page) || x in multiset(page[m..])
  {
    assert page == page[..m] + page[m..];
  }

  /** JavaScript's `filter`: the elements `keep` admits, in order. */
  function Filter<T(==,!new)>(s: seq<T>, keep: T -> bool): (r: seq<T>)
    ensures |r| <= |s|
    ensures forall x :: x in r <==> x in s && keep(x)
  {
    if s == [] then []
    else
      assert s == [s[0]] + s[1..];
      (if keep(s[0]) then [s[0]] else []) + Filter(s[1..], keep)
  }

  /** Filtering distributes over concatenation, so it keeps the relative
      order of what it keeps. */
  lemma {:induction false} FilterAppend<T(!new)>(a: seq<T>, b: seq<T>, keep: T -> bool)
    ensures Filter(a + b, keep) == Filter(a, keep) + Filter(b, keep)
  {
    if a == [] {
      assert a + b == b;
    } else {
      assert (a + b)[0] == a[0];
      assert (a + b)[1..] == a[1..] + b;
      FilterAppend(a[1..], b, keep);
    }
  }

  /** A filter that admits everything is the identity. */
  lemma {:induction false} FilterAll<T(!new)>(s: seq<T>, keep: T -> bool)
    requires forall k :: 0 <= k < |s| ==> keep(s[k])
    ensures Filter(s, keep) == s
  {
    if s != [] {
      FilterAll(s[1..], keep);
      assert s == [s[0]] + s[1..];
    }
  }

  /** The documents of a collection in insertion order: ids are assigned
      0, 1, 2, ... and `Rows(m, n)` lists the ones below `n` still present.
      This is the natural order a query without `.sort` returns. */
  function Rows<T(==,!new)>(m: map<Id, T>, n: nat): (r: seq<T>)
    ensures |r| <= n
    ensures forall x :: x in r ==> x in m.Values
    ensures forall k :: k < n && k in m ==> m[k] in r
  {
    if n == 0 then []
    else Rows(m, n - 1) + (if n - 1 in m then [m[n - 1]] else [])
  }

  /** Adding the document with the next id appends it to the rows. */
  lemma {:induction false} RowsInsert<T(!new)>(m: map<Id, T>, n: nat, v: T)
    requires forall k :: k in m ==> k < n
    ensures Rows(m[n := v], n + 1) == Rows(m, n) + [v]
  {
    RowsFrame(m, m[n := v], n);
  }

  /** Rows below `n` depend only on entries below `n`. */
  lemma {:induction false} RowsFrame<T(!new)>(m: map<Id, T>, m': map<Id, T>, n: nat)
    requires forall k :: k < n ==> (k in m <==> k in m') && (k in m ==> m[k] == m'[k])
    ensures Rows(m, n) == Rows(m', n)
  {
    if n > 0 {
      RowsFrame(m, m', n - 1);
    }
  }
}
