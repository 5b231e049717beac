/** Ordering of rows by (symbol, exchange, trading_date): the three-way key
    comparison, the stable sort `sort_values(kind="mergesort")` performs, and
    `drop_duplicates(keep="last")` on the same key. */
module RowOrder {
  import opened Wrappers
  import opened Values
  import opened Subsequences

  datatype Key = Key(symbol: Value, exchange: Value, date: Value)

  /** Lexicographic comparison on the three key columns. */
  function KeyCmp(a: Key, b: Key): (r: int)
    ensures -1 <= r <= 1
  {
    var s := ValueCmp(a.symbol, b.symbol);
    if s != 0 then s
    else
      var e := ValueCmp(a.exchange, b.exchange);
      if e != 0 then e else ValueCmp(a.date, b.date)
  }

  lemma KeyCmpProperties(a: Key, b: Key)
    ensures KeyCmp(a, b) == 0 <==> a == b
    ensures KeyCmp(a, b) == -KeyCmp(b, a)
  {
    ValueCmpProperties(a.symbol, b.symbol);
    ValueCmpProperties(a.exchange, b.exchange);
    ValueCmpProperties(a.date, b.date);
  }

  /** A key no greater than another has a symbol no greater, and with equal symbols
      an exchange no greater. */
  lemma KeyCmpLeading(a: Key, b: Key)
    requires KeyCmp(a, b) <= 0
    ensures ValueCmp(a.symbol, b.symbol) <= 0
    ensures a.symbol == b.symbol ==> ValueCmp(a.exchange, b.exchange) <= 0
  {
    ValueCmpProperties(a.symbol, b.symbol);
  }

  lemma KeyCmpTransitive(a: Key, b: Key, c: Key)
    requires KeyCmp(a, b) <= 0 && KeyCmp(b, c) <= 0
    ensures KeyCmp(a, c) <= 0
  {
    ValueCmpProperties(a.symbol, b.symbol);
    ValueCmpProperties(b.symbol, c.symbol);
    ValueCmpProperties(a.symbol, c.symbol);
    ValueCmpTransitive(a.symbol, b.symbol, c.symbol);
    if a.symbol == b.symbol && b.symbol == c.symbol {
      ValueCmpProperties(a.exchange, b.exchange);
      ValueCmpProperties(b.exchange, c.exchange);
      ValueCmpProperties(a.exchange, c.exchange);
      ValueCmpTransitive(a.exchange, b.exchange, c.exchange);
      if a.exchange == b.exchange && b.exchange == c.exchange {
        ValueCmpTransitive(a.date, b.date, c.date);
      }
    }
  }

  predicate SortedBy<T>(s: seq<T>, key: T -> Key) {
    forall i, j :: 0 <= i < j < |s| ==> KeyCmp(key(s[i]), key(s[j])) <= 0
  }

  lemma SplitLast<T>(s: seq<T>)
    requires s != []
    ensures s == s[..|s| - 1] + [s[|s| - 1]]
  {
  }

  /** A suffix of a sorted sequence is sorted. */
  lemma SortedTail<T>(s: seq<T>, key: T -> Key)
    requires s != [] && SortedBy(s, key)
    ensures SortedBy(s[1..], key)
  {
    forall i, j | 0 <= i < j < |s[1..]| ensures KeyCmp(key(s[1..][i]), key(s[1..][j])) <= 0 {
      assert s[1..][i] == s[i + 1] && s[1..][j] == s[j + 1];
    }
  }

  /** A prefix of a sorted sequence is sorted. */
  lemma SortedInit<T>(s: seq<T>, key: T -> Key)
    requires s != [] && SortedBy(s, key)
    ensures SortedBy(s[..|s| - 1], key)
  {
    var init := s[..|s| - 1];
    forall i, j | 0 <= i < j < |init| ensures KeyCmp(key(init[i]), key(init[j])) <= 0 {
      assert init[i] == s[i] && init[j] == s[j];
    }
  }

  /** An element smaller than the head of a sorted sequence goes in front of it. */
  lemma InsertFront<T>(s: seq<T>, x: T, key: T -> Key)
    requires s != [] && SortedBy(s, key) && KeyCmp(key(x), key(s[0])) < 0
    ensures SortedBy([x] + s, key)
  {
    var r := [x] + s;
    forall i, j | 0 <= i < j < |r| ensures KeyCmp(key(r[i]), key(r[j])) <= 0 {
      assert r[j] == s[j - 1];
      if i == 0 {
        if j > 1 {
          KeyCmpTransitive(key(x), key(s[0]), key(s[j - 1]));
        }
      } else {
        assert r[i] == s[i - 1];
      }
    }
  }

  /** The head of a sorted sequence stays in front when `x`, no smaller, is inserted
      into its tail. */
  lemma InsertBehind<T>(s: seq<T>, x: T, rest: seq<T>, key: T -> Key)
    requires s != [] && SortedBy(s, key) && KeyCmp(key(x), key(s[0])) >= 0
    requires SortedBy(rest, key) && multiset(rest) == multiset(s[1..]) + multiset{x}
    ensures SortedBy([s[0]] + rest, key)
    ensures multiset([s[0]] + rest) == multiset(s) + multiset{x}
  {
    assert s == [s[0]] + s[1..];
    KeyCmpProperties(key(x), key(s[0]));
    var r := [s[0]] + rest;
    forall j | 0 <= j < |rest| ensures KeyCmp(key(s[0]), key(rest[j])) <= 0 {
      assert rest[j] in multiset(rest);
      if rest[j] != x {
        assert rest[j] in multiset(s[1..]);
        var k :| 0 <= k < |s[1..]| && s[1..][k] == rest[j];
        assert s[k + 1] == rest[j];
      }
    }
    forall i, j | 0 <= i < j < |r| ensures KeyCmp(key(r[i]), key(r[j])) <= 0 {
      assert r[j] == rest[j - 1];
      if i > 0 {
        assert r[i] == rest[i - 1];
      }
    }
  }

  /** Places `x` into a sorted sequence after every element whose key is not
      greater than its own. */
  function Insert<T>(s: seq<T>, x: T, key: T -> Key): (r: seq<T>)
    requires SortedBy(s, key)
    ensures SortedBy(r, key)
    ensures multiset(r) == multiset(s) + multiset{x}
  {
    if s == [] then [x]
    else if KeyCmp(key(x), key(s[0])) < 0 then
      InsertFront(s, x, key);
      [x] + s
    else
      SortedTail(s, key);
      var rest := Insert(s[1..], x, key);
      InsertBehind(s, x, rest, key);
      [s[0]] + rest
  }

  /** The stable sort: each element is inserted after the equal ones before it. */
  function Sort<T>(s: seq<T>, key: T -> Key): (r: seq<T>)
    ensures SortedBy(r, key)
    ensures multiset(r) == multiset(s)
    ensures |r| == |s|
  {
    if s == [] then []
    else
      SplitLast(s);
      var r := Insert(Sort(s[..|s| - 1], key), s[|s| - 1], key);
      assert |r| == |multiset(r)|;
      r
  }

  /** The last element of `s` whose key is `k`. */
  function LastWithKey<T>(s: seq<T>, k: Key, key: T -> Key): (r: Option<T>)
    ensures r.Some? ==> r.value in s && key(r.value) == k
    ensures r.None? <==> forall j :: 0 <= j < |s| ==> key(s[j]) != k
  {
    if s == [] then None
    else
      var rest := LastWithKey(s[1..], k, key);
      assert forall j :: 1 <= j < |s| ==> s[j] == s[1..][j - 1];
      if rest.Some? then rest else if key(s[0]) == k then Some(s[0]) else None
  }

  lemma {:induction false} InsertLast<T>(s: seq<T>, x: T, k: Key, key: T -> Key)
    requires SortedBy(s, key)
    ensures LastWithKey(Insert(s, x, key), k, key) == if key(x) == k then Some(x) else LastWithKey(s, k, key)
  {
    if s == [] {
    } else if KeyCmp(key(x), key(s[0])) < 0 {
      InsertFrontLast(s, x, k, key);
    } else {
      SortedTail(s, key);
      var rest := Insert(s[1..], x, key);
      assert Insert(s, x, key) == [s[0]] + rest;
      assert ([s[0]] + rest)[1..] == rest;
      InsertLast(s[1..], x, k, key);
    }
  }

  /** An element put in front of a sorted sequence holds a key no element of the
      sequence holds. */
  lemma InsertFrontLast<T>(s: seq<T>, x: T, k: Key, key: T -> Key)
    requires SortedBy(s, key) && s != [] && KeyCmp(key(x), key(s[0])) < 0
    ensures LastWithKey([x] + s, k, key) == if key(x) == k then Some(x) else LastWithKey(s, k, key)
  {
    var r := [x] + s;
    assert r[1..] == s;
    if key(x) == k {
      forall j | 0 <= j < |s| ensures key(s[j]) != k {
        if j > 0 {
          KeyCmpTransitive(key(x), key(s[0]), key(s[j]));
        }
        KeyCmpProperties(key(x), key(s[j]));
        KeyCmpProperties(key(s[0]), key(s[j]));
      }
    }
  }

  /** Stability where it matters for `keep="last"`: for every key, the last element
      holding it is the same before and after sorting. */
  lemma {:induction false} SortKeepsLast<T>(s: seq<T>, k: Key, key: T -> Key)
    ensures LastWithKey(Sort(s, key), k, key) == LastWithKey(s, k, key)
  {
    if s != [] {
      var init, x := s[..|s| - 1], s[|s| - 1];
      SplitLast(s);
      var sorted := Sort(init, key);
      assert Sort(s, key) == Insert(sorted, x, key);
      SortKeepsLast(init, k, key);
      InsertLast(sorted, x, k, key);
      LastAppend(init, x, k, key);
    }
  }

  lemma {:induction false} LastAppend<T>(s: seq<T>, x: T, k: Key, key: T -> Key)
    ensures LastWithKey(s + [x], k, key) == if key(x) == k then Some(x) else LastWithKey(s, k, key)
  {
    if s != [] {
      assert (s + [x])[1..] == s[1..] + [x];
      LastAppend(s[1..], x, k, key);
    } else {
      assert ([x])[1..] == [];
    }
  }

  /** On sorted input the stable sort changes nothing. */
  lemma {:induction false} SortSorted<T>(s: seq<T>, key: T -> Key)
    requires SortedBy(s, key)
    ensures Sort(s, key) == s
  {
    if s != [] {
      var init, x := s[..|s| - 1], s[|s| - 1];
      SplitLast(s);
      SortedInit(s, key);
      forall j | 0 <= j < |init| ensures KeyCmp(key(init[j]), key(x)) <= 0 {
        assert init[j] == s[j];
      }
      SortSorted(init, key);
      InsertAtEnd(init, x, key);
      assert Sort(s, key) == Insert(Sort(init, key), x, key);
    }
  }

  lemma {:induction false} InsertAtEnd<T>(s: seq<T>, x: T, key: T -> Key)
    requires SortedBy(s, key)
    requires forall j :: 0 <= j < |s| ==> KeyCmp(key(s[j]), key(x)) <= 0
    ensures Insert(s, x, key) == s + [x]
  {
    if s != [] {
      KeyCmpProperties(key(s[0]), key(x));
      SortedTail(s, key);
      forall j | 0 <= j < |s[1..]| ensures KeyCmp(key(s[1..][j]), key(x)) <= 0 {
        assert s[1..][j] == s[j + 1];
      }
      InsertAtEnd(s[1..], x, key);
      assert Insert(s, x, key) == [s[0]] + Insert(s[1..], x, key);
      assert [s[0]] + (s[1..] + [x]) == s + [x];
    }
  }

  // ---------------------------------------------------------------------------
  // drop_duplicates(keep="last")
  // ---------------------------------------------------------------------------

  predicate HasKey<T>(s: seq<T>, k: Key, key: T -> Key) {
    exists j :: 0 <= j < |s| && key(s[j]) == k
  }

  /** Keeps an element exactly when no later element has its key. */
  function KeepLast<T>(s: seq<T>, key: T -> Key): (r: seq<T>)
    ensures |r| <= |s|
    ensures forall x :: x in r ==> x in s
    ensures forall i, j :: 0 <= i < j < |r| ==> key(r[i]) != key(r[j])
    ensures forall k :: HasKey(r, k, key) <==> HasKey(s, k, key)
  {
    if s == [] then []
    else
      var rest := KeepLast(s[1..], key);
      assert forall j :: 1 <= j < |s| ==> s[j] == s[1..][j - 1];
      assert forall k :: HasKey(s, k, key) <==> key(s[0]) == k || HasKey(s[1..], k, key) by {
        forall k | HasKey(s, k, key) ensures key(s[0]) == k || HasKey(s[1..], k, key) {
          var j :| 0 <= j < |s| && key(s[j]) == k;
          if j > 0 {
            assert key(s[1..][j - 1]) == k;
          }
        }
      }
      if HasKey(s[1..], key(s[0]), key) then rest
      else
        var r := [s[0]] + rest;
        assert forall j :: 1 <= j < |r| ==> r[j] == rest[j - 1];
        assert forall j :: 0 <= j < |rest| ==> key(rest[j]) != key(s[0]) by {
          forall j | 0 <= j < |rest| ensures key(rest[j]) != key(s[0]) {
            if key(rest[j]) == key(s[0]) {
              assert HasKey(rest, key(s[0]), key);
            }
          }
        }
        forall k | HasKey(r, k, key) ensures HasKey(s, k, key) {
          var j :| 0 <= j < |r| && key(r[j]) == k;
          if j > 0 {
            assert HasKey(rest, k, key);
          }
        }
        forall k | HasKey(s, k, key) ensures HasKey(r, k, key) {
          if key(s[0]) == k {
            assert key(r[0]) == k;
          } else {
            assert HasKey(rest, k, key);
            var j :| 0 <= j < |rest| && key(rest[j]) == k;
            assert key(r[j + 1]) == k;
          }
        }
        r
  }

  /** Which elements `drop_duplicates(keep="last")` keeps: those with no later
      element of the same key. */
  function LastMask<T>(s: seq<T>, key: T -> Key): (m: seq<bool>)
    ensures |m| == |s| && forall j :: 0 <= j < |s| ==> (m[j] <==> !HasKey(s[j + 1..], key(s[j]), key))
  {
    seq(|s|, j requires 0 <= j < |s| => !HasKey(s[j + 1..], key(s[j]), key))
  }

  /** `KeepLast` keeps exactly the elements no later element shares a key with, in
      their original order. */
  lemma {:induction false} KeepLastInOrder<T>(s: seq<T>, key: T -> Key)
    ensures Selects(KeepLast(s, key), s, LastMask(s, key))
  {
    if s == [] {
      SelectsNothing(s, LastMask(s, key));
    } else {
      KeepLastInOrder(s[1..], key);
      assert LastMask(s, key)[1..] == LastMask(s[1..], key) by {
        forall j | 0 <= j < |s| - 1 ensures LastMask(s, key)[1..][j] == LastMask(s[1..], key)[j] {
          assert s[1..][j] == s[j + 1] && s[1..][j + 1..] == s[j + 2..];
        }
      }
      assert s[0 + 1..] == s[1..];
      SelectsStep(KeepLast(s[1..], key), s, LastMask(s, key));
    }
  }

  /** The element kept for each key is the last one holding it. */
  lemma {:induction false} KeepLastSurvivor<T>(s: seq<T>, k: Key, key: T -> Key)
    ensures LastWithKey(KeepLast(s, key), k, key) == LastWithKey(s, k, key)
  {
    if s != [] {
      var rest := KeepLast(s[1..], key);
      KeepLastSurvivor(s[1..], k, key);
      if HasKey(s[1..], key(s[0]), key) {
        if key(s[0]) == k {
          var j :| 0 <= j < |s[1..]| && key(s[1..][j]) == k;
        }
      } else {
        assert ([s[0]] + rest)[1..] == rest;
      }
    }
  }

  /** Keeping a subsequence keeps the order. */
  lemma {:induction false} KeepLastSorted<T>(s: seq<T>, key: T -> Key)
    requires SortedBy(s, key)
    ensures SortedBy(KeepLast(s, key), key)
  {
    if s != [] {
      var rest := KeepLast(s[1..], key);
      assert SortedBy(s[1..], key) by {
        forall i, j | 0 <= i < j < |s[1..]| ensures KeyCmp(key(s[1..][i]), key(s[1..][j])) <= 0 {
          assert s[1..][i] == s[i + 1] && s[1..][j] == s[j + 1];
        }
      }
      KeepLastSorted(s[1..], key);
      if !HasKey(s[1..], key(s[0]), key) {
        var r := [s[0]] + rest;
        forall i, j | 0 <= i < j < |r| ensures KeyCmp(key(r[i]), key(r[j])) <= 0 {
          if i == 0 {
            assert r[j] in s[1..];
            var m :| 0 <= m < |s[1..]| && s[1..][m] == r[j];
            assert s[m + 1] == r[j];
          } else {
            assert r[i] == rest[i - 1] && r[j] == rest[j - 1];
          }
        }
      }
    }
  }

  function KeySet<T>(s: seq<T>, key: T -> Key): set<Key> {
    set j | 0 <= j < |s| :: key(s[j])
  }

  /** A sequence whose keys are pairwise distinct has as many elements as keys. */
  lemma {:induction false} DistinctKeysCount<T>(s: seq<T>, key: T -> Key)
    requires forall i, j :: 0 <= i < j < |s| ==> key(s[i]) != key(s[j])
    ensures |KeySet(s, key)| == |s|
  {
    if s != [] {
      var init := s[..|s| - 1];
      DistinctKeysCount(init, key);
      assert KeySet(s, key) == KeySet(init, key) + {key(s[|s| - 1])};
      assert key(s[|s| - 1]) !in KeySet(init, key);
    }
  }

  /** `drop_duplicates` leaves exactly one row per distinct key. */
  lemma KeepLastCount<T>(s: seq<T>, key: T -> Key)
    ensures |KeepLast(s, key)| == |KeySet(s, key)|
  {
    var r := KeepLast(s, key);
    DistinctKeysCount(r, key);
    assert KeySet(r, key) == KeySet(s, key) by {
      forall k ensures k in KeySet(r, key) <==> k in KeySet(s, key) {
        assert k in KeySet(r, key) <==> HasKey(r, k, key);
        assert k in KeySet(s, key) <==> HasKey(s, k, key);
      }
    }
  }
}
