/** The order in which the broker disposes of lots. */
module LotSelection {
  import opened Wrappers
  import opened MarketCalendar

  datatype LotSelectionMethod = BrokerFifo | SpecificIdentification | Hifo | Lifo | TaxOptimized

  datatype LotSelectionPolicy = LotSelectionPolicy(version: string, selection: LotSelectionMethod)

  datatype UnsupportedLotSelectionPolicy = UnsupportedLotSelectionPolicy(selection: LotSelectionMethod)

  // ---------------------------------------------------------------- the sort key

  predicate StringLe(a: string, b: string) {
    a == [] || (b != [] && (a[0] < b[0] || (a[0] == b[0] && StringLe(a[1..], b[1..]))))
  }

  lemma {:induction false} StringLeTotal(a: string, b: string)
    ensures StringLe(a, b) || StringLe(b, a)
    ensures StringLe(a, b) && StringLe(b, a) ==> a == b
  {
    if a != [] && b != [] {
      StringLeTotal(a[1..], b[1..]);
      assert a == [a[0]] + a[1..] && b == [b[0]] + b[1..];
    }
  }

  lemma {:induction false} StringLeTransitive(a: string, b: string, c: string)
    requires StringLe(a, b) && StringLe(b, c)
    ensures StringLe(a, c)
  {
    if a != [] && a[0] == b[0] == c[0] {
      StringLeTransitive(a[1..], b[1..], c[1..]);
    }
  }

  /** Lots are ordered by (opened_at, lot_id). */
  datatype LotKey = LotKey(openedAt: Instant, lotId: string)

  predicate KeyLe(a: LotKey, b: LotKey) {
    a.openedAt < b.openedAt || (a.openedAt == b.openedAt && StringLe(a.lotId, b.lotId))
  }

  lemma KeyLeTotal(a: LotKey, b: LotKey)
    ensures KeyLe(a, b) || KeyLe(b, a)
    ensures KeyLe(a, b) && KeyLe(b, a) ==> a == b
  {
    StringLeTotal(a.lotId, b.lotId);
  }

  lemma KeyLeTransitive(a: LotKey, b: LotKey, c: LotKey)
    requires KeyLe(a, b) && KeyLe(b, c)
    ensures KeyLe(a, c)
  {
    if a.openedAt == b.openedAt == c.openedAt {
      StringLeTransitive(a.lotId, b.lotId, c.lotId);
    }
  }

  // ---------------------------------------------------------------- the sort

  ghost predicate Ordered<T>(xs: seq<T>, key: T -> LotKey) {
    forall i, j :: 0 <= i < j < |xs| ==> KeyLe(key(xs[i]), key(xs[j]))
  }

  /** A stable insertion: x goes before the first element that is not below it. */
  function Insert<T>(x: T, xs: seq<T>, key: T -> LotKey): seq<T> {
    if xs == [] then [x]
    else if KeyLe(key(x), key(xs[0])) then [x] + xs
    else [xs[0]] + Insert(x, xs[1..], key)
  }

  function Sort<T>(xs: seq<T>, key: T -> LotKey): seq<T> {
    if xs == [] then [] else Insert(xs[0], Sort(xs[1..], key), key)
  }

  lemma {:induction false} InsertKeeps<T>(x: T, xs: seq<T>, key: T -> LotKey)
    requires Ordered(xs, key)
    ensures Ordered(Insert(x, xs, key), key)
    ensures multiset(Insert(x, xs, key)) == multiset(xs) + multiset{x}
  {
    var out := Insert(x, xs, key);
    if xs == [] {
    } else if KeyLe(key(x), key(xs[0])) {
      forall i, j | 0 <= i < j < |out| ensures KeyLe(key(out[i]), key(out[j])) {
        if i == 0 && j > 1 {
          KeyLeTransitive(key(x), key(xs[0]), key(xs[j - 1]));
        }
      }
    } else {
      InsertKeeps(x, xs[1..], key);
      KeyLeTotal(key(x), key(xs[0]));
      assert xs == [xs[0]] + xs[1..];
      var tail := Insert(x, xs[1..], key);
      forall j | 0 <= j < |tail| ensures KeyLe(key(xs[0]), key(tail[j])) {
        assert tail[j] in multiset(tail);
        assert tail[j] == x || tail[j] in xs[1..];
      }
    }
  }

  lemma {:induction false} SortSorts<T>(xs: seq<T>, key: T -> LotKey)
    ensures Ordered(Sort(xs, key), key)
    ensures multiset(Sort(xs, key)) == multiset(xs)
    ensures |Sort(xs, key)| == |xs|
  {
    if xs != [] {
      SortSorts(xs[1..], key);
      InsertKeeps(xs[0], Sort(xs[1..], key), key);
      assert xs == [xs[0]] + xs[1..];
    }
    assert |multiset(Sort(xs, key))| == |multiset(xs)|;
  }

  lemma OrderedHeadIsLeast<T>(xs: seq<T>, x: T, key: T -> LotKey)
    requires Ordered(xs, key) && x in xs
    ensures KeyLe(key(xs[0]), key(x))
  {
    KeyLeTotal(key(x), key(x));
  }

  lemma SameLength<T>(xs: seq<T>, ys: seq<T>)
    requires multiset(xs) == multiset(ys)
    ensures |xs| == |ys| && forall x :: x in xs <==> x in ys
  {
    assert |multiset(xs)| == |multiset(ys)|;
    assert forall x :: x in xs <==> x in multiset(xs);
    assert forall x :: x in ys <==> x in multiset(ys);
  }

  lemma SameHead<T>(xs: seq<T>, ys: seq<T>, key: T -> LotKey)
    requires Ordered(xs, key) && Ordered(ys, key) && xs != [] && ys != []
    requires forall x :: x in xs <==> x in ys
    requires forall a, b :: a in xs && b in xs && key(a) == key(b) ==> a == b
    ensures xs[0] == ys[0]
  {
    assert xs[0] in ys && ys[0] in xs;
    OrderedHeadIsLeast(xs, ys[0], key);
    OrderedHeadIsLeast(ys, xs[0], key);
    KeyLeTotal(key(xs[0]), key(ys[0]));
  }

  lemma SameRest<T>(xs: seq<T>, ys: seq<T>)
    requires xs != [] && ys != [] && xs[0] == ys[0] && multiset(xs) == multiset(ys)
    ensures multiset(xs[1..]) == multiset(ys[1..])
  {
    assert xs == [xs[0]] + xs[1..] && ys == [ys[0]] + ys[1..];
    assert multiset(xs[1..]) == multiset(xs) - multiset{xs[0]};
    assert multiset(ys[1..]) == multiset(ys) - multiset{ys[0]};
  }

  /** Two ordered arrangements of the same elements are the same sequence, as
      long as the key tells the elements apart. */
  lemma {:induction false} OrderedUnique<T>(xs: seq<T>, ys: seq<T>, key: T -> LotKey)
    requires Ordered(xs, key) && Ordered(ys, key) && multiset(xs) == multiset(ys)
    requires forall a, b :: a in xs && b in xs && key(a) == key(b) ==> a == b
    ensures xs == ys
  {
    SameLength(xs, ys);
    if xs != [] {
      SameHead(xs, ys, key);
      SameRest(xs, ys);
      OrderedUnique(xs[1..], ys[1..], key);
      assert xs == [xs[0]] + xs[1..] && ys == [ys[0]] + ys[1..];
    }
  }

  /** The order lots come in does not matter. */
  lemma SortIgnoresInputOrder<T>(xs: seq<T>, ys: seq<T>, key: T -> LotKey)
    requires multiset(xs) == multiset(ys)
    requires forall a, b :: a in xs && b in xs && key(a) == key(b) ==> a == b
    ensures Sort(xs, key) == Sort(ys, key)
  {
    SortSorts(xs, key);
    SortSorts(ys, key);
    forall a | a in Sort(xs, key) ensures a in xs {
      assert a in multiset(Sort(xs, key));
    }
    OrderedUnique(Sort(xs, key), Sort(ys, key), key);
  }

  /** Only the broker's confirmed method is answered; every other one is
      refused, never approximated. */
  function DisposalOrder<T>(policy: LotSelectionPolicy, lots: seq<T>, key: T -> LotKey)
    : Result<seq<T>, UnsupportedLotSelectionPolicy>
  {
    if policy.selection != BrokerFifo then Err(UnsupportedLotSelectionPolicy(policy.selection))
    else Ok(Sort(lots, key))
  }
}
