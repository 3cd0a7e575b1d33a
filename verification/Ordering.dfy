/** Orders on strings and lexicographic keys, stable sorting, and the first least element of a list. */
module Ordering {

  // ---------------------------------------------------------------- strings

  predicate StringLess(a: string, b: string)
    decreases |a|
  {
    b != "" && (a == "" || a[0] < b[0] || (a[0] == b[0] && StringLess(a[1..], b[1..])))
  }

  lemma {:induction false} StringLessTransitive(a: string, b: string, c: string)
    requires StringLess(a, b) && StringLess(b, c)
    ensures StringLess(a, c)
    decreases |a|
  {
    if a != "" && a[0] == b[0] == c[0] {
      StringLessTransitive(a[1..], b[1..], c[1..]);
    }
  }

  lemma {:induction false} StringLessConnected(a: string, b: string)
    requires a != b
    ensures StringLess(a, b) <==> !StringLess(b, a)
    decreases |a|
  {
    if a != "" && b != "" && a[0] == b[0] {
      assert a == [a[0]] + a[1..] && b == [b[0]] + b[1..];
      StringLessConnected(a[1..], b[1..]);
    }
  }

  lemma {:induction false} StringLessIrreflexive(a: string)
    ensures !StringLess(a, a)
    decreases |a|
  {
    if a != "" { StringLessIrreflexive(a[1..]); }
  }

  // ---------------------------------------------------------------- keys

  /** A sort key: three numbers and a name, compared from left to right. */
  datatype Key = Key(first: real, second: real, third: real, name: string)

  predicate Less(a: Key, b: Key) {
    if a.first != b.first then a.first < b.first
    else if a.second != b.second then a.second < b.second
    else if a.third != b.third then a.third < b.third
    else StringLess(a.name, b.name)
  }

  lemma LessTransitive(a: Key, b: Key, c: Key)
    requires Less(a, b) && Less(b, c)
    ensures Less(a, c)
  {
    if a.first == b.first == c.first && a.second == b.second == c.second && a.third == b.third == c.third {
      StringLessTransitive(a.name, b.name, c.name);
    }
  }

  lemma LessAsymmetric(a: Key, b: Key)
    requires Less(a, b)
    ensures !Less(b, a)
  {
    if Less(b, a) {
      LessTransitive(a, b, a);
      StringLessIrreflexive(a.name);
    }
  }

  lemma LessConnected(a: Key, b: Key)
    requires a.name != b.name
    ensures Less(a, b) || Less(b, a)
  {
    StringLessConnected(a.name, b.name);
  }

  // ---------------------------------------------------------------- least element

  /** The first element whose key no later element undercuts. */
  function FirstLeast<T>(items: seq<T>, key: T -> Key): (least: T)
    requires items != []
    ensures least in items
    decreases |items|
  {
    if |items| == 1 then items[0]
    else
      var rest := FirstLeast(items[1..], key);
      if Less(key(rest), key(items[0])) then rest else items[0]
  }

  lemma {:induction false} FirstLeastIsLeast<T>(items: seq<T>, key: T -> Key)
    requires items != []
    ensures forall x | x in items :: !Less(key(x), key(FirstLeast(items, key)))
    decreases |items|
  {
    var least := FirstLeast(items, key);
    if |items| > 1 {
      var rest := FirstLeast(items[1..], key);
      FirstLeastIsLeast(items[1..], key);
      forall x | x in items ensures !Less(key(x), key(least)) {
        if Less(key(x), key(least)) {
          if x == items[0] {
            LessAsymmetric(key(x), key(least));
          } else {
            assert x in items[1..];
            if least == items[0] && !Less(key(rest), key(items[0])) && Less(key(x), key(items[0])) {
              StaysLeast(key(x), key(rest), key(items[0]));
            }
          }
        }
      }
    } else {
      forall x | x in items ensures !Less(key(x), key(least)) {
        StringLessIrreflexive(key(x).name);
      }
    }
  }

  /** If b is not below c, whatever is not below b is not below c either. */
  lemma StaysLeast(a: Key, b: Key, c: Key)
    requires !Less(a, b) && !Less(b, c)
    ensures !Less(a, c)
  {
    if Less(a, c) {
      if b != c {
        if b.name != c.name { LessConnected(b, c); }
        assert Less(c, b);
        LessTransitive(a, c, b);
      }
    }
  }

  /** Two lists of the same items, priced alike, have the same least element. */
  lemma {:induction false} FirstLeastSame<T>(items: seq<T>, key: T -> Key, other: T -> Key)
    requires items != [] && forall x | x in items :: key(x) == other(x)
    ensures FirstLeast(items, key) == FirstLeast(items, other)
    decreases |items|
  {
    if |items| > 1 { FirstLeastSame(items[1..], key, other); }
  }

  // ---------------------------------------------------------------- stable sorting

  function Insert<T>(x: T, s: seq<T>, key: T -> Key): (r: seq<T>)
    ensures multiset(r) == multiset(s) + multiset{x}
    decreases |s|
  {
    if s == [] || Less(key(x), key(s[0])) then [x] + s
    else
      assert s == [s[0]] + s[1..];
      [s[0]] + Insert(x, s[1..], key)
  }

  /** Sorts by key; items with equal keys keep their order. */
  function Sort<T>(s: seq<T>, key: T -> Key): (r: seq<T>)
    ensures multiset(r) == multiset(s)
    decreases |s|
  {
    if s == [] then []
    else
      assert s == s[..|s| - 1] + [s[|s| - 1]];
      Insert(s[|s| - 1], Sort(s[..|s| - 1], key), key)
  }

  ghost predicate Sorted<T>(s: seq<T>, key: T -> Key) {
    forall i, j | 0 <= i < j < |s| :: !Less(key(s[j]), key(s[i]))
  }

  lemma {:induction false} InsertSorted<T>(x: T, s: seq<T>, key: T -> Key)
    requires Sorted(s, key)
    ensures Sorted(Insert(x, s, key), key)
    decreases |s|
  {
    var r := Insert(x, s, key);
    if s == [] {
    } else if Less(key(x), key(s[0])) {
      forall j | 0 <= j < |s| ensures !Less(key(s[j]), key(x)) {
        if Less(key(s[j]), key(x)) {
          LessTransitive(key(s[j]), key(x), key(s[0]));
          StringLessIrreflexive(key(s[0]).name);
        }
      }
    } else {
      var rest := Insert(x, s[1..], key);
      InsertSorted(x, s[1..], key);
      forall j | 0 <= j < |rest| ensures !Less(key(rest[j]), key(s[0])) {
        assert rest[j] in multiset(rest);
        assert rest[j] == x || rest[j] in multiset(s[1..]);
        if rest[j] != x {
          var k :| 0 <= k < |s[1..]| && s[1..][k] == rest[j];
          assert s[k + 1] == rest[j];
        }
      }
    }
  }

  lemma {:induction false} SortSorts<T>(s: seq<T>, key: T -> Key)
    ensures Sorted(Sort(s, key), key)
    decreases |s|
  {
    if s != [] {
      SortSorts(s[..|s| - 1], key);
      InsertSorted(s[|s| - 1], Sort(s[..|s| - 1], key), key);
    }
  }

  // ---------------------------------------------------------------- repetition

  lemma TwiceCounted<T>(s: seq<T>, i: nat, j: nat)
    requires i < j < |s| && s[i] == s[j]
    ensures multiset(s)[s[i]] >= 2
  {
    assert s == s[..i] + [s[i]] + s[i + 1..j] + [s[j]] + s[j + 1..];
  }

  lemma {:induction false} OnceIfDistinct<T>(s: seq<T>)
    requires forall i, j | 0 <= i < j < |s| :: s[i] != s[j]
    ensures forall x :: multiset(s)[x] <= 1
    decreases |s|
  {
    if s != [] {
      assert s == [s[0]] + s[1..];
      OnceIfDistinct(s[1..]);
    }
  }

  /** A rearrangement of a list without repetition has none either. */
  lemma RearrangementIsDistinct<T>(s: seq<T>, t: seq<T>)
    requires multiset(s) == multiset(t) && forall i, j | 0 <= i < j < |s| :: s[i] != s[j]
    ensures forall i, j | 0 <= i < j < |t| :: t[i] != t[j]
  {
    OnceIfDistinct(s);
    forall i, j | 0 <= i < j < |t| ensures t[i] != t[j] {
      if t[i] == t[j] { TwiceCounted(t, i, j); }
    }
  }
}
