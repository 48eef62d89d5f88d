/**
 The key sorting under the NOWPayments signature. `SortDeep` is a canonical form: two documents have the
 same sorted form exactly when they differ only in the order of keys, at any depth, and in members named
 `__proto__`, which assigning to a plain object loses.

 Keys are sequences of UTF-16 code units. The members of an object are listed in the order in which its own
 keys are enumerated: array indices first, ascending, then the others by insertion (section 10.1.11.1 of ECMA-262).
 */
module CanonicalJson {
  import opened Sequences

  datatype Key = Key(units: seq<nat>)

  datatype Scalar = Null | Boolean(b: bool) | Number(n: real) | Text(units: seq<nat>)
  datatype Member = Member(key: Key, value: Json)
  datatype Json = Leaf(scalar: Scalar) | Array(items: seq<Json>) | Object(members: seq<Member>)

  /** `__proto__` */
  function Proto(): Key { Key([95, 95, 112, 114, 111, 116, 111, 95, 95]) }

  lemma ProtoIsSpelled()
    ensures |Proto().units| == |"__proto__"| && forall i :: 0 <= i < |"__proto__"| ==>
      Proto().units[i] == "__proto__"[i] as nat
  {
  }

  // ------------------------------------------------------------ the order of keys

  predicate IsDigit(c: nat) { 48 <= c <= 57 }

  function DigitValue(c: nat): nat { if IsDigit(c) then c - 48 else 0 }

  function NumeralValue(k: seq<nat>): nat
  {
    if k == [] then 0 else 10 * NumeralValue(k[..|k| - 1]) + DigitValue(k[|k| - 1])
  }

  /** A decimal numeral without leading zeros. */
  predicate IsNumeral(k: seq<nat>)
  {
    k != [] && (forall c :: c in k ==> IsDigit(c)) && (k[0] == 48 ==> |k| == 1)
  }

  /** An array index: a numeral up to 2^32 - 2. */
  predicate IsIndex(k: Key) { IsNumeral(k.units) && NumeralValue(k.units) <= 0xFFFF_FFFE }

  function IndexValue(k: Key): nat { NumeralValue(k.units) }

  /** The default order of `sort()`: by code units. */
  predicate UnitsLess(a: seq<nat>, b: seq<nat>)
  {
    b != [] && (a == [] || a[0] < b[0] || (a[0] == b[0] && UnitsLess(a[1..], b[1..])))
  }

  predicate LexLess(a: Key, b: Key) { UnitsLess(a.units, b.units) }

  /** The order in which keys end up in a sorted object. */
  predicate Before(a: Key, b: Key)
  {
    if IsIndex(a) then !IsIndex(b) || IndexValue(a) < IndexValue(b)
    else !IsIndex(b) && LexLess(a, b)
  }

  lemma {:induction false} UnitsTotal(a: seq<nat>, b: seq<nat>)
    ensures UnitsLess(a, b) || UnitsLess(b, a) || a == b
    ensures !(UnitsLess(a, b) && UnitsLess(b, a)) && !UnitsLess(a, a)
    decreases |a|
  {
    if a != [] && b != [] {
      UnitsTotal(a[1..], b[1..]);
      UnitsTotal(a[1..], a[1..]);
      if a[0] == b[0] && a[1..] == b[1..] {
        assert a == [a[0]] + a[1..] == [b[0]] + b[1..] == b;
      }
    } else if a != [] {
      UnitsTotal(a[1..], a[1..]);
    }
  }

  lemma {:induction false} UnitsTransitive(a: seq<nat>, b: seq<nat>, c: seq<nat>)
    requires UnitsLess(a, b) && UnitsLess(b, c)
    ensures UnitsLess(a, c)
    decreases |a|
  {
    if a != [] && a[0] == b[0] == c[0] {
      UnitsTransitive(a[1..], b[1..], c[1..]);
    }
  }

  lemma {:induction false} NumeralIsPositive(k: seq<nat>)
    requires IsNumeral(k)
    ensures NumeralValue(k) == 0 <==> k == [48]
    decreases |k|
  {
    if |k| == 1 {
      assert k[..0] == [];
    } else {
      var prefix := k[..|k| - 1];
      assert prefix[0] == k[0] && prefix != [48];
      NumeralIsPositive(prefix);
    }
  }

  /** Different numerals have different values. */
  lemma {:induction false} NumeralsAreUnique(a: seq<nat>, b: seq<nat>)
    requires IsNumeral(a) && IsNumeral(b) && NumeralValue(a) == NumeralValue(b)
    ensures a == b
    decreases |a|
  {
    NumeralIsPositive(a);
    NumeralIsPositive(b);
    var a', b' := a[..|a| - 1], b[..|b| - 1];
    assert IsDigit(a[|a| - 1]) && IsDigit(b[|b| - 1]);
    assert a == a' + [a[|a| - 1]] && b == b' + [b[|b| - 1]];
    assert NumeralValue(a') == NumeralValue(b');
    if a' == [] || b' == [] {
      if a' != [] {
        assert a'[0] == a[0];
        NumeralIsPositive(a');
      }
      if b' != [] {
        assert b'[0] == b[0];
        NumeralIsPositive(b');
      }
    } else {
      assert a'[0] == a[0] && b'[0] == b[0];
      NumeralsAreUnique(a', b');
    }
  }

  lemma LexTotal(a: Key, b: Key)
    ensures LexLess(a, b) || LexLess(b, a) || a == b
    ensures !(LexLess(a, b) && LexLess(b, a)) && !LexLess(a, a)
  {
    UnitsTotal(a.units, b.units);
    UnitsTotal(a.units, a.units);
  }

  lemma LexTransitive(a: Key, b: Key, c: Key)
    requires LexLess(a, b) && LexLess(b, c)
    ensures LexLess(a, c)
  {
    UnitsTransitive(a.units, b.units, c.units);
  }

  lemma BeforeTotal(a: Key, b: Key)
    ensures Before(a, b) || Before(b, a) || a == b
    ensures !(Before(a, b) && Before(b, a)) && !Before(a, a)
  {
    LexTotal(a, b);
    LexTotal(a, a);
    if IsIndex(a) && IsIndex(b) && IndexValue(a) == IndexValue(b) {
      NumeralsAreUnique(a.units, b.units);
    }
  }

  lemma BeforeTransitive(a: Key, b: Key, c: Key)
    requires Before(a, b) && Before(b, c)
    ensures Before(a, c)
  {
    if !IsIndex(a) && !IsIndex(b) && !IsIndex(c) { LexTransitive(a, b, c); }
  }

  // ------------------------------------------------------------ sortDeep

  /** Places an array index among the index keys, which are enumerated in ascending order. */
  function InsertIndex(ms: seq<Member>, m: Member): seq<Member>
    requires IsIndex(m.key)
  {
    if ms != [] && IsIndex(ms[0].key) && IndexValue(ms[0].key) < IndexValue(m.key)
    then [ms[0]] + InsertIndex(ms[1..], m)
    else [m] + ms
  }

  /** `acc[k] = v` for a key that acc does not have; `__proto__` reaches the prototype setter instead. */
  function Assign(acc: seq<Member>, m: Member): seq<Member>
  {
    if m.key == Proto() then acc
    else if IsIndex(m.key) then InsertIndex(acc, m)
    else acc + [m]
  }

  /** The `reduce` over the sorted keys, starting from an empty object. */
  function Build(ms: seq<Member>): seq<Member>
  {
    if ms == [] then [] else Assign(Build(ms[..|ms| - 1]), ms[|ms| - 1])
  }

  function InsertByKey(ms: seq<Member>, m: Member): seq<Member>
  {
    if ms != [] && LexLess(m.key, ms[|ms| - 1].key)
    then InsertByKey(ms[..|ms| - 1], m) + [ms[|ms| - 1]]
    else ms + [m]
  }

  /** The members in the order of their sorted keys. */
  function SortByKey(ms: seq<Member>): seq<Member>
  {
    if ms == [] then [] else InsertByKey(SortByKey(ms[..|ms| - 1]), ms[|ms| - 1])
  }

  function SortDeep(j: Json): Json
    decreases j, 1
  {
    match j
    case Leaf(_) => j
    case Array(items) => Array(SortItems(items))
    case Object(ms) => Object(Build(SortByKey(SortValues(ms))))
  }

  function SortItems(items: seq<Json>): (r: seq<Json>)
    ensures |r| == |items|
    decreases items, 0
  {
    if items == [] then [] else SortItems(items[..|items| - 1]) + [SortDeep(items[|items| - 1])]
  }

  function SortValues(ms: seq<Member>): (r: seq<Member>)
    ensures |r| == |ms|
    ensures forall i :: 0 <= i < |ms| ==> r[i].key == ms[i].key
    decreases ms, 0
  {
    if ms == [] then [] else
      var m := ms[|ms| - 1];
      assert m.value < m;
      SortValues(ms[..|ms| - 1]) + [Member(m.key, SortDeep(m.value))]
  }

  // ------------------------------------------------------------ meaning

  /** A document without the order of its keys. */
  datatype Tree = Value(scalar: Scalar) | List(items: seq<Tree>) | Table(members: map<Key, Tree>)

  /** The meaning of a document, with or without its `__proto__` members. */
  function Meaning(j: Json, proto: bool): Tree
    decreases j, 1
  {
    match j
    case Leaf(s) => Value(s)
    case Array(items) => List(ItemsMeaning(items, proto))
    case Object(ms) => Table(MembersMeaning(ms, proto))
  }

  function ItemsMeaning(items: seq<Json>, proto: bool): (r: seq<Tree>)
    ensures |r| == |items|
    decreases items, 0
  {
    if items == [] then [] else ItemsMeaning(items[..|items| - 1], proto) + [Meaning(items[|items| - 1], proto)]
  }

  function MemberMeaning(m: Member, proto: bool): map<Key, Tree>
    decreases m, 2
  {
    if m.key == Proto() && !proto then map[] else map[m.key := Meaning(m.value, proto)]
  }

  function MembersMeaning(ms: seq<Member>, proto: bool): map<Key, Tree>
    decreases ms, 0
  {
    if ms == [] then map[] else MembersMeaning(ms[..|ms| - 1], proto) + MemberMeaning(ms[|ms| - 1], proto)
  }

  function KeySet(ms: seq<Member>): set<Key> { set i | 0 <= i < |ms| :: ms[i].key }

  predicate DistinctKeys(ms: seq<Member>) { forall i, j :: 0 <= i < j < |ms| ==> ms[i].key != ms[j].key }

  /** Keys are distinct at every level, as they are in any object. */
  predicate WellFormed(j: Json)
  {
    match j
    case Leaf(_) => true
    case Array(items) => forall i :: 0 <= i < |items| ==> WellFormed(items[i])
    case Object(ms) => DistinctKeys(ms) && forall i :: 0 <= i < |ms| ==> WellFormed(ms[i].value)
  }

  predicate Sorted(ms: seq<Member>) { forall i, j :: 0 <= i < j < |ms| ==> Before(ms[i].key, ms[j].key) }

  /** At every level the keys are in order and none is `__proto__`. */
  predicate Canonical(j: Json)
  {
    match j
    case Leaf(_) => true
    case Array(items) => forall i :: 0 <= i < |items| ==> Canonical(items[i])
    case Object(ms) => Sorted(ms) && forall i :: 0 <= i < |ms| ==> ms[i].key != Proto() && Canonical(ms[i].value)
  }

  // ------------------------------------------------------------ sorting one object

  lemma {:induction false} MeaningOfConcat(xs: seq<Member>, ys: seq<Member>, proto: bool)
    ensures MembersMeaning(xs + ys, proto) == MembersMeaning(xs, proto) + MembersMeaning(ys, proto)
    decreases |ys|
  {
    hide Proto, Meaning;
    if ys == [] {
      assert xs + ys == xs;
    } else {
      hide *;
      var n, all := |ys| - 1, xs + ys;
      assert all[..|all| - 1] == xs + ys[..n] && all[|all| - 1] == ys[n];
      MeaningOfConcat(xs, ys[..n], proto);
      LastMeaning(ys, proto);
      LastMeaning(all, proto);
      UpdateOfSum(MembersMeaning(xs, proto), MembersMeaning(ys[..n], proto), ys[n].key, Meaning(ys[n].value, proto));
    }
  }

  lemma UpdateOfSum(a: map<Key, Tree>, b: map<Key, Tree>, k: Key, v: Tree)
    ensures (a + b)[k := v] == a + b[k := v]
  {
  }

  lemma MeaningOfOne(m: Member, proto: bool)
    ensures MembersMeaning([m], proto) == MemberMeaning(m, proto)
  {
    assert [m][..0] == [];
  }

  lemma LastMeaning(ms: seq<Member>, proto: bool)
    requires ms != []
    ensures var m, prefix := ms[|ms| - 1], MembersMeaning(ms[..|ms| - 1], proto);
            MembersMeaning(ms, proto)
            == if m.key == Proto() && !proto then prefix else prefix[m.key := Meaning(m.value, proto)]
  {
    hide Proto, Meaning;
  }

  lemma {:induction false} KeysOfMeaning(ms: seq<Member>, proto: bool)
    ensures MembersMeaning(ms, proto).Keys == KeySet(ms) - (if proto then {} else {Proto()})
    decreases |ms|
  {
    if ms != [] {
      var n := |ms| - 1;
      KeysOfMeaning(ms[..n], proto);
      assert KeySet(ms) == KeySet(ms[..n]) + {ms[n].key};
    }
  }

  /** What holds of `r` once `m` has been added to `ms`, wherever it went. */
  ghost predicate Added(ms: seq<Member>, m: Member, r: seq<Member>)
  {
    && (forall x :: x in r <==> x in ms || x == m)
    && KeySet(r) == KeySet(ms) + {m.key}
    && (forall proto :: MembersMeaning(r, proto) == MembersMeaning(ms, proto) + MemberMeaning(m, proto))
  }

  lemma AddedInside(xs: seq<Member>, m: Member, ys: seq<Member>)
    requires m.key !in KeySet(ys)
    ensures Added(xs + ys, m, xs + [m] + ys)
  {
    hide MembersMeaning, MemberMeaning, KeySet;
    var r := xs + [m] + ys;
    forall x ensures x in r <==> x in xs + ys || x == m {
    }
    KeysAroundMember(xs, m, ys);
    forall proto ensures MembersMeaning(r, proto) == MembersMeaning(xs + ys, proto) + MemberMeaning(m, proto) {
      MeaningAroundMember(xs, m, ys, proto);
    }
  }

  lemma KeysAroundMember(xs: seq<Member>, m: Member, ys: seq<Member>)
    ensures KeySet(xs + [m] + ys) == KeySet(xs + ys) + {m.key}
  {
    KeysOfConcat(xs, ys);
    KeysOfConcat(xs + [m], ys);
    KeysOfConcat(xs, [m]);
    assert KeySet([m]) == {m.key} by { assert [m][0].key in KeySet([m]); }
  }

  lemma MeaningAroundMember(xs: seq<Member>, m: Member, ys: seq<Member>, proto: bool)
    requires m.key !in KeySet(ys)
    ensures MembersMeaning(xs + [m] + ys, proto) == MembersMeaning(xs + ys, proto) + MemberMeaning(m, proto)
  {
    hide MembersMeaning, KeySet, Meaning;
    MeaningOfConcat(xs, ys, proto);
    MeaningOfConcat(xs + [m], ys, proto);
    MeaningOfConcat(xs, [m], proto);
    MeaningOfOne(m, proto);
    KeysOfMeaning(ys, proto);
  }

  lemma KeysOfConcat(xs: seq<Member>, ys: seq<Member>)
    ensures KeySet(xs + ys) == KeySet(xs) + KeySet(ys)
  {
    forall k | k in KeySet(xs) + KeySet(ys) ensures k in KeySet(xs + ys) {
      if i :| 0 <= i < |xs| && xs[i].key == k {
        assert (xs + ys)[i].key == k;
      } else {
        var j :| 0 <= j < |ys| && ys[j].key == k;
        assert (xs + ys)[|xs| + j].key == k;
      }
    }
  }

  /** Where InsertIndex puts its member: after the smaller indices and before everything else. */
  lemma {:induction false} InsertIndexAt(ms: seq<Member>, m: Member) returns (n: nat)
    requires IsIndex(m.key) && m.key !in KeySet(ms) && Sorted(ms)
    ensures n <= |ms| && InsertIndex(ms, m) == ms[..n] + [m] + ms[n..]
    ensures forall i :: 0 <= i < n ==> Before(ms[i].key, m.key)
    ensures forall i :: n <= i < |ms| ==> Before(m.key, ms[i].key)
    decreases |ms|
  {
    if ms != [] && IsIndex(ms[0].key) && IndexValue(ms[0].key) < IndexValue(m.key) {
      KeysOfConcat([ms[0]], ms[1..]);
      assert ms == [ms[0]] + ms[1..];
      var k := InsertIndexAt(ms[1..], m);
      n := k + 1;
      assert ms[..n] == [ms[0]] + ms[1..][..k];
    } else {
      n := 0;
      if ms != [] {
        assert ms[0].key in KeySet(ms);
        BeforeTotal(m.key, ms[0].key);
        forall i | 0 <= i < |ms| ensures Before(m.key, ms[i].key) {
          if i > 0 { BeforeTransitive(m.key, ms[0].key, ms[i].key); }
        }
      }
    }
  }

  predicate LexSorted(ms: seq<Member>) { forall i, j :: 0 <= i < j < |ms| ==> LexLess(ms[i].key, ms[j].key) }

  lemma SortedAround(ms: seq<Member>, m: Member, n: nat)
    requires Sorted(ms) && n <= |ms|
    requires forall i :: 0 <= i < n ==> Before(ms[i].key, m.key)
    requires forall i :: n <= i < |ms| ==> Before(m.key, ms[i].key)
    ensures Sorted(ms[..n] + [m] + ms[n..])
  {
    hide Proto, Before;
  }

  lemma LexSortedAround(ms: seq<Member>, m: Member, n: nat)
    requires LexSorted(ms) && n <= |ms|
    requires forall i :: 0 <= i < n ==> LexLess(ms[i].key, m.key)
    requires forall i :: n <= i < |ms| ==> LexLess(m.key, ms[i].key)
    ensures LexSorted(ms[..n] + [m] + ms[n..])
  {
    hide Proto, LexLess;
  }

  /** One assignment of the reduce, for a key that sorts after all the keys assigned so far. */
  lemma AssignSorts(acc: seq<Member>, m: Member)
    requires Sorted(acc) && m.key != Proto() && forall x :: x in acc ==> LexLess(x.key, m.key)
    ensures Sorted(Assign(acc, m)) && Added(acc, m, Assign(acc, m))
  {
    forall k | k in KeySet(acc) ensures k != m.key {
      LexTotal(k, m.key);
    }
    if IsIndex(m.key) {
      var at := InsertIndexAt(acc, m);
      hide Proto, Before, Added, IsIndex;
      SortedAround(acc, m, at);
      KeysOfConcat(acc[..at], acc[at..]);
      assert acc == acc[..at] + acc[at..];
      AddedInside(acc[..at], m, acc[at..]);
    } else {
      forall i | 0 <= i < |acc| ensures Before(acc[i].key, m.key) {
        assert acc[i] in acc;
      }
      hide Proto, Before, Added;
      assert acc[..|acc|] == acc && acc[|acc|..] == [] && acc + [m] + [] == acc + [m] && acc + [] == acc;
      SortedAround(acc, m, |acc|);
      AddedInside(acc, m, []);
    }
  }

  /** Building from lexicographically sorted members leaves them in enumeration order, less `__proto__`. */
  lemma {:induction false} BuildSorts(ms: seq<Member>)
    requires LexSorted(ms)
    ensures Sorted(Build(ms))
    ensures KeySet(Build(ms)) == KeySet(ms) - {Proto()}
    ensures forall x :: x in Build(ms) ==> x in ms
    ensures MembersMeaning(Build(ms), false) == MembersMeaning(ms, false)
    decreases |ms|
  {
    if ms == [] {
      assert Build(ms) == [];
    } else {
      var n := |ms| - 1;
      BuildSorts(ms[..n]);
      BuildOneMore(ms, Build(ms[..n]));
    }
  }

  lemma BuildOneMore(ms: seq<Member>, acc: seq<Member>)
    requires ms != [] && LexSorted(ms)
    requires var prefix := ms[..|ms| - 1];
             && Sorted(acc) && KeySet(acc) == KeySet(prefix) - {Proto()} && (forall x :: x in acc ==> x in prefix)
             && MembersMeaning(acc, false) == MembersMeaning(prefix, false)
    ensures var r, m := Assign(acc, ms[|ms| - 1]), ms[|ms| - 1];
            && Sorted(r) && KeySet(r) == KeySet(ms) - {Proto()} && (forall x :: x in r ==> x in ms)
            && MembersMeaning(r, false) == MembersMeaning(ms, false)
  {
    hide Proto, Sorted, LexLess, Before, MembersMeaning, KeySet, Meaning, InsertIndex, IsIndex;
    var prefix, m := ms[..|ms| - 1], ms[|ms| - 1];
    LastKey(ms);
    LastMeaning(ms, false);
    assert forall x :: x in prefix ==> LexLess(x.key, m.key);
    assert ms == prefix + [m];
    if m.key != Proto() {
      hide LexSorted, Assign;
      AssignSorts(acc, m);
    }
  }

  lemma LastKey(ms: seq<Member>)
    requires ms != []
    ensures KeySet(ms) == KeySet(ms[..|ms| - 1]) + {ms[|ms| - 1].key}
  {
    var prefix, last := ms[..|ms| - 1], [ms[|ms| - 1]];
    assert ms == prefix + last;
    KeysOfConcat(prefix, last);
    assert last[0].key in KeySet(last);
  }

  /** Where InsertByKey puts its member. */
  lemma {:induction false} InsertByKeyAt(ms: seq<Member>, m: Member) returns (n: nat)
    requires m.key !in KeySet(ms) && LexSorted(ms)
    ensures n <= |ms| && InsertByKey(ms, m) == ms[..n] + [m] + ms[n..]
    ensures forall i :: 0 <= i < n ==> LexLess(ms[i].key, m.key)
    ensures forall i :: n <= i < |ms| ==> LexLess(m.key, ms[i].key)
    decreases |ms|
  {
    if ms != [] && LexLess(m.key, ms[|ms| - 1].key) {
      var prefix, last := ms[..|ms| - 1], [ms[|ms| - 1]];
      assert ms == prefix + last;
      LastKey(ms);
      n := InsertByKeyAt(prefix, m);
      SliceConcat(prefix, last, n);
    } else {
      n := |ms|;
      forall i | 0 <= i < |ms| ensures LexLess(ms[i].key, m.key) {
        assert ms[|ms| - 1].key in KeySet(ms);
        LexTotal(m.key, ms[|ms| - 1].key);
        if i < |ms| - 1 { LexTransitive(ms[i].key, ms[|ms| - 1].key, m.key); }
      }
    }
  }

  lemma InsertByKeySorts(acc: seq<Member>, m: Member)
    requires LexSorted(acc) && m.key !in KeySet(acc)
    ensures LexSorted(InsertByKey(acc, m)) && Added(acc, m, InsertByKey(acc, m))
  {
    var at := InsertByKeyAt(acc, m);
    hide Proto, LexLess, InsertByKey, Added;
    LexSortedAround(acc, m, at);
    hide LexSorted;
    KeysOfConcat(acc[..at], acc[at..]);
    assert acc == acc[..at] + acc[at..];
    AddedInside(acc[..at], m, acc[at..]);
  }

  lemma {:induction false} SortByKeySorts(ms: seq<Member>)
    requires DistinctKeys(ms)
    ensures LexSorted(SortByKey(ms))
    ensures KeySet(SortByKey(ms)) == KeySet(ms)
    ensures forall x :: x in SortByKey(ms) ==> x in ms
    ensures MembersMeaning(SortByKey(ms), false) == MembersMeaning(ms, false)
    decreases |ms|
  {
    hide Proto, LexLess, InsertByKey, Meaning, MemberMeaning;
    if ms == [] {
      assert SortByKey(ms) == [];
    } else {
      hide MembersMeaning, LexSorted;
      var prefix, m := ms[..|ms| - 1], ms[|ms| - 1];
      SortByKeySorts(prefix);
      LastKey(ms);
      assert ms == prefix + [m];
      assert m.key !in KeySet(prefix);
      LastMeaning(ms, false);
      InsertByKeySorts(SortByKey(prefix), m);
    }
  }

  // ------------------------------------------------------------ the whole document

  /** Sorting preserves every binding and the order of every array, but for `__proto__`, and ends in canonical form. */
  lemma {:induction false} SortDeepIsFaithful(j: Json, proto: bool)
    requires WellFormed(j)
    ensures Canonical(SortDeep(j))
    ensures Meaning(SortDeep(j), proto) == Meaning(j, false)
    decreases j, 1
  {
    match j
    case Leaf(_) =>
    case Array(items) => ItemsAreFaithful(items, proto);
    case Object(ms) =>
      var values := SortValues(ms);
      ValuesAreFaithful(ms);
      SortByKeySorts(values);
      var sorted := SortByKey(values);
      BuildSorts(sorted);
      var built := Build(sorted);
      forall i | 0 <= i < |built| ensures built[i].key != Proto() && Canonical(built[i].value) {
        assert built[i].key in KeySet(built);
        assert built[i] in sorted && built[i] in values;
      }
      NoProtoNoMatter(built, proto);
  }

  lemma {:induction false} ItemsAreFaithful(items: seq<Json>, proto: bool)
    requires forall i :: 0 <= i < |items| ==> WellFormed(items[i])
    ensures forall i :: 0 <= i < |items| ==> Canonical(SortItems(items)[i])
    ensures ItemsMeaning(SortItems(items), proto) == ItemsMeaning(items, false)
    decreases items, 0
  {
    if items != [] {
      var n := |items| - 1;
      ItemsAreFaithful(items[..n], proto);
      SortDeepIsFaithful(items[n], proto);
      assert SortItems(items)[..n] == SortItems(items[..n]);
    }
  }

  lemma {:induction false} ValuesAreFaithful(ms: seq<Member>)
    requires forall i :: 0 <= i < |ms| ==> WellFormed(ms[i].value)
    ensures forall i :: 0 <= i < |ms| ==> Canonical(SortValues(ms)[i].value)
    ensures MembersMeaning(SortValues(ms), false) == MembersMeaning(ms, false)
    decreases ms, 0
  {
    if ms != [] {
      var n := |ms| - 1;
      ValuesAreFaithful(ms[..n]);
      assert ms[n].value < ms[n];
      SortDeepIsFaithful(ms[n].value, false);
      assert SortValues(ms)[..n] == SortValues(ms[..n]);
    }
  }

  lemma {:induction false} NoProtoNoMatter(ms: seq<Member>, proto: bool)
    requires forall i :: 0 <= i < |ms| ==> ms[i].key != Proto() && Canonical(ms[i].value)
    ensures MembersMeaning(ms, proto) == MembersMeaning(ms, false)
    decreases ms, 0
  {
    if ms != [] {
      var n := |ms| - 1;
      NoProtoNoMatter(ms[..n], proto);
      assert ms[n].value < ms[n];
      CanonicalHasNoProto(ms[n].value, proto);
    }
  }

  lemma {:induction false} CanonicalHasNoProto(j: Json, proto: bool)
    requires Canonical(j)
    ensures Meaning(j, proto) == Meaning(j, false)
    decreases j, 1
  {
    match j
    case Leaf(_) =>
    case Array(items) => ItemsHaveNoProto(items, proto);
    case Object(ms) => NoProtoNoMatter(ms, proto);
  }

  lemma {:induction false} ItemsHaveNoProto(items: seq<Json>, proto: bool)
    requires forall i :: 0 <= i < |items| ==> Canonical(items[i])
    ensures ItemsMeaning(items, proto) == ItemsMeaning(items, false)
    decreases items, 0
  {
    if items != [] {
      var n := |items| - 1;
      ItemsHaveNoProto(items[..n], proto);
      CanonicalHasNoProto(items[n], proto);
    }
  }

  /** Canonical documents with one meaning are one document. */
  lemma {:induction false} CanonicalIsUnique(x: Json, y: Json)
    requires Canonical(x) && Canonical(y) && Meaning(x, false) == Meaning(y, false)
    ensures x == y
    decreases x, 1
  {
    match x
    case Leaf(_) =>
    case Array(items) => ItemsAreUnique(items, y.items);
    case Object(ms) => MembersAreUnique(ms, y.members);
  }

  lemma {:induction false} ItemsAreUnique(xs: seq<Json>, ys: seq<Json>)
    requires forall i :: 0 <= i < |xs| ==> Canonical(xs[i])
    requires forall i :: 0 <= i < |ys| ==> Canonical(ys[i])
    requires ItemsMeaning(xs, false) == ItemsMeaning(ys, false)
    ensures xs == ys
    decreases xs, 0
  {
    assert |ItemsMeaning(xs, false)| == |xs| == |ys|;
    if xs != [] {
      var n := |xs| - 1;
      assert ItemsMeaning(xs, false)[..n] == ItemsMeaning(xs[..n], false);
      assert ItemsMeaning(ys, false)[..n] == ItemsMeaning(ys[..n], false);
      assert ItemsMeaning(xs, false)[n] == Meaning(xs[n], false);
      assert ItemsMeaning(ys, false)[n] == Meaning(ys[n], false);
      ItemsAreUnique(xs[..n], ys[..n]);
      CanonicalIsUnique(xs[n], ys[n]);
      assert xs == xs[..n] + [xs[n]] && ys == ys[..n] + [ys[n]];
    }
  }

  /** The last member of sorted members holds their greatest key. */
  lemma LastIsGreatest(ms: seq<Member>, k: Key)
    requires Sorted(ms) && ms != [] && k in KeySet(ms) && k != ms[|ms| - 1].key
    ensures Before(k, ms[|ms| - 1].key)
  {
  }

  lemma {:induction false} MembersAreUnique(xs: seq<Member>, ys: seq<Member>)
    requires Sorted(xs) && forall i :: 0 <= i < |xs| ==> xs[i].key != Proto() && Canonical(xs[i].value)
    requires Sorted(ys) && forall i :: 0 <= i < |ys| ==> ys[i].key != Proto() && Canonical(ys[i].value)
    requires MembersMeaning(xs, false) == MembersMeaning(ys, false)
    ensures xs == ys
    decreases xs, 0
  {
    SameLastKey(xs, ys);
    if xs != [] {
      var x, y := xs[|xs| - 1], ys[|ys| - 1];
      var xs', ys' := xs[..|xs| - 1], ys[..|ys| - 1];
      KeysAreNew(xs);
      KeysAreNew(ys);
      LastMeaning(xs, false);
      LastMeaning(ys, false);
      assert x.key != Proto() && y.key != Proto();
      hide Proto, MembersMeaning, KeySet, Meaning, Before;
      AddedKey(MembersMeaning(xs', false), MembersMeaning(ys', false), x.key, Meaning(x.value, false),
               Meaning(y.value, false));
      assert x.value < x;
      CanonicalIsUnique(x.value, y.value);
      MembersAreUnique(xs', ys');
      assert xs == xs' + [x] && ys == ys' + [y];
    }
  }

  lemma SameLastKey(xs: seq<Member>, ys: seq<Member>)
    requires Sorted(xs) && forall i :: 0 <= i < |xs| ==> xs[i].key != Proto()
    requires Sorted(ys) && forall i :: 0 <= i < |ys| ==> ys[i].key != Proto()
    requires MembersMeaning(xs, false) == MembersMeaning(ys, false)
    ensures xs == [] <==> ys == []
    ensures xs != [] ==> xs[|xs| - 1].key == ys[|ys| - 1].key
  {
    hide Proto, Before, MembersMeaning;
    KeysOfMeaning(xs, false);
    KeysOfMeaning(ys, false);
    assert Proto() !in KeySet(xs) && Proto() !in KeySet(ys);
    assert KeySet(xs) == KeySet(xs) - {Proto()} && KeySet(ys) == KeySet(ys) - {Proto()};
    if xs != [] { assert xs[|xs| - 1].key in KeySet(ys); }
    if ys != [] { assert ys[|ys| - 1].key in KeySet(xs); }
    if xs != [] && ys != [] && xs[|xs| - 1].key != ys[|ys| - 1].key {
      LastIsGreatest(ys, xs[|xs| - 1].key);
      LastIsGreatest(xs, ys[|ys| - 1].key);
      BeforeTotal(xs[|xs| - 1].key, ys[|ys| - 1].key);
    }
  }

  lemma KeysAreNew(ms: seq<Member>)
    requires Sorted(ms) && ms != []
    ensures ms[|ms| - 1].key !in MembersMeaning(ms[..|ms| - 1], false)
  {
    hide Proto, Before;
    KeysOfMeaning(ms[..|ms| - 1], false);
    BeforeTotal(ms[|ms| - 1].key, ms[|ms| - 1].key);
  }

  /** Two documents have the same sorted form exactly when only key order and `__proto__` members tell them apart. */
  lemma SortDeepIsCanonical(a: Json, b: Json)
    requires WellFormed(a) && WellFormed(b)
    ensures SortDeep(a) == SortDeep(b) <==> Meaning(a, false) == Meaning(b, false)
  {
    SortDeepIsFaithful(a, false);
    SortDeepIsFaithful(b, false);
    if Meaning(a, false) == Meaning(b, false) {
      CanonicalIsUnique(SortDeep(a), SortDeep(b));
    }
  }

  lemma {:induction false} CanonicalIsWellFormed(j: Json)
    requires Canonical(j)
    ensures WellFormed(j)
    decreases j
  {
    match j
    case Leaf(_) =>
    case Array(items) =>
      forall i | 0 <= i < |items| ensures WellFormed(items[i]) { CanonicalIsWellFormed(items[i]); }
    case Object(ms) =>
      forall i | 0 <= i < |ms| ensures WellFormed(ms[i].value) { CanonicalIsWellFormed(ms[i].value); }
      forall i, k | 0 <= i < k < |ms| ensures ms[i].key != ms[k].key { BeforeTotal(ms[i].key, ms[i].key); }
  }

  lemma SortDeepIsIdempotent(j: Json)
    requires WellFormed(j)
    ensures SortDeep(SortDeep(j)) == SortDeep(j)
  {
    SortDeepIsFaithful(j, false);
    CanonicalIsWellFormed(SortDeep(j));
    SortDeepIsFaithful(SortDeep(j), false);
    CanonicalIsUnique(SortDeep(SortDeep(j)), SortDeep(j));
  }

  predicate NoProto(j: Json)
  {
    match j
    case Leaf(_) => true
    case Array(items) => forall i :: 0 <= i < |items| ==> NoProto(items[i])
    case Object(ms) => forall i :: 0 <= i < |ms| ==> ms[i].key != Proto() && NoProto(ms[i].value)
  }

  /** Sorting keeps the whole meaning exactly when no member at any depth is named `__proto__`. */
  lemma BindingsSurviveUnlessProto(j: Json)
    requires WellFormed(j)
    ensures Meaning(SortDeep(j), true) == Meaning(j, true) <==> NoProto(j)
  {
    SortDeepIsFaithful(j, true);
    ProtoShows(j);
  }

  lemma {:induction false} ProtoShows(j: Json)
    requires WellFormed(j)
    ensures Meaning(j, false) == Meaning(j, true) <==> NoProto(j)
    decreases j, 1
  {
    match j
    case Leaf(_) =>
    case Array(items) => ProtoShowsInItems(items);
    case Object(ms) => ProtoShowsInMembers(ms);
  }

  lemma {:induction false} ProtoShowsInItems(items: seq<Json>)
    requires forall i :: 0 <= i < |items| ==> WellFormed(items[i])
    ensures ItemsMeaning(items, false) == ItemsMeaning(items, true)
       <==> forall i :: 0 <= i < |items| ==> NoProto(items[i])
    decreases items, 0
  {
    if items != [] {
      var n := |items| - 1;
      ProtoShowsInItems(items[..n]);
      ProtoShows(items[n]);
      assert ItemsMeaning(items, false)[n] == Meaning(items[n], false)
        && ItemsMeaning(items, true)[n] == Meaning(items[n], true);
      assert ItemsMeaning(items, false)[..n] == ItemsMeaning(items[..n], false);
      assert ItemsMeaning(items, true)[..n] == ItemsMeaning(items[..n], true);
    }
  }

  lemma {:induction false} ProtoShowsInMembers(ms: seq<Member>)
    requires DistinctKeys(ms) && forall i :: 0 <= i < |ms| ==> WellFormed(ms[i].value)
    ensures MembersMeaning(ms, false) == MembersMeaning(ms, true)
       <==> forall i :: 0 <= i < |ms| ==> ms[i].key != Proto() && NoProto(ms[i].value)
    decreases ms, 0
  {
    if ms != [] {
      var n := |ms| - 1;
      var m, prefix := ms[n], ms[..n];
      ProtoShowsInMembers(prefix);
      assert m.value < m;
      ProtoShows(m.value);
      assert m.key !in KeySet(prefix);
      LastMemberShows(ms);
      hide WellFormed, NoProto, Meaning, MembersMeaning;
      assert (forall i :: 0 <= i < |ms| ==> ms[i].key != Proto() && NoProto(ms[i].value))
        <==> (m.key != Proto() && NoProto(m.value)
              && forall i :: 0 <= i < n ==> prefix[i].key != Proto() && NoProto(prefix[i].value));
    }
  }

  /** Whether `__proto__` shows is decided member by member. */
  lemma LastMemberShows(ms: seq<Member>)
    requires ms != [] && ms[|ms| - 1].key !in KeySet(ms[..|ms| - 1])
    ensures var m, prefix := ms[|ms| - 1], ms[..|ms| - 1];
            MembersMeaning(ms, false) == MembersMeaning(ms, true) <==>
              (MembersMeaning(prefix, false) == MembersMeaning(prefix, true)
               && m.key != Proto() && Meaning(m.value, false) == Meaning(m.value, true))
  {
    var m, prefix := ms[|ms| - 1], ms[..|ms| - 1];
    KeysOfMeaning(prefix, false);
    KeysOfMeaning(prefix, true);
    LastMeaning(ms, false);
    LastMeaning(ms, true);
    hide Proto, Meaning, MembersMeaning, KeySet;
    if m.key == Proto() {
      assert Proto() in MembersMeaning(ms, true) && Proto() !in MembersMeaning(ms, false);
    } else {
      AddedKey(MembersMeaning(prefix, false), MembersMeaning(prefix, true), m.key, Meaning(m.value, false),
               Meaning(m.value, true));
    }
  }

  lemma AddedKey(f: map<Key, Tree>, t: map<Key, Tree>, k: Key, x: Tree, y: Tree)
    requires k !in f && k !in t
    ensures f[k := x] == t[k := y] <==> f == t && x == y
  {
    if f[k := x] == t[k := y] {
      assert f[k := x][k] == t[k := y][k];
      assert f == f[k := x] - {k} && t == t[k := y] - {k};
    }
  }

  /** The loss is real: a document and the same with a `__proto__` member added are signed alike. */
  lemma ProtoIsLost(value: Json)
    requires WellFormed(value)
    ensures SortDeep(Object([Member(Proto(), value)])) == SortDeep(Object([]))
  {
    var a, b := Object([Member(Proto(), value)]), Object([]);
    assert MembersMeaning([Member(Proto(), value)], false) == map[] by { MeaningOfOne(Member(Proto(), value), false); }
    SortDeepIsCanonical(a, b);
  }

  // ------------------------------------------------------------ the order of the signed text

  /** The code units of a number written in decimal. */
  function Decimal(n: nat): (units: seq<nat>)
    ensures |units| > 0
  {
    if n < 10 then [48 + n] else Decimal(n / 10) + [48 + n % 10]
  }

  /** The first place where two keys differ decides, and a proper prefix comes first. */
  ghost predicate FirstDifference(a: seq<nat>, b: seq<nat>, k: nat)
  {
    && k <= |a| && k < |b| && a[..k] == b[..k]
    && (k == |a| || a[k] < b[k])
  }

  lemma {:induction false} UnitsLessIsLexicographic(a: seq<nat>, b: seq<nat>)
    ensures UnitsLess(a, b) <==> exists k: nat :: FirstDifference(a, b, k)
    decreases |a|
  {
    if b != [] && (a == [] || a[0] < b[0]) {
      assert FirstDifference(a, b, 0);
    }
    if a != [] && b != [] && a[0] == b[0] {
      UnitsLessIsLexicographic(a[1..], b[1..]);
      if k: nat :| FirstDifference(a[1..], b[1..], k) {
        assert a[..k + 1] == [a[0]] + a[1..][..k] && b[..k + 1] == [b[0]] + b[1..][..k];
        assert FirstDifference(a, b, k + 1);
      }
    }
    if k: nat :| FirstDifference(a, b, k) {
      if k > 0 {
        assert a[..k][0] == a[0] && b[..k][0] == b[0];
        assert a[1..][..k - 1] == a[..k][1..] && b[1..][..k - 1] == b[..k][1..];
        assert FirstDifference(a[1..], b[1..], k - 1);
      }
    }
  }

  lemma {:induction false} DecimalIsNumeral(n: nat)
    ensures IsNumeral(Decimal(n)) && NumeralValue(Decimal(n)) == n
    ensures Decimal(n)[0] == 48 ==> n == 0
  {
    var d := Decimal(n);
    if n < 10 {
      assert d[..0] == [];
    } else {
      DecimalIsNumeral(n / 10);
      var p := Decimal(n / 10);
      assert d[..|d| - 1] == p && d[0] == p[0];
      assert forall c :: c in d ==> c in p || c == 48 + n % 10;
    }
  }

  /** The key is this number, up to 2^32 - 2, written in decimal. */
  ghost predicate IndexKey(k: Key, n: nat) { n <= 4294967294 && k.units == Decimal(n) }

  /** A key is an array index exactly when it is such a number. */
  lemma IndexIsDecimal(k: Key)
    ensures IsIndex(k) <==> exists n: nat :: IndexKey(k, n)
    ensures IsIndex(k) ==> IndexKey(k, IndexValue(k))
    ensures forall n: nat :: IndexKey(k, n) ==> IndexValue(k) == n
  {
    if IsIndex(k) {
      DecimalIsNumeral(IndexValue(k));
      NumeralsAreUnique(k.units, Decimal(IndexValue(k)));
      assert IndexKey(k, IndexValue(k));
    }
    forall n: nat | IndexKey(k, n) ensures IsIndex(k) && IndexValue(k) == n {
      DecimalIsNumeral(n);
    }
  }

  /** One key is listed before another: indices by value and before all others, and those by their code units. */
  ghost predicate ListedBefore(a: Key, b: Key)
  {
    || (exists m: nat, n: nat :: IndexKey(a, m) && IndexKey(b, n) && m < n)
    || ((exists m: nat :: IndexKey(a, m)) && !exists n: nat :: IndexKey(b, n))
    || (!(exists m: nat :: IndexKey(a, m)) && !(exists n: nat :: IndexKey(b, n))
          && exists k: nat :: FirstDifference(a.units, b.units, k))
  }

  lemma BeforeIsListed(a: Key, b: Key)
    requires Before(a, b)
    ensures ListedBefore(a, b)
  {
    hide IsIndex, IndexValue, FirstDifference, IndexKey;
    IndexIsDecimal(a);
    IndexIsDecimal(b);
    UnitsLessIsLexicographic(a.units, b.units);
  }

  /** Every object of the signed text lists its keys in that order. */
  ghost predicate InKeyOrder(j: Json)
  {
    match j
    case Leaf(_) => true
    case Array(items) => forall i :: 0 <= i < |items| ==> InKeyOrder(items[i])
    case Object(ms) =>
      && (forall i, k :: 0 <= i < k < |ms| ==> ListedBefore(ms[i].key, ms[k].key))
      && (forall i :: 0 <= i < |ms| ==> InKeyOrder(ms[i].value))
  }

  lemma {:induction false} CanonicalIsInKeyOrder(j: Json)
    requires Canonical(j)
    ensures InKeyOrder(j)
  {
    hide ListedBefore, Before;
    match j
    case Leaf(_) =>
    case Array(items) =>
      forall i | 0 <= i < |items| ensures InKeyOrder(items[i]) { CanonicalIsInKeyOrder(items[i]); }
    case Object(ms) =>
      forall i | 0 <= i < |ms| ensures InKeyOrder(ms[i].value) { CanonicalIsInKeyOrder(ms[i].value); }
      forall i, k | 0 <= i < k < |ms|
        ensures ListedBefore(ms[i].key, ms[k].key) { BeforeIsListed(ms[i].key, ms[k].key); }
  }

  /** The text that is signed lists the keys of every object in ascending order, whatever the document. */
  lemma SortDeepListsKeysInOrder(j: Json)
    requires WellFormed(j)
    ensures InKeyOrder(SortDeep(j))
  {
    SortDeepIsFaithful(j, false);
    CanonicalIsInKeyOrder(SortDeep(j));
  }
}
