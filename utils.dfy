/**
 * The helpers of `juju_spell/utils.py`: `strtobool`, `humanize_list` and
 * `merge_list_of_dict_by_key`.
 */
module Utils {
  import opened Wrappers
  import opened Types

  // ----- strtobool -----

  /** `str.lower` on one character, for the ASCII letters. */
  function LowerChar(c: char): char
  {
    if 'A' <= c <= 'Z' then (c as int + 32) as char else c
  }

  /** `str.lower`, for the ASCII letters. */
  function Lower(s: string): (r: string)
    ensures |r| == |s|
    ensures forall i :: 0 <= i < |s| ==> r[i] == LowerChar(s[i])
  {
    seq(|s|, i requires 0 <= i < |s| => LowerChar(s[i]))
  }

  /** Lowering twice is lowering once. */
  lemma LowerIdempotent(s: string)
    ensures Lower(Lower(s)) == Lower(s)
  {
    forall i | 0 <= i < |s|
      ensures Lower(Lower(s))[i] == Lower(s)[i]
    {
      assert !('A' <= LowerChar(s[i]) <= 'Z');
    }
  }

  const TRUE_VALUES: seq<string> := ["y", "yes", "t", "true", "on", "1"]
  const FALSE_VALUES: seq<string> := ["n", "no", "f", "false", "off", "0"]

  /** `repr` of a string without quotes or backslashes in it. */
  function Repr(s: string): string
  {
    "'" + s + "'"
  }

  /** `strtobool` */
  function StrToBool(value: string): (r: Outcome<bool>)
    ensures r == Returned(true) <==> Lower(value) in TRUE_VALUES
    ensures r == Returned(false) <==> Lower(value) in FALSE_VALUES
    ensures r.Raised? <==> Lower(value) !in TRUE_VALUES && Lower(value) !in FALSE_VALUES
    ensures r.Raised? ==> r.error == ValueError("Invalid boolean value of " + Repr(value))
  {
    var parsed := Lower(value);
    if parsed in TRUE_VALUES then Returned(true)
    else if parsed in FALSE_VALUES then Returned(false)
    else Raised(ValueError("Invalid boolean value of " + Repr(value)))
  }

  /** Case does not matter: a string and its lower-case form give the same answer,
      and so do any two strings that lower to the same text. */
  lemma StrToBoolIgnoresCase(a: string, b: string)
    requires Lower(a) == Lower(b)
    ensures StrToBool(a).Returned? <==> StrToBool(b).Returned?
    ensures StrToBool(a).Returned? ==> StrToBool(a) == StrToBool(b)
    ensures StrToBool(Lower(a)).Returned? <==> StrToBool(a).Returned?
    ensures StrToBool(a).Returned? ==> StrToBool(Lower(a)) == StrToBool(a)
  {
    LowerIdempotent(a);
  }

  // ----- humanize_list -----

  /** Python's `<=` on strings: lexicographic by code point. */
  predicate LexLe(a: string, b: string)
  {
    a == [] || (b != [] && (a[0] < b[0] || (a[0] == b[0] && LexLe(a[1..], b[1..]))))
  }

  lemma {:induction false} LexLeTotal(a: string, b: string)
    ensures LexLe(a, b) || LexLe(b, a)
  {
    if a != [] && b != [] && a[0] == b[0] {
      LexLeTotal(a[1..], b[1..]);
    }
  }

  lemma {:induction false} LexLeAntisymmetric(a: string, b: string)
    requires LexLe(a, b) && LexLe(b, a)
    ensures a == b
  {
    if a != [] {
      LexLeAntisymmetric(a[1..], b[1..]);
      assert a == [a[0]] + a[1..] && b == [b[0]] + b[1..];
    }
  }

  lemma {:induction false} LexLeReflexive(a: string)
    ensures LexLe(a, a)
  {
    if a != [] {
      LexLeReflexive(a[1..]);
    }
  }

  lemma {:induction false} LexLeTransitive(a: string, b: string, c: string)
    requires LexLe(a, b) && LexLe(b, c)
    ensures LexLe(a, c)
  {
    if a != [] && a[0] == b[0] && b[0] == c[0] {
      LexLeTransitive(a[1..], b[1..], c[1..]);
    }
  }

  /** An order on strings, given as a function. */
  type Order = (string, string) -> bool

  /** `le` is a total order: total, antisymmetric and transitive. */
  ghost predicate TotalOrder(le: Order)
  {
    (forall a, b :: le(a, b) || le(b, a)) &&
    (forall a, b :: le(a, b) && le(b, a) ==> a == b) &&
    (forall a, b, c :: le(a, b) && le(b, c) ==> le(a, c))
  }

  /** Python's string comparison is a total order. */
  lemma LexLeIsTotalOrder()
    ensures TotalOrder(LexLe)
  {
    forall a, b
      ensures LexLe(a, b) || LexLe(b, a)
    {
      LexLeTotal(a, b);
    }
    forall a, b | LexLe(a, b) && LexLe(b, a)
      ensures a == b
    {
      LexLeAntisymmetric(a, b);
    }
    forall a, b, c | LexLe(a, b) && LexLe(b, c)
      ensures LexLe(a, c)
    {
      LexLeTransitive(a, b, c);
    }
  }

  /** Each string is at most the next one. */
  predicate Sorted(s: seq<string>, le: Order)
  {
    forall i :: 0 < i < |s| ==> le(s[i - 1], s[i])
  }

  /** Insert `x` before the first element it does not exceed. */
  function Insert(x: string, s: seq<string>, le: Order): (r: seq<string>)
    ensures |r| == |s| + 1
    ensures r[0] == x || (s != [] && r[0] == s[0])
  {
    if s == [] then [x]
    else if le(x, s[0]) then [x] + s
    else [s[0]] + Insert(x, s[1..], le)
  }

  lemma MultisetCons(a: string, t: seq<string>)
    ensures multiset([a] + t) == multiset{a} + multiset(t)
  {
  }

  /** Inserting adds exactly `x`. */
  lemma {:induction false} InsertAdds(x: string, s: seq<string>, le: Order)
    ensures multiset(Insert(x, s, le)) == multiset(s) + multiset{x}
  {
    if s == [] {
    } else if le(x, s[0]) {
      MultisetCons(x, s);
    } else {
      var rest := Insert(x, s[1..], le);
      InsertAdds(x, s[1..], le);
      assert Insert(x, s, le) == [s[0]] + rest;
      assert s == [s[0]] + s[1..];
      MultisetCons(s[0], s[1..]);
      MultisetCons(s[0], rest);
    }
  }

  /** Inserting into a sorted list keeps it sorted. */
  lemma {:induction false} InsertSorted(x: string, s: seq<string>, le: Order)
    requires TotalOrder(le) && Sorted(s, le)
    ensures Sorted(Insert(x, s, le), le)
  {
    if s != [] && !le(x, s[0]) {
      var rest := Insert(x, s[1..], le);
      InsertSorted(x, s[1..], le);
      var r := [s[0]] + rest;
      assert le(s[0], rest[0]) by {
        if rest[0] != x {
          assert rest[0] == s[1];
        }
      }
      forall i | 0 < i < |r|
        ensures le(r[i - 1], r[i])
      {
        if i > 1 {
          assert r[i - 1] == rest[i - 2] && r[i] == rest[i - 1];
        }
      }
    }
  }

  /** `sorted`: insertion sort under `le`. */
  function SortStrings(s: seq<string>, le: Order): (r: seq<string>)
    ensures |r| == |s|
  {
    if s == [] then [] else Insert(s[0], SortStrings(s[1..], le), le)
  }

  /** Sorting returns the same strings, in order. */
  lemma {:induction false} SortStringsSorted(s: seq<string>, le: Order)
    requires TotalOrder(le)
    ensures Sorted(SortStrings(s, le), le)
    ensures multiset(SortStrings(s, le)) == multiset(s)
  {
    if s != [] {
      SortStringsSorted(s[1..], le);
      InsertSorted(s[0], SortStrings(s[1..], le), le);
      InsertAdds(s[0], SortStrings(s[1..], le), le);
      assert s == [s[0]] + s[1..];
    }
  }

  /** The head of a sorted list is at most each of its elements. */
  lemma {:induction false} SortedHeadIsLeast(a: seq<string>, x: string, le: Order)
    requires TotalOrder(le) && Sorted(a, le) && x in a
    ensures le(a[0], x)
  {
    if x == a[0] {
    } else {
      assert x in a[1..];
      SortedHeadIsLeast(a[1..], x, le);
      assert le(a[0], a[1]);
    }
  }

  /** Removing equal heads from lists with the same elements leaves tails with the same elements. */
  lemma SameTails(a: seq<string>, b: seq<string>)
    requires a != [] && b != [] && a[0] == b[0] && multiset(a) == multiset(b)
    ensures multiset(a[1..]) == multiset(b[1..])
  {
    assert a == [a[0]] + a[1..] && b == [b[0]] + b[1..];
    assert multiset(a[1..]) == multiset(a) - multiset{a[0]};
    assert multiset(b[1..]) == multiset(b) - multiset{b[0]};
  }

  /** Two sorted lists holding the same strings are the same list. */
  lemma {:induction false} SortedUnique(a: seq<string>, b: seq<string>, le: Order)
    requires TotalOrder(le) && Sorted(a, le) && Sorted(b, le) && multiset(a) == multiset(b)
    ensures a == b
  {
    assert |a| == |multiset(a)| == |multiset(b)| == |b|;
    if a != [] {
      assert a[0] in multiset(b) && b[0] in multiset(a);
      SortedHeadIsLeast(b, a[0], le);
      SortedHeadIsLeast(a, b[0], le);
      SameTails(a, b);
      SortedUnique(a[1..], b[1..], le);
      assert a == [a[0]] + a[1..] && b == [b[0]] + b[1..];
    }
  }

  /** `", ".join` and friends. */
  function Join(xs: seq<string>, sep: string): (r: string)
    ensures xs == [] ==> r == ""
    ensures |xs| == 1 ==> r == xs[0]
  {
    if xs == [] then ""
    else if |xs| == 1 then xs[0]
    else xs[0] + sep + Join(xs[1..], sep)
  }

  /** The phrase `humanize_list` builds from its (formatted, perhaps sorted) items. */
  function Phrase(quoted: seq<string>, conjunction: string): (r: string)
    ensures quoted == [] ==> r == ""
    ensures |quoted| == 1 ==> r == quoted[0]
    // two items: no comma
    ensures |quoted| == 2 ==> r == quoted[0] + " " + conjunction + " " + quoted[1]
    // three or more: a comma before the conjunction as well
    ensures |quoted| >= 3 ==>
              r == Join(quoted[..|quoted| - 1], ", ") + ", " + conjunction + " " + quoted[|quoted| - 1]
  {
    if quoted == [] then ""
    else if |quoted| == 1 then quoted[0]
    else
      var humanized := Join(quoted[..|quoted| - 1], ", ");
      var humanized' := if |quoted| > 2 then humanized + "," else humanized;
      humanized' + " " + conjunction + " " + quoted[|quoted| - 1]
  }

  /** Each item through the format. */
  function Formatted(items: seq<string>, format: string -> string): (q: seq<string>)
    ensures |q| == |items|
    ensures forall i :: 0 <= i < |items| ==> q[i] == format(items[i])
  {
    seq(|items|, i requires 0 <= i < |items| => format(items[i]))
  }

  /** `humanize_list`: format every item, sort the formatted strings if asked,
      and join them into a phrase. */
  function HumanizeList(items: seq<string>, conjunction: string, format: string -> string, sort: bool): (r: string)
    ensures items == [] ==> r == ""
    ensures |items| == 1 ==> r == format(items[0])
    ensures !sort ==> r == Phrase(Formatted(items, format), conjunction)
    ensures sort ==> exists q :: Sorted(q, LexLe) && multiset(q) == multiset(Formatted(items, format)) &&
                                 r == Phrase(q, conjunction)
  {
    if items == [] then
      assert Sorted([], LexLe) && multiset([]) == multiset(Formatted(items, format)) && Phrase([], conjunction) == "";
      ""
    else
      var quoted := Formatted(items, format);
      var quoted' := if sort then SortStrings(quoted, LexLe) else quoted;
      LexLeIsTotalOrder();
      SortStringsSorted(quoted, LexLe);
      assert |quoted| == 1 ==> quoted' == quoted by {
        if |quoted| == 1 {
          assert quoted[1..] == [];
        }
      }
      Phrase(quoted', conjunction)
  }

  /** With sorting, only the multiset of formatted strings matters: reordering
      the items, or formatting them differently into the same strings, gives
      the same phrase. */
  lemma HumanizeSortedDependsOnFormattedOnly(items1: seq<string>, format1: string -> string,
                                             items2: seq<string>, format2: string -> string, conjunction: string)
    requires multiset(Formatted(items1, format1)) == multiset(Formatted(items2, format2))
    ensures HumanizeList(items1, conjunction, format1, true) == HumanizeList(items2, conjunction, format2, true)
  {
    var q1, q2 := Formatted(items1, format1), Formatted(items2, format2);
    if items1 == [] || items2 == [] {
      assert |q1| == |multiset(q1)| == |multiset(q2)| == |q2|;
    } else {
      LexLeIsTotalOrder();
      SortStringsSorted(q1, LexLe);
      SortStringsSorted(q2, LexLe);
      SortedUnique(SortStrings(q1, LexLe), SortStrings(q2, LexLe), LexLe);
    }
  }

  /** Three items: "a, b, conj c". */
  lemma ThreeItemPhrase(a: string, b: string, c: string, conjunction: string)
    ensures Phrase([a, b, c], conjunction) == a + ", " + b + ", " + conjunction + " " + c
  {
    assert [a, b, c][..2] == [a, b];
    assert [a, b][1..] == [b];
  }

  // ----- merge_list_of_dict_by_key -----

  type Dict = map<string, Value>

  /** Only lists and dicts are unhashable among the values modelled. */
  predicate Hashable(v: Value)
  {
    !v.List? && !v.Dict?
  }

  /** `new_dict[elem[key]]` succeeds on `elem`. */
  predicate Keyed(e: Dict, key: string)
  {
    key in e && Hashable(e[key])
  }

  predicate AllKeyed(elems: seq<Dict>, key: string)
  {
    forall i :: 0 <= i < |elems| ==> Keyed(elems[i], key)
  }

  /** What `new_dict[elem[key]]` raises on an element that is not keyed. */
  function LookupError(e: Dict, key: string): Error
  {
    if key !in e then KeyError(key)
    else if e[key].List? then TypeError("unhashable type: 'list'")
    else TypeError("unhashable type: 'dict'")
  }

  /** The elements in the order the two loops visit them. */
  function Flatten(lists: seq<seq<Dict>>): seq<Dict>
  {
    if lists == [] then [] else lists[0] + Flatten(lists[1..])
  }

  lemma FlattenAt(lists: seq<seq<Dict>>, i: nat)
    requires i < |lists|
    ensures Flatten(lists[i..]) == lists[i][0..] + Flatten(lists[i + 1..])
  {
    assert lists[i..][0] == lists[i] && lists[i..][1..] == lists[i + 1..];
    assert lists[i][0..] == lists[i];
  }

  /** The `defaultdict`: its keys in insertion order, and the dict under each. */
  datatype Groups = Groups(order: seq<Value>, merged: map<Value, Dict>)

  /** `new_dict[elem[key]].update(elem)` */
  function Update(g: Groups, e: Dict, key: string): Groups
    requires key in e
  {
    var k := e[key];
    var group := if k in g.merged then g.merged[k] else map[];
    Groups(if k in g.merged then g.order else g.order + [k], g.merged[k := group + e])
  }

  /** The loops over the remaining elements `elems`, from the dictionary `g`. */
  function MergeFold(elems: seq<Dict>, key: string, g: Groups): Outcome<Groups>
    decreases |elems|
  {
    if elems == [] then Returned(g)
    else if !Keyed(elems[0], key) then Raised(LookupError(elems[0], key))
    else MergeFold(elems[1..], key, Update(g, elems[0], key))
  }

  lemma MergeFoldCons(e: Dict, rest: seq<Dict>, key: string, g: Groups)
    ensures MergeFold([e] + rest, key, g) ==
              if Keyed(e, key) then MergeFold(rest, key, Update(g, e, key)) else Raised(LookupError(e, key))
  {
    assert ([e] + rest)[1..] == rest;
  }

  /** `list(new_dict.values())` */
  function Values(g: Groups): (r: seq<Dict>)
    ensures |r| == |g.order|
  {
    seq(|g.order|, i requires 0 <= i < |g.order| =>
      if g.order[i] in g.merged then g.merged[g.order[i]] else map[])
  }

  /** `merge_list_of_dict_by_key` as a function of its inputs. */
  function MergeSpec(key: string, lists: seq<seq<Dict>>): Outcome<seq<Dict>>
  {
    match MergeFold(Flatten(lists), key, Groups([], map[]))
    case Raised(e) => Raised(e)
    case Returned(g) => Returned(Values(g))
  }

  /** `merge_list_of_dict_by_key` */
  method MergeListOfDictByKey(key: string, lists: seq<seq<Dict>>) returns (r: Outcome<seq<Dict>>)
    ensures r == MergeSpec(key, lists)
  {
    ghost var total := MergeFold(Flatten(lists), key, Groups([], map[]));
    var order: seq<Value> := [];
    var merged: map<Value, Dict> := map[];
    var i := 0;
    while i < |lists|
      invariant 0 <= i <= |lists|
      invariant total == MergeFold(Flatten(lists[i..]), key, Groups(order, merged))
    {
      var list := lists[i];
      ghost var tail := Flatten(lists[i + 1..]);
      FlattenAt(lists, i);
      var j := 0;
      while j < |list|
        invariant 0 <= j <= |list|
        invariant total == MergeFold(list[j..] + tail, key, Groups(order, merged))
      {
        var elem := list[j];
        ghost var g := Groups(order, merged);
        ghost var next := list[j + 1..] + tail;
        assert list[j..] + tail == [elem] + next;
        MergeFoldCons(elem, next, key, g);
        if !Keyed(elem, key) {
          // `elem[key]` raises KeyError, or hashing a list or dict raises TypeError
          return Raised(LookupError(elem, key));
        }
        var k := elem[key];
        // the default dict entry for `k`, created on first use, then updated
        var group := if k in merged then merged[k] else map[];
        order := if k in merged then order else order + [k];
        merged := merged[k := group + elem];
        assert Groups(order, merged) == Update(g, elem, key);
        assert total == MergeFold(next, key, Groups(order, merged));
        j := j + 1;
      }
      assert list[j..] + tail == tail;
      i := i + 1;
    }
    assert lists[|lists|..] == [];
    r := Returned(Values(Groups(order, merged)));
  }

  // The meaning of the result, through definitions independent of the loops.

  /** The error of the first element that is not keyed, if any. */
  function FirstLookupError(elems: seq<Dict>, key: string): (r: Option<Error>)
    ensures r.None? <==> AllKeyed(elems, key)
    decreases |elems|
  {
    if elems == [] then None
    else if !Keyed(elems[0], key) then Some(LookupError(elems[0], key))
    else
      var r := FirstLookupError(elems[1..], key);
      assert r.None? ==> AllKeyed(elems, key) by {
        if r.None? {
          assert forall j :: 0 < j < |elems| ==> elems[j] == elems[1..][j - 1];
        }
      }
      r
  }

  /** The reported error is that of the element before which every element is keyed. */
  lemma {:induction false} FirstLookupErrorIsFirst(elems: seq<Dict>, key: string, i: nat)
    requires i < |elems| && !Keyed(elems[i], key) && AllKeyed(elems[..i], key)
    ensures FirstLookupError(elems, key) == Some(LookupError(elems[i], key))
    decreases i
  {
    if i > 0 {
      assert elems[..i][0] == elems[0];
      assert elems[1..][..i - 1] == elems[..i][1..];
      FirstLookupErrorIsFirst(elems[1..], key, i - 1);
    }
  }

  /** The key value of every element. */
  function KeysOf(elems: seq<Dict>, key: string): (r: seq<Value>)
    requires AllKeyed(elems, key)
    ensures |r| == |elems|
    ensures forall i :: 0 <= i < |elems| ==> r[i] == elems[i][key]
  {
    seq(|elems|, i requires 0 <= i < |elems| && AllKeyed(elems, key) => elems[i][key])
  }

  /** The distinct values, each kept at its first appearance. */
  function Dedup(vs: seq<Value>): (r: seq<Value>)
    ensures forall x :: x in r <==> x in vs
    ensures forall i, j :: 0 <= i < j < |r| ==> r[i] != r[j]
    decreases |vs|
  {
    if vs == [] then []
    else
      var d := Dedup(vs[..|vs| - 1]);
      var x := vs[|vs| - 1];
      assert vs == vs[..|vs| - 1] + [x];
      if x in d then d else d + [x]
  }

  /** Dedup keeps the order of first appearance: wherever a later value occurs,
      an earlier one has already occurred before it. */
  lemma {:induction false} DedupFirstAppearance(vs: seq<Value>, i: nat, j: nat, k: nat)
    requires i < j < |Dedup(vs)| && k < |vs| && vs[k] == Dedup(vs)[j]
    ensures exists k' :: 0 <= k' < k && vs[k'] == Dedup(vs)[i]
    decreases |vs|
  {
    var n := |vs|;
    var front := vs[..n - 1];
    var d := Dedup(front);
    var x := vs[n - 1];
    assert d[i] in front;
    var w :| 0 <= w < |front| && front[w] == d[i];
    if k == n - 1 {
      assert vs[w] == d[i] && w < k;
    } else {
      assert front[k] == vs[k];
      if j < |d| {
        DedupFirstAppearance(front, i, j, k);
        var k' :| 0 <= k' < k && front[k'] == d[i];
        assert vs[k'] == d[i];
      }
    }
  }

  /** An element of group `v`. */
  predicate InGroup(e: Dict, key: string, v: Value)
  {
    key in e && e[key] == v
  }

  /** The union, left to right, of the elements of group `v`. */
  function UnionOf(elems: seq<Dict>, key: string, v: Value): (r: Dict)
    ensures elems == [] ==> r == map[]
    decreases |elems|
  {
    if elems == [] then map[]
    else
      var u := UnionOf(elems[..|elems| - 1], key, v);
      var e := elems[|elems| - 1];
      if InGroup(e, key, v) then u + e else u
  }

  /** A merged group holds only fields of elements of the group. */
  lemma {:induction false} UnionOfFields(elems: seq<Dict>, key: string, v: Value, k: string)
    requires k in UnionOf(elems, key, v)
    ensures exists i :: 0 <= i < |elems| && InGroup(elems[i], key, v) && k in elems[i]
    decreases |elems|
  {
    var n := |elems|;
    var front := elems[..n - 1];
    if !(InGroup(elems[n - 1], key, v) && k in elems[n - 1]) {
      UnionOfFields(front, key, v, k);
      var i :| 0 <= i < |front| && InGroup(front[i], key, v) && k in front[i];
      assert elems[i] == front[i];
    }
  }

  /** In a merged group, each field holds the value from the last element of the
      group that has the field: later elements override earlier ones. */
  lemma {:induction false} UnionOfLaterWins(elems: seq<Dict>, key: string, v: Value, i: nat, k: string)
    requires i < |elems| && InGroup(elems[i], key, v) && k in elems[i]
    requires forall j :: i < j < |elems| && InGroup(elems[j], key, v) ==> k !in elems[j]
    ensures k in UnionOf(elems, key, v) && UnionOf(elems, key, v)[k] == elems[i][k]
    decreases |elems|
  {
    var n := |elems|;
    if i < n - 1 {
      var front := elems[..n - 1];
      assert front[i] == elems[i];
      UnionOfLaterWins(front, key, v, i, k);
    }
  }

  /** The documented result: one dict per distinct key value, in order of first
      appearance, each the left-to-right union of its group. */
  function MergedReference(elems: seq<Dict>, key: string): (r: seq<Dict>)
    requires AllKeyed(elems, key)
    ensures |r| == |Dedup(KeysOf(elems, key))|
  {
    var d := Dedup(KeysOf(elems, key));
    seq(|d|, i requires 0 <= i < |d| => UnionOf(elems, key, d[i]))
  }

  /** The dictionary the loops hold once they have visited `p`. */
  function Canon(p: seq<Dict>, key: string): (g: Groups)
    requires AllKeyed(p, key)
    ensures g.order == Dedup(KeysOf(p, key))
  {
    var d := Dedup(KeysOf(p, key));
    Groups(d, map v | v in d :: UnionOf(p, key, v))
  }

  lemma KeysOfSnoc(p: seq<Dict>, e: Dict, key: string)
    requires AllKeyed(p, key) && Keyed(e, key)
    ensures AllKeyed(p + [e], key)
    ensures KeysOf(p + [e], key) == KeysOf(p, key) + [e[key]]
  {
    assert forall i :: 0 <= i < |p| ==> (p + [e])[i] == p[i];
  }

  lemma UnionOfSnoc(p: seq<Dict>, e: Dict, key: string, v: Value)
    ensures UnionOf(p + [e], key, v) == if InGroup(e, key, v) then UnionOf(p, key, v) + e else UnionOf(p, key, v)
  {
    assert (p + [e])[..|p|] == p;
  }

  /** A key value no element carries has an empty group. */
  lemma UnionOfUnseen(p: seq<Dict>, key: string, v: Value)
    requires AllKeyed(p, key) && v !in KeysOf(p, key)
    ensures UnionOf(p, key, v) == map[]
  {
    if UnionOf(p, key, v) != map[] {
      var k :| k in UnionOf(p, key, v);
      UnionOfFields(p, key, v, k);
    }
  }

  lemma UpdateCanonOrder(p: seq<Dict>, e: Dict, key: string)
    requires AllKeyed(p, key) && Keyed(e, key)
    ensures AllKeyed(p + [e], key)
    ensures Update(Canon(p, key), e, key).order == Canon(p + [e], key).order
  {
    var q := p + [e];
    KeysOfSnoc(p, e, key);
    assert KeysOf(q, key)[..|q| - 1] == KeysOf(p, key);
  }

  /** The key values the two dictionaries hold are the same. */
  lemma UpdateCanonKeys(p: seq<Dict>, e: Dict, key: string)
    requires AllKeyed(p, key) && Keyed(e, key)
    ensures AllKeyed(p + [e], key)
    ensures Update(Canon(p, key), e, key).merged.Keys == Canon(p + [e], key).merged.Keys
  {
    UpdateCanonOrder(p, e, key);
  }

  /** The group of `v` is the same in the two dictionaries. */
  lemma UpdateCanonAt(p: seq<Dict>, e: Dict, key: string, v: Value)
    requires AllKeyed(p, key) && Keyed(e, key)
    requires v in Update(Canon(p, key), e, key).merged
    ensures Update(Canon(p, key), e, key).merged[v] == UnionOf(p + [e], key, v)
  {
    UnionOfSnoc(p, e, key, v);
    if v == e[key] && v !in Canon(p, key).merged {
      UnionOfUnseen(p, key, v);
    }
  }

  lemma UpdateCanonMerged(p: seq<Dict>, e: Dict, key: string)
    requires AllKeyed(p, key) && Keyed(e, key)
    ensures AllKeyed(p + [e], key)
    ensures Update(Canon(p, key), e, key).merged == Canon(p + [e], key).merged
  {
    var g' := Update(Canon(p, key), e, key);
    var c := Canon(p + [e], key);
    UpdateCanonKeys(p, e, key);
    forall v | v in c.merged
      ensures g'.merged[v] == c.merged[v]
    {
      UpdateCanonAt(p, e, key, v);
    }
  }

  /** One update turns the dictionary for `p` into the one for `p + [e]`. */
  lemma UpdateCanon(p: seq<Dict>, e: Dict, key: string)
    requires AllKeyed(p, key) && Keyed(e, key)
    ensures AllKeyed(p + [e], key)
    ensures Update(Canon(p, key), e, key) == Canon(p + [e], key)
  {
    UpdateCanonOrder(p, e, key);
    UpdateCanonMerged(p, e, key);
  }

  /** The loops raise the error of the first element that is not keyed, from
      whatever dictionary they start. */
  lemma {:induction false} MergeFoldRaises(elems: seq<Dict>, key: string, g: Groups)
    ensures MergeFold(elems, key, g).Raised? <==> FirstLookupError(elems, key).Some?
    ensures MergeFold(elems, key, g).Raised? ==>
              MergeFold(elems, key, g).error == FirstLookupError(elems, key).value
    decreases |elems|
  {
    if elems != [] && Keyed(elems[0], key) {
      MergeFoldRaises(elems[1..], key, Update(g, elems[0], key));
    }
  }

  /** Running the loops over `elems` from the dictionary for `p` gives the
      dictionary for `p + elems`. */
  lemma {:induction false} MergeFoldCanon(elems: seq<Dict>, key: string, p: seq<Dict>)
    requires AllKeyed(p, key)
    ensures var r := MergeFold(elems, key, Canon(p, key));
              r.Returned? ==> AllKeyed(p + elems, key) && r.value == Canon(p + elems, key)
    decreases |elems|
  {
    if elems == [] {
      assert p + elems == p;
    } else if Keyed(elems[0], key) {
      var q := p + [elems[0]];
      UpdateCanon(p, elems[0], key);
      MergeFoldCanon(elems[1..], key, q);
      assert q + elems[1..] == p + elems;
    }
  }

  /** Listing the values of the dictionary for `elems` gives the reference result. */
  lemma ValuesCanon(elems: seq<Dict>, key: string)
    requires AllKeyed(elems, key)
    ensures Values(Canon(elems, key)) == MergedReference(elems, key)
  {
  }

  /** `merge_list_of_dict_by_key` raises exactly when some element lacks the key
      (or holds an unhashable value under it), with the first such element's
      error; otherwise it returns one dict per distinct key value, in order of
      first appearance, each the left-to-right union of its group. */
  lemma MergeMeaning(key: string, lists: seq<seq<Dict>>)
    ensures var r := MergeSpec(key, lists);
            var elems := Flatten(lists);
              (r.Raised? <==> !AllKeyed(elems, key)) &&
              (r.Raised? ==> r.error == FirstLookupError(elems, key).value) &&
              (r.Returned? ==> AllKeyed(elems, key) && r.value == MergedReference(elems, key))
  {
    var elems := Flatten(lists);
    var g0 := Groups([], map[]);
    assert KeysOf([], key) == [];
    assert Canon([], key) == g0;
    MergeFoldRaises(elems, key, g0);
    MergeFoldCanon(elems, key, []);
    assert [] + elems == elems;
    if AllKeyed(elems, key) {
      ValuesCanon(elems, key);
    }
  }

  /** The example of the function's documentation, as the code computes it:
      the group with index 2 keeps "v" from the first list, since the second
      list's element of that group carries only "u". */
  lemma MergeExample()
    ensures
      var a := [map["index" := Int(1), "v" := Str("a")], map["index" := Int(2), "v" := Str("a")],
                map["index" := Int(3), "v" := Str("a")]];
      var b := [map["index" := Int(1), "v" := Str("b")], map["index" := Int(2), "u" := Str("b")],
                map["index" := Int(4), "v" := Str("b")]];
      UnionOf(a + b, "index", Int(2)) == map["index" := Int(2), "v" := Str("a"), "u" := Str("b")]
  {
    var a1, a2, a3 := map["index" := Int(1), "v" := Str("a")], map["index" := Int(2), "v" := Str("a")],
                      map["index" := Int(3), "v" := Str("a")];
    var b1, b2, b3 := map["index" := Int(1), "v" := Str("b")], map["index" := Int(2), "u" := Str("b")],
                      map["index" := Int(4), "v" := Str("b")];
    var s := [a1, a2, a3, b1, b2, b3];
    assert [a1, a2, a3] + [b1, b2, b3] == s;
    var v := Int(2);
    assert s[..5] == [a1, a2, a3, b1, b2] && s[..5][..4] == [a1, a2, a3, b1];
    assert s[..5][..4][..3] == [a1, a2, a3] && s[..5][..4][..3][..2] == [a1, a2];
    assert [a1, a2][..1] == [a1] && [a1][..0] == [];
    assert !InGroup(a1, "index", v) && InGroup(a2, "index", v) && !InGroup(a3, "index", v);
    assert !InGroup(b1, "index", v) && InGroup(b2, "index", v) && !InGroup(b3, "index", v);
    assert UnionOf([a1], "index", v) == map[];
    assert UnionOf([a1, a2], "index", v) == a2;
    assert UnionOf([a1, a2, a3], "index", v) == a2;
    assert UnionOf([a1, a2, a3, b1], "index", v) == a2;
    assert UnionOf([a1, a2, a3, b1, b2], "index", v) == a2 + b2;
    assert UnionOf(s, "index", v) == a2 + b2;
    assert a2 + b2 == map["index" := Int(2), "v" := Str("a"), "u" := Str("b")];
  }
}
