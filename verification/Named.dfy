/**
 Sequences of named entries as the schema lock uses them: first match by name,
 appending what is missing, and the stable sort by name.
 */
module Named {
  import opened Common

  // ----- the order of names -----

  /** `str::cmp` is not greater: lexicographic by code point. */
  predicate Le(a: string, b: string)
    decreases |a|
  {
    a == [] || (b != [] && (a[0] < b[0] || (a[0] == b[0] && Le(a[1..], b[1..]))))
  }

  lemma {:induction false} LeTotal(a: string, b: string)
    ensures Le(a, b) || Le(b, a)
    ensures Le(a, b) && Le(b, a) ==> a == b
    decreases |a|
  {
    if a != [] && b != [] && a[0] == b[0] {
      LeTotal(a[1..], b[1..]);
      assert a == [a[0]] + a[1..] && b == [b[0]] + b[1..];
    }
  }

  lemma {:induction false} LeTransitive(a: string, b: string, c: string)
    requires Le(a, b) && Le(b, c)
    ensures Le(a, c)
    decreases |a|
  {
    if a != [] && a[0] == b[0] && b[0] == c[0] {
      LeTransitive(a[1..], b[1..], c[1..]);
    }
  }

  // ----- lookup -----

  predicate UniqueNames<T>(s: seq<T>, name: T -> string)
  {
    forall i, j :: 0 <= i < j < |s| ==> name(s[i]) != name(s[j])
  }

  /** `iter().find(|x| x.name == n)` */
  function Find<T>(s: seq<T>, name: T -> string, n: string): (r: Option<T>)
    ensures r.Some? ==> r.value in s && name(r.value) == n
    ensures r.None? <==> forall x :: x in s ==> name(x) != n
  {
    if s == [] then None
    else if name(s[0]) == n then Some(s[0])
    else Find(s[1..], name, n)
  }

  /** With unique names, a lookup finds exactly the members. */
  lemma {:induction false} FindMember<T(!new)>(s: seq<T>, name: T -> string, x: T)
    requires UniqueNames(s, name)
    ensures x in s <==> Find(s, name, name(x)) == Some(x)
  {
    if x in s {
      var y := Find(s, name, name(x)).value;
      var i :| 0 <= i < |s| && s[i] == x;
      var j :| 0 <= j < |s| && s[j] == y;
      assert i == j;
    }
  }

  // ----- appending what is missing -----

  /** The loop that pushes every entry of `rest` whose name is not in the history yet. */
  function Merge<T(==)>(acc: seq<T>, rest: seq<T>, name: T -> string): seq<T>
    decreases |rest|
  {
    if rest == [] then acc
    else if Find(acc, name, name(rest[0])).Some? then Merge(acc, rest[1..], name)
    else Merge(acc + [rest[0]], rest[1..], name)
  }

  lemma {:induction false} FindAppend<T(!new)>(s: seq<T>, x: T, name: T -> string, n: string)
    ensures Find(s + [x], name, n) == if Find(s, name, n).Some? then Find(s, name, n)
                                      else if name(x) == n then Some(x) else None
  {
    if s == [] {
      assert s + [x] == [x];
    } else {
      FindAppend(s[1..], x, name, n);
      assert (s + [x])[1..] == s[1..] + [x];
    }
  }

  /** Earlier declarations win, later ones fill the gaps, and names stay unique. */
  lemma {:induction false} MergeFinds<T(!new)>(acc: seq<T>, rest: seq<T>, name: T -> string, n: string)
    ensures Find(Merge(acc, rest, name), name, n)
            == if Find(acc, name, n).Some? then Find(acc, name, n) else Find(rest, name, n)
    decreases |rest|
  {
    if rest != [] {
      if Find(acc, name, name(rest[0])).Some? {
        MergeFinds(acc, rest[1..], name, n);
      } else {
        MergeFinds(acc + [rest[0]], rest[1..], name, n);
        FindAppend(acc, rest[0], name, n);
      }
    }
  }

  lemma {:induction false} MergeUnique<T(!new)>(acc: seq<T>, rest: seq<T>, name: T -> string)
    requires UniqueNames(acc, name)
    ensures UniqueNames(Merge(acc, rest, name), name)
    decreases |rest|
  {
    if rest != [] {
      if Find(acc, name, name(rest[0])).Some? {
        MergeUnique(acc, rest[1..], name);
      } else {
        MergeUnique(acc + [rest[0]], rest[1..], name);
      }
    }
  }

  // ----- sorting -----

  predicate Sorted<T>(s: seq<T>, name: T -> string)
  {
    forall i, j :: 0 <= i < j < |s| ==> Le(name(s[i]), name(s[j]))
  }

  function Insert<T>(x: T, s: seq<T>, name: T -> string): seq<T>
  {
    if s == [] || Le(name(x), name(s[0])) then [x] + s else [s[0]] + Insert(x, s[1..], name)
  }

  /** `sort_by(|a, b| a.name.cmp(&b.name))`: stable, so equal names keep their order. */
  function Sort<T>(s: seq<T>, name: T -> string): seq<T>
  {
    if s == [] then [] else Insert(s[0], Sort(s[1..], name), name)
  }

  lemma {:induction false} Members<T(!new)>(s: seq<T>)
    requires s != []
    ensures forall y :: y in s <==> y == s[0] || y in s[1..]
  {
    assert s == [s[0]] + s[1..];
  }

  lemma {:induction false} InsertMembers<T(!new)>(x: T, s: seq<T>, name: T -> string)
    ensures forall y :: y in Insert(x, s, name) <==> y == x || y in s
  {
    if s != [] {
      Members(s);
      InsertMembers(x, s[1..], name);
    }
  }

  lemma {:induction false} SortedCons<T(!new)>(x: T, s: seq<T>, name: T -> string)
    requires Sorted(s, name) && forall y :: y in s ==> Le(name(x), name(y))
    ensures Sorted([x] + s, name)
  {
    var t := [x] + s;
    forall i, j | 0 <= i < j < |t| ensures Le(name(t[i]), name(t[j])) {
      assert t[j] == s[j - 1];
      if i > 0 { assert t[i] == s[i - 1]; }
    }
  }

  lemma {:induction false} InsertSorts<T(!new)>(x: T, s: seq<T>, name: T -> string)
    requires Sorted(s, name)
    ensures Sorted(Insert(x, s, name), name)
  {
    if s != [] {
      LeTotal(name(x), name(s[0]));
      if Le(name(x), name(s[0])) {
        forall y | y in s ensures Le(name(x), name(y)) {
          var k :| 0 <= k < |s| && s[k] == y;
          if k > 0 { LeTransitive(name(x), name(s[0]), name(s[k])); }
        }
        SortedCons(x, s, name);
      } else {
        var t := Insert(x, s[1..], name);
        InsertSorts(x, s[1..], name);
        InsertMembers(x, s[1..], name);
        forall y | y in t ensures Le(name(s[0]), name(y)) {
          if y != x { var k :| 1 <= k < |s| && s[k] == y; }
        }
        SortedCons(s[0], t, name);
      }
    }
  }

  lemma {:induction false} UniqueCons<T(!new)>(x: T, s: seq<T>, name: T -> string)
    requires UniqueNames(s, name) && forall y :: y in s ==> name(y) != name(x)
    ensures UniqueNames([x] + s, name)
  {
    var t := [x] + s;
    forall i, j | 0 <= i < j < |t| ensures name(t[i]) != name(t[j]) {
      assert t[j] == s[j - 1];
      if i > 0 { assert t[i] == s[i - 1]; }
    }
  }

  lemma {:induction false} InsertUnique<T(!new)>(x: T, s: seq<T>, name: T -> string)
    requires UniqueNames(s, name) && forall y :: y in s ==> name(y) != name(x)
    ensures UniqueNames(Insert(x, s, name), name)
  {
    if s == [] || Le(name(x), name(s[0])) {
      UniqueCons(x, s, name);
    } else {
      var t := Insert(x, s[1..], name);
      InsertUnique(x, s[1..], name);
      InsertMembers(x, s[1..], name);
      forall y | y in t ensures name(y) != name(s[0]) {
        if y != x { var k :| 1 <= k < |s| && s[k] == y; }
      }
      UniqueCons(s[0], t, name);
    }
  }

  /** Sorting orders the entries and neither adds, drops nor repeats one. */
  lemma {:induction false} SortCorrect<T(!new)>(s: seq<T>, name: T -> string)
    ensures Sorted(Sort(s, name), name)
    ensures forall y :: y in Sort(s, name) <==> y in s
    ensures UniqueNames(s, name) ==> UniqueNames(Sort(s, name), name)
  {
    if s != [] {
      var t := Sort(s[1..], name);
      SortCorrect(s[1..], name);
      InsertSorts(s[0], t, name);
      InsertMembers(s[0], t, name);
      Members(s);
      if UniqueNames(s, name) {
        forall y | y in t ensures name(y) != name(s[0]) {
          assert y in s[1..];
          var k :| 1 <= k < |s| && s[k] == y;
        }
        InsertUnique(s[0], t, name);
      }
    }
  }

  /** Sorting does not change any lookup. */
  lemma {:induction false} SortFinds<T(!new)>(s: seq<T>, name: T -> string, n: string)
    requires UniqueNames(s, name)
    ensures Find(Sort(s, name), name, n) == Find(s, name, n)
  {
    SortCorrect(s, name);
    var a, b := Find(Sort(s, name), name, n), Find(s, name, n);
    if b.Some? {
      assert b.value in Sort(s, name);
      FindMember(Sort(s, name), name, b.value);
    }
  }

  /** A sorted sequence with unique names is determined by its members. */
  lemma {:induction false} SortedDetermined<T(!new)>(s: seq<T>, t: seq<T>, name: T -> string)
    requires Sorted(s, name) && Sorted(t, name) && UniqueNames(s, name) && UniqueNames(t, name)
    requires forall x :: x in s <==> x in t
    ensures s == t
  {
    EmptyTogether(s, t);
    if s != [] {
      HeadsAgree(s, t, name);
      assert s == [s[0]] + s[1..] && t == [t[0]] + t[1..];
      forall x ensures x in s[1..] <==> x in t[1..] {
        if x in s[1..] { assert x in s && x in t && x != s[0]; }
        if x in t[1..] { assert x in t && x in s && x != t[0]; }
      }
      SortedDetermined(s[1..], t[1..], name);
    }
  }

  lemma {:induction false} EmptyTogether<T(!new)>(s: seq<T>, t: seq<T>)
    requires forall x :: x in s <==> x in t
    ensures s == [] <==> t == []
  {
    if s != [] { assert s[0] in t; }
    if t != [] { assert t[0] in s; }
  }

  lemma {:induction false} HeadsAgree<T(!new)>(s: seq<T>, t: seq<T>, name: T -> string)
    requires Sorted(s, name) && Sorted(t, name) && UniqueNames(s, name) && s != [] && t != []
    requires forall x :: x in s <==> x in t
    ensures s[0] == t[0]
  {
    assert s[0] in t && t[0] in s;
    var i :| 0 <= i < |t| && t[i] == s[0];
    var j :| 0 <= j < |s| && s[j] == t[0];
    LeTotal(name(s[0]), name(t[0]));
    assert Le(name(s[0]), name(s[j])) || j == 0;
    assert Le(name(t[0]), name(t[i])) || i == 0;
  }
}
