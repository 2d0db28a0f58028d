/** Group sets: grouping columns, sorted and joined by ", " into one string, and split
    again when the projection over them is built. */
module GroupSets {
  import opened Json

  /** Where ", " first occurs. */
  function FindSeparator(s: string): (r: Option<nat>)
    ensures r.Some? ==> r.value + 2 <= |s| && s[r.value] == ',' && s[r.value + 1] == ' '
  {
    if |s| < 2 then None
    else if s[0] == ',' && s[1] == ' ' then Some(0)
    else match FindSeparator(s[1..]) case Some(i) => Some(i + 1) case None => None
  }

  function Join(names: seq<string>): (s: string) {
    if names == [] then "" else if |names| == 1 then names[0] else names[0] + (", " + Join(names[1..]))
  }

  /** The pieces between separators; empty ones are dropped. */
  function Pieces(s: string): (r: seq<string>)
    decreases |s|
  {
    match FindSeparator(s)
    case None => if s == "" then [] else [s]
    case Some(i) => (if i == 0 then [] else [s[..i]]) + Pieces(s[i + 2..])
  }

  function Split(s: string): (r: seq<string>) {
    if Pieces(s) == [] then [s] else Pieces(s)
  }

  predicate Plain(name: string) { name != "" && FindSeparator(name).None? }

  lemma {:induction false} FirstSeparator(name: string, rest: string)
    requires FindSeparator(name).None?
    ensures FindSeparator(name + (", " + rest)) == Some(|name|)
  {
    var s := name + (", " + rest);
    if name == "" {
      assert s[0] == ',' && s[1] == ' ';
    } else {
      assert s[1..] == name[1..] + (", " + rest);
      if |name| == 1 { assert s[1] == ','; }
      FirstSeparator(name[1..], rest);
    }
  }

  lemma {:induction false} PiecesOfJoin(names: seq<string>)
    requires names != [] && forall i :: 0 <= i < |names| ==> Plain(names[i])
    ensures Pieces(Join(names)) == names
  {
    if |names| > 1 {
      var rest := Join(names[1..]);
      FirstSeparator(names[0], rest);
      var s := names[0] + (", " + rest);
      assert s[..|names[0]|] == names[0] && s[|names[0]| + 2..] == rest;
      PiecesOfJoin(names[1..]);
    }
  }

  lemma {:induction false} BeforeSeparator(s: string)
    requires FindSeparator(s).Some?
    ensures FindSeparator(s[..FindSeparator(s).value]).None?
  {
    var i := FindSeparator(s).value;
    if i > 0 {
      BeforeSeparator(s[1..]);
      assert s[..i][1..] == s[1..][..i - 1];
    }
  }

  lemma {:induction false} PiecesArePlain(s: string)
    ensures forall i :: 0 <= i < |Pieces(s)| ==> Plain(Pieces(s)[i])
    decreases |s|
  {
    if FindSeparator(s).Some? {
      BeforeSeparator(s);
      PiecesArePlain(s[FindSeparator(s).value + 2..]);
    }
  }

  predicate OnlySeparators(s: string) {
    s == "" || (|s| >= 2 && s[0] == ',' && s[1] == ' ' && OnlySeparators(s[2..]))
  }

  lemma {:induction false} NoPiecesIff(s: string)
    ensures Pieces(s) == [] <==> OnlySeparators(s)
    decreases |s|
  {
    if FindSeparator(s).Some? { NoPiecesIff(s[FindSeparator(s).value + 2..]); }
  }

  lemma {:induction false} JoinOfNothing(names: seq<string>)
    requires Pieces(Join(names)) == [] && |names| == 1
    ensures OnlySeparators(names[0])
  {
    NoPiecesIff(names[0]);
  }

  lemma OnlyIfPlain(names: seq<string>)
    requires Split(Join(names)) == names && |names| > 0
    ensures (forall i :: 0 <= i < |names| ==> Plain(names[i])) || (|names| == 1 && OnlySeparators(names[0]))
  {
    if Pieces(Join(names)) == [] {
      JoinOfNothing(names);
    } else {
      PiecesArePlain(Join(names));
    }
  }

  /** Splitting a joined group set gives the columns back exactly when no name is empty or
      contains the separator (or the set is one name made of nothing but separators). */
  lemma SplitJoinIff(names: seq<string>)
    requires names != []
    ensures Split(Join(names)) == names <==>
      (forall i :: 0 <= i < |names| ==> Plain(names[i])) || (|names| == 1 && OnlySeparators(names[0]))
  {
    if Split(Join(names)) == names {
      OnlyIfPlain(names);
    } else if |names| == 1 && OnlySeparators(names[0]) {
      NoPiecesIff(names[0]);
    } else if forall i :: 0 <= i < |names| ==> Plain(names[i]) {
      PiecesOfJoin(names);
    }
  }

  // ---------------------------------------------------------------------------
  // Sorting names
  // ---------------------------------------------------------------------------

  predicate Before(a: string, b: string) {
    a == "" || (b != "" && (a[0] < b[0] || (a[0] == b[0] && Before(a[1..], b[1..]))))
  }

  lemma {:induction false} BeforeIsTotal(a: string, b: string)
    ensures Before(a, b) || Before(b, a)
    ensures Before(a, b) && Before(b, a) ==> a == b
  {
    if a != "" && b != "" {
      BeforeIsTotal(a[1..], b[1..]);
      assert a == [a[0]] + a[1..] && b == [b[0]] + b[1..];
    }
  }

  lemma {:induction false} BeforeIsTransitive(a: string, b: string, c: string)
    requires Before(a, b) && Before(b, c)
    ensures Before(a, c)
  {
    if a != "" && a[0] == b[0] == c[0] { BeforeIsTransitive(a[1..], b[1..], c[1..]); }
  }

  function Insert(x: string, xs: seq<string>): (r: seq<string>) {
    if xs == [] then [x] else if Before(x, xs[0]) then [x] + xs else [xs[0]] + Insert(x, xs[1..])
  }

  function Sort(xs: seq<string>): (r: seq<string>) {
    if xs == [] then [] else Insert(xs[0], Sort(xs[1..]))
  }

  ghost predicate Sorted(xs: seq<string>) {
    forall i, j :: 0 <= i < j < |xs| ==> Before(xs[i], xs[j])
  }

  lemma {:induction false} InsertKeepsAll(x: string, xs: seq<string>)
    ensures multiset(Insert(x, xs)) == multiset(xs) + multiset{x}
  {
    if xs != [] {
      assert xs == [xs[0]] + xs[1..];
      InsertKeepsAll(x, xs[1..]);
    }
  }

  lemma Prepend(x: string, xs: seq<string>)
    requires Sorted(xs) && forall k :: 0 <= k < |xs| ==> Before(x, xs[k])
    ensures Sorted([x] + xs)
  {
  }

  lemma TailSorted(xs: seq<string>)
    requires Sorted(xs) && xs != []
    ensures Sorted(xs[1..]) && forall k :: 0 <= k < |xs[1..]| ==> Before(xs[0], xs[1..][k])
  {
    var tail := xs[1..];
    assert forall i :: 0 <= i < |tail| ==> tail[i] == xs[i + 1];
  }

  lemma {:induction false} InsertKeepsSorted(x: string, xs: seq<string>)
    requires Sorted(xs)
    ensures Sorted(Insert(x, xs))
  {
    if xs != [] {
      TailSorted(xs);
      BeforeIsTotal(x, xs[0]);
      if Before(x, xs[0]) {
        forall k | 0 <= k < |xs| ensures Before(x, xs[k]) {
          if k > 0 { BeforeIsTransitive(x, xs[0], xs[k]); }
        }
        Prepend(x, xs);
      } else {
        var rest := Insert(x, xs[1..]);
        InsertKeepsSorted(x, xs[1..]);
        InsertKeepsAll(x, xs[1..]);
        forall k | 0 <= k < |rest| ensures Before(xs[0], rest[k]) {
          assert rest[k] in multiset(xs[1..]) + multiset{x};
        }
        Prepend(xs[0], rest);
      }
    }
  }

  lemma {:induction false} SortSorts(xs: seq<string>)
    ensures multiset(Sort(xs)) == multiset(xs) && Sorted(Sort(xs))
  {
    if xs != [] {
      assert xs == [xs[0]] + xs[1..];
      SortSorts(xs[1..]);
      InsertKeepsAll(xs[0], Sort(xs[1..]));
      InsertKeepsSorted(xs[0], Sort(xs[1..]));
    }
  }

  lemma LeastIsFirst(xs: seq<string>, ys: seq<string>)
    requires Sorted(xs) && Sorted(ys) && xs != [] && ys != [] && multiset(xs) == multiset(ys)
    ensures xs[0] == ys[0]
  {
    assert xs[0] in multiset(ys) && ys[0] in multiset(xs);
    var i :| 0 <= i < |ys| && ys[i] == xs[0];
    var j :| 0 <= j < |xs| && xs[j] == ys[0];
    BeforeIsTotal(xs[0], ys[0]);
  }

  lemma {:induction false} SortedIsCanonical(xs: seq<string>, ys: seq<string>)
    requires Sorted(xs) && Sorted(ys) && multiset(xs) == multiset(ys)
    ensures xs == ys
  {
    if xs == [] {
      assert |multiset(ys)| == 0;
    } else {
      assert |multiset(ys)| == |multiset(xs)| == |xs|;
      LeastIsFirst(xs, ys);
      var a, b := xs[1..], ys[1..];
      assert xs == [xs[0]] + a && ys == [ys[0]] + b;
      assert multiset(a) == multiset(xs) - multiset{xs[0]};
      assert multiset(b) == multiset(ys) - multiset{ys[0]};
      assert forall i :: 0 <= i < |a| ==> a[i] == xs[i + 1];
      assert forall i :: 0 <= i < |b| ==> b[i] == ys[i + 1];
      SortedIsCanonical(a, b);
    }
  }

  function GroupSetOf(names: seq<string>): (s: string) { Join(Sort(names)) }

  lemma SamePlain(xs: seq<string>, ys: seq<string>)
    requires multiset(xs) == multiset(ys) && forall i :: 0 <= i < |xs| ==> Plain(xs[i])
    ensures forall i :: 0 <= i < |ys| ==> Plain(ys[i])
  {
    forall i | 0 <= i < |ys| ensures Plain(ys[i]) {
      assert ys[i] in multiset(xs);
    }
  }

  /** Two lists of plain column names have the same group set exactly when one is a
      permutation of the other. */
  lemma GroupSetIff(xs: seq<string>, ys: seq<string>)
    requires xs != [] && ys != []
    requires forall i :: 0 <= i < |xs| ==> Plain(xs[i])
    requires forall i :: 0 <= i < |ys| ==> Plain(ys[i])
    ensures GroupSetOf(xs) == GroupSetOf(ys) <==> multiset(xs) == multiset(ys)
  {
    SortSorts(xs);
    SortSorts(ys);
    if multiset(xs) == multiset(ys) {
      SortedIsCanonical(Sort(xs), Sort(ys));
    }
    SamePlain(xs, Sort(xs));
    SamePlain(ys, Sort(ys));
    assert |multiset(xs)| > 0 && |multiset(ys)| > 0;
    PiecesOfJoin(Sort(xs));
    PiecesOfJoin(Sort(ys));
  }

  predicate AllPlain(names: seq<string>) {
    forall i :: 0 <= i < |names| ==> Plain(names[i])
  }

  /** A list of names splits back out of its group set, in order, exactly when no name is
      empty or contains the separator (or it is one name of nothing but separators). */
  lemma GroupSetSplitsIff(names: seq<string>)
    requires names != []
    ensures Split(GroupSetOf(names)) == Sort(names) <==> AllPlain(names) || (|names| == 1 && OnlySeparators(names[0]))
  {
    SortSorts(names);
    assert |multiset(names)| == |names| && |multiset(Sort(names))| == |Sort(names)|;
    SplitJoinIff(Sort(names));
    if |names| == 1 { assert Sort(names[1..]) == [] && Sort(names) == names; }
    if AllPlain(names) { SamePlain(names, Sort(names)); }
    if AllPlain(Sort(names)) { SamePlain(Sort(names), names); }
  }

  /** One column named "a, b" has the group set of the two columns "a" and "b". */
  lemma SeparatorInNameSplitsWrong()
    ensures GroupSetOf(["a, b"]) == "a, b" && Split("a, b") == ["a", "b"]
  {
    assert Sort(["a, b"][1..]) == [] && Sort(["a, b"]) == ["a, b"];
    var s := "a, b";
    assert s[1..] == ", b" && FindSeparator(s[1..]) == Some(0);
    assert FindSeparator(s) == Some(1);
    assert s[..1] == "a" && s[3..] == "b";
    assert FindSeparator("b") == None && Pieces("b") == ["b"];
    assert Pieces(s) == ["a"] + ["b"];
  }
}
