/** Case folding of identifiers and decimal suffixes. */
module Names {

  function LowerChar(c: char): (r: char) {
    if 'A' <= c <= 'Z' then c - 'A' + 'a' else c
  }

  function Lower(s: string): (r: string)
    ensures |r| == |s|
    ensures forall i :: 0 <= i < |s| ==> r[i] == LowerChar(s[i])
  {
    seq(|s|, i requires 0 <= i < |s| => LowerChar(s[i]))
  }

  /** Names fold together exactly when they differ in the case of ASCII letters only. */
  lemma FoldIff(a: string, b: string)
    ensures Lower(a) == Lower(b) <==>
      |a| == |b| && forall i :: 0 <= i < |a| ==>
        || a[i] == b[i]
        || ('A' <= a[i] <= 'Z' && b[i] as int == a[i] as int + 32)
        || ('A' <= b[i] <= 'Z' && a[i] as int == b[i] as int + 32)
  {
    if Lower(a) == Lower(b) {
      forall i | 0 <= i < |a| ensures LowerChar(a[i]) == LowerChar(b[i]) {
        assert Lower(a)[i] == Lower(b)[i];
      }
    }
  }

  function Digit(d: nat): (c: char)
    requires d < 10
    ensures '0' <= c <= '9' && (c - '0') as int == d
  {
    '0' + d as char
  }

  /** `to_string`. */
  function Decimal(n: nat): (s: string)
    ensures |s| > 0 && forall i :: 0 <= i < |s| ==> '0' <= s[i] <= '9'
  {
    if n < 10 then [Digit(n)] else Decimal(n / 10) + [Digit(n % 10)]
  }

  function DecimalValue(s: string): (n: nat)
    requires forall i :: 0 <= i < |s| ==> '0' <= s[i] <= '9'
  {
    if s == [] then 0
    else DecimalValue(s[..|s| - 1]) * 10 + (s[|s| - 1] - '0') as int
  }

  lemma {:induction false} DecimalRoundTrip(n: nat)
    ensures DecimalValue(Decimal(n)) == n
  {
    if n >= 10 {
      DecimalRoundTrip(n / 10);
      assert Decimal(n)[..|Decimal(n)| - 1] == Decimal(n / 10);
    }
  }

  function WithSuffix(base: string, k: nat): (r: string) { base + "_" + Decimal(k) }

  lemma SuffixesDiffer(base: string, j: nat, k: nat)
    requires Lower(WithSuffix(base, j)) == Lower(WithSuffix(base, k))
    ensures j == k
  {
    var a, b := WithSuffix(base, j), WithSuffix(base, k);
    assert |Decimal(j)| == |Decimal(k)|;
    forall i | 0 <= i < |Decimal(j)| ensures Decimal(j)[i] == Decimal(k)[i] {
      assert Lower(a)[|base| + 1 + i] == LowerChar(a[|base| + 1 + i]) == Decimal(j)[i];
      assert Lower(b)[|base| + 1 + i] == LowerChar(b[|base| + 1 + i]) == Decimal(k)[i];
    }
    assert Decimal(j) == Decimal(k);
    DecimalRoundTrip(j);
    DecimalRoundTrip(k);
  }

  /** The folded names `base_1 .. base_n`. */
  ghost function Suffixed(base: string, n: nat): (r: set<string>) {
    set k: nat | 1 <= k <= n :: Lower(WithSuffix(base, k))
  }

  /** Pigeonhole: `n` suffixed names fill at least `n` places of any set holding them. */
  lemma {:induction false} SuffixesNeedRoom(base: string, n: nat, seen: set<string>)
    requires forall k: nat :: 1 <= k <= n ==> Lower(WithSuffix(base, k)) in seen
    ensures n <= |seen|
  {
    SuffixedSize(base, n);
    SubsetSize(Suffixed(base, n), seen);
  }

  lemma {:induction false} SuffixedSize(base: string, n: nat)
    ensures |Suffixed(base, n)| == n
  {
    if n == 0 {
      assert Suffixed(base, n) == {};
    } else {
      SuffixedSize(base, n - 1);
      var last := Lower(WithSuffix(base, n));
      assert Suffixed(base, n) == Suffixed(base, n - 1) + {last};
      if last in Suffixed(base, n - 1) {
        var k: nat :| 1 <= k <= n - 1 && Lower(WithSuffix(base, k)) == last;
        SuffixesDiffer(base, k, n);
      }
    }
  }

  lemma {:induction false} SubsetSize<T>(a: set<T>, b: set<T>)
    requires a <= b
    ensures |a| <= |b|
  {
    if a != {} {
      var x :| x in a;
      SubsetSize(a - {x}, b - {x});
    }
  }
}
