/**
 Text: splitting, joining, terminating, and the byte-wise order of Go strings. A Go
 string is the sequence of its bytes, each written here as the char of that code.
 */
module Text {

  // ---------------------------------------------------------------- strings.Split, LastIndex, Join

  function Split(s: string, sep: char): (parts: seq<string>)
    ensures |parts| >= 1
    ensures forall i :: 0 <= i < |parts| ==> sep !in parts[i]
    decreases |s|
  {
    if s == [] then [[]]
    else
      var rest := Split(s[1..], sep);
      if s[0] == sep then [[]] + rest
      else [[s[0]] + rest[0]] + rest[1..]
  }

  function LastPart(s: string, sep: char): string {
    var parts := Split(s, sep);
    parts[|parts| - 1]
  }

  function LastIndex(s: string, c: char): (i: int)
    ensures -1 <= i < |s|
    ensures i >= 0 ==> s[i] == c
    ensures forall j :: i < j < |s| ==> s[j] != c
    decreases |s|
  {
    if s == [] then -1
    else if s[|s| - 1] == c then |s| - 1
    else LastIndex(s[..|s| - 1], c)
  }

  function Join(parts: seq<string>, sep: char): string
    decreases |parts|
  {
    if parts == [] then []
    else if |parts| == 1 then parts[0]
    else parts[0] + [sep] + Join(parts[1..], sep)
  }

  lemma {:induction false} SplitAtFirst(a: string, sep: char, b: string)
    requires sep !in a
    ensures Split(a + [sep] + b, sep) == [a] + Split(b, sep)
    decreases |a|
  {
    if a == [] {
      assert (a + [sep] + b)[1..] == b;
    } else {
      assert (a + [sep] + b)[1..] == a[1..] + [sep] + b;
      SplitAtFirst(a[1..], sep, b);
      assert [a[0]] + a[1..] == a;
    }
  }

  lemma {:induction false} SplitWithout(a: string, sep: char)
    requires sep !in a
    ensures Split(a, sep) == [a]
    decreases |a|
  {
    if a != [] {
      SplitWithout(a[1..], sep);
      assert [a[0]] + a[1..] == a;
    }
  }

  lemma {:induction false} SplitJoin(parts: seq<string>, sep: char)
    requires parts != [] && forall i :: 0 <= i < |parts| ==> sep !in parts[i]
    ensures Split(Join(parts, sep), sep) == parts
    decreases |parts|
  {
    if |parts| == 1 {
      SplitWithout(parts[0], sep);
    } else {
      SplitJoin(parts[1..], sep);
      SplitAtFirst(parts[0], sep, Join(parts[1..], sep));
      assert [parts[0]] + parts[1..] == parts;
    }
  }

  /** Whatever precedes it, the text after the last separator is the last part. */
  lemma {:induction false} LastPartAfter(a: string, sep: char, b: string)
    requires sep !in b
    ensures LastPart(a + [sep] + b, sep) == b && |Split(a + [sep] + b, sep)| >= 2
    decreases |a|
  {
    if a == [] {
      SplitAtFirst([], sep, b);
      SplitWithout(b, sep);
    } else {
      assert (a + [sep] + b)[1..] == a[1..] + [sep] + b;
      LastPartAfter(a[1..], sep, b);
      LastPartDropsHead(a + [sep] + b, sep);
    }
  }

  lemma LastPartDropsHead(s: string, sep: char)
    requires s != [] && |Split(s[1..], sep)| >= 2
    ensures LastPart(s, sep) == LastPart(s[1..], sep)
  {
  }

  // ---------------------------------------------------------------- concatenation

  lemma Assoc(a: string, b: string, c: string)
    ensures (a + b) + c == a + (b + c)
  {
  }

  lemma SameSuffix(a: string, b: string, c: string)
    requires a + c == b + c
    ensures a == b
  {
    assert |a + c| == |b + c|;
    assert a == (a + c)[..|a|] && b == (b + c)[..|b|];
  }

  lemma SamePrefix(a: string, b: string, c: string)
    requires c + a == c + b
    ensures a == b
  {
    assert a == (c + a)[|c|..] && b == (c + b)[|c|..];
  }

  // ---------------------------------------------------------------- terminated parts

  /** Every part followed by the separator. */
  function Terminate(parts: seq<string>, sep: char): string
    decreases |parts|
  {
    if parts == [] then [] else parts[0] + [sep] + Terminate(parts[1..], sep)
  }

  lemma {:induction false} TerminateAppend(a: seq<string>, b: seq<string>, sep: char)
    ensures Terminate(a + b, sep) == Terminate(a, sep) + Terminate(b, sep)
    decreases |a|
  {
    if a == [] {
      assert a + b == b;
    } else {
      assert (a + b)[1..] == a[1..] + b;
      TerminateAppend(a[1..], b, sep);
      Assoc(a[0] + [sep], Terminate(a[1..], sep), Terminate(b, sep));
    }
  }

  /** Splitting recovers the parts, and an empty rest. */
  lemma {:induction false} SplitTerminate(parts: seq<string>, sep: char)
    requires forall i :: 0 <= i < |parts| ==> sep !in parts[i]
    ensures Split(Terminate(parts, sep), sep) == parts + [""]
    decreases |parts|
  {
    if parts != [] {
      SplitTerminate(parts[1..], sep);
      SplitAtFirst(parts[0], sep, Terminate(parts[1..], sep));
      assert [parts[0]] + (parts[1..] + [""]) == parts + [""];
    }
  }

  // ---------------------------------------------------------------- the order of strings

  predicate Below(a: string, b: string)
    decreases |a|
  {
    if b == [] then false
    else if a == [] then true
    else a[0] < b[0] || (a[0] == b[0] && Below(a[1..], b[1..]))
  }

  /** The strings agree before position i, where the first one ends or has the smaller
      character. */
  predicate DiffersAt(a: string, b: string, i: nat) {
    && i <= |a| && i < |b| && a[..i] == b[..i]
    && (i == |a| || a[i] < b[i])
  }

  /** The order is Go's: a proper prefix comes first, and otherwise the first different
      character decides. */
  lemma {:induction false} BelowIff(a: string, b: string)
    ensures Below(a, b) <==> exists i: nat :: DiffersAt(a, b, i)
    decreases |a|
  {
    forall i: nat | 0 < i && DiffersAt(a, b, i) ensures a[0] == b[0] {
      assert a[..i][0] == b[..i][0];
    }
    if a == [] || b == [] || a[0] != b[0] {
      assert Below(a, b) <==> DiffersAt(a, b, 0);
    } else {
      BelowIff(a[1..], b[1..]);
      forall i: nat ensures DiffersAt(a[1..], b[1..], i) <==> DiffersAt(a, b, i + 1) {
        if i < |a| && i < |b| {
          assert a[..i + 1] == [a[0]] + a[1..][..i] && b[..i + 1] == [b[0]] + b[1..][..i];
          assert a[1..][..i] == a[..i + 1][1..] && b[1..][..i] == b[..i + 1][1..];
        }
      }
      forall i: nat | DiffersAt(a, b, i) ensures DiffersAt(a[1..], b[1..], i - 1) {
        assert DiffersAt(a, b, (i - 1) + 1);
      }
    }
  }

  lemma {:induction false} BelowTotal(a: string, b: string)
    ensures a == b || Below(a, b) || Below(b, a)
    decreases |a|
  {
    if a != [] && b != [] && a[0] == b[0] {
      BelowTotal(a[1..], b[1..]);
      if a[1..] == b[1..] {
        assert a == [a[0]] + a[1..] && b == [b[0]] + b[1..];
      }
    }
  }

  lemma {:induction false} BelowTransitive(a: string, b: string, c: string)
    requires Below(a, b) && Below(b, c)
    ensures Below(a, c)
    decreases |a|
  {
    if a != [] && a[0] == b[0] && b[0] == c[0] {
      BelowTransitive(a[1..], b[1..], c[1..]);
    }
  }

  lemma {:induction false} BelowIrreflexive(a: string)
    ensures !Below(a, a)
    decreases |a|
  {
    if a != [] {
      BelowIrreflexive(a[1..]);
    }
  }

  // ---------------------------------------------------------------- sorted keys

  /** Strictly ascending, hence without repetition. */
  predicate Ascending(s: seq<string>) {
    forall i, j :: 0 <= i < j < |s| ==> Below(s[i], s[j])
  }

  function Elements(s: seq<string>): set<string> {
    set x | x in s
  }

  lemma ElementsAppend(s: seq<string>, k: string)
    ensures Elements(s + [k]) == Elements(s) + {k}
  {
  }

  lemma {:induction false} LeastExists(s: set<string>) returns (m: string)
    requires s != {}
    ensures m in s && forall x :: x in s && x != m ==> Below(m, x)
    decreases |s|
  {
    m :| m in s;
    var rest := s - {m};
    if rest != {} {
      var n := LeastExists(rest);
      BelowTotal(m, n);
      if Below(n, m) {
        m := n;
      } else {
        forall x | x in s && x != m ensures Below(m, x) {
          if x != n {
            BelowTransitive(m, n, x);
          }
        }
      }
    }
  }

  ghost function Least(s: set<string>): (m: string)
    requires s != {}
    ensures m in s && forall x :: x in s && x != m ==> Below(m, x)
  {
    assert exists m :: m in s && forall x :: x in s && x != m ==> Below(m, x) by {
      var m := LeastExists(s);
    }
    var m :| m in s && forall x :: x in s && x != m ==> Below(m, x);
    m
  }

  lemma LeastFirst(s: set<string>, m: string, rest: seq<string>)
    requires m in s && (forall x :: x in s && x != m ==> Below(m, x))
    requires Ascending(rest) && Elements(rest) == s - {m}
    ensures Ascending([m] + rest) && Elements([m] + rest) == s
  {
    assert forall i :: 0 <= i < |rest| ==> rest[i] in Elements(rest);
    assert forall x :: x in [m] + rest <==> x == m || x in rest;
    assert forall x :: x in rest <==> x in Elements(rest);
  }

  /** The elements of a set in ascending order. */
  ghost function Sorted(s: set<string>): (r: seq<string>)
    ensures Ascending(r) && Elements(r) == s
    decreases |s|
  {
    if s == {} then []
    else
      var m := Least(s);
      var rest := Sorted(s - {m});
      LeastFirst(s, m, rest);
      [m] + rest
  }

  /** There is only one way to list a set in ascending order. */
  lemma {:induction false} AscendingUnique(a: seq<string>, b: seq<string>)
    requires Ascending(a) && Ascending(b) && Elements(a) == Elements(b)
    ensures a == b
    decreases |a|
  {
    assert |a| > 0 ==> a[0] in Elements(a);
    assert |b| > 0 ==> b[0] in Elements(b);
    if a != [] && b != [] {
      HeadIsLeast(a, b);
      HeadIsLeast(b, a);
      if a[0] != b[0] {
        BelowTransitive(a[0], b[0], a[0]);
        BelowIrreflexive(a[0]);
      }
      TailElements(a);
      TailElements(b);
      AscendingUnique(a[1..], b[1..]);
      assert a == [a[0]] + a[1..] && b == [b[0]] + b[1..];
    }
  }

  lemma HeadIsLeast(a: seq<string>, b: seq<string>)
    requires a != [] && b != [] && Ascending(a) && Elements(a) == Elements(b)
    ensures a[0] == b[0] || Below(a[0], b[0])
  {
    assert b[0] in Elements(b);
    assert b[0] in a;
  }

  lemma TailElements(a: seq<string>)
    requires a != [] && Ascending(a)
    ensures Ascending(a[1..]) && Elements(a[1..]) == Elements(a) - {a[0]}
  {
    BelowIrreflexive(a[0]);
    forall x | x in Elements(a) && x != a[0] ensures x in a[1..] {
      assert x in a;
    }
    assert forall i :: 0 < i < |a| ==> Below(a[0], a[i]);
  }

  /** sort.Strings on keys without repetition. */
  method SortStrings(keys: seq<string>) returns (sorted: seq<string>)
    requires forall i, j :: 0 <= i < j < |keys| ==> keys[i] != keys[j]
    ensures sorted == Sorted(Elements(keys))
  {
    sorted := [];
    for n := 0 to |keys|
      invariant Ascending(sorted) && Elements(sorted) == Elements(keys[..n])
    {
      var k := keys[n];
      assert k !in sorted by {
        assert k in sorted ==> k in Elements(sorted);
        assert k !in keys[..n];
      }
      sorted := Insert(sorted, k);
      assert keys[..n + 1] == keys[..n] + [k];
    }
    assert keys[..|keys|] == keys;
    AscendingUnique(sorted, Sorted(Elements(keys)));
  }

  method Insert(sorted: seq<string>, k: string) returns (r: seq<string>)
    requires Ascending(sorted) && k !in sorted
    ensures Ascending(r) && Elements(r) == Elements(sorted) + {k}
  {
    var p := 0;
    while p < |sorted| && Below(sorted[p], k)
      invariant 0 <= p <= |sorted|
      invariant forall i :: 0 <= i < p ==> Below(sorted[i], k)
    {
      p := p + 1;
    }
    r := sorted[..p] + [k] + sorted[p..];
    forall i | p <= i < |sorted| ensures Below(k, sorted[i]) {
      BelowTotal(k, sorted[p]);
      if i > p {
        BelowTransitive(k, sorted[p], sorted[i]);
      }
    }
    assert forall x :: x in r <==> x in sorted || x == k;
  }
}
