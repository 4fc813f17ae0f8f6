/** Shared vocabulary: identifiers, options, and facts about duplicate-free sequences. */
module Common {

  /** An identifier; only its equality matters. */
  datatype Id = Id(name: string)

  datatype Option<+T> = None | Some(value: T)

  datatype Result<+T> = Ok(value: T) | Err(error: string)

  predicate NoDup<T(==)>(s: seq<T>) {
    forall i, j :: 0 <= i < j < |s| ==> s[i] != s[j]
  }

  function Elems<T>(s: seq<T>): set<T> {
    set x | x in s
  }

  /** `Array.filter` with the predicate "is not x". */
  function Without<T(==,!new)>(s: seq<T>, x: T): (r: seq<T>)
    ensures forall y :: y in r <==> y in s && y != x
  {
    if s == [] then []
    else if s[0] == x then Without(s[1..], x)
    else [s[0]] + Without(s[1..], x)
  }

  lemma {:induction false} WithoutNoDup<T(!new)>(s: seq<T>, x: T)
    requires NoDup(s)
    ensures NoDup(Without(s, x))
  {
    if s != [] {
      WithoutNoDup(s[1..], x);
      assert s[0] !in s[1..];
      assert s[0] !in Without(s[1..], x);
    }
  }

  predicate IsAt(text: string, part: string, i: nat) {
    i + |part| <= |text| && text[i..i + |part|] == part
  }

  /** `String.includes`. */
  predicate Includes(text: string, part: string) {
    exists i | 0 <= i <= |text| :: IsAt(text, part, i)
  }

  /** A text includes a part exactly when it reads before, part, after. */
  lemma IncludesMeans(text: string, part: string)
    ensures Includes(text, part) <==> exists before, after :: text == before + part + after
  {
    if i :| 0 <= i <= |text| && IsAt(text, part, i) {
      assert text == text[..i] + part + text[i + |part|..];
    }
    if before, after :| text == before + part + after {
      assert text[|before|..|before| + |part|] == part;
      assert IsAt(text, part, |before|);
    }
  }

  /** a can be read off b from left to right, leaving elements out. */
  predicate Subsequence<T(==)>(a: seq<T>, b: seq<T>) {
    if a == [] then true
    else if b == [] then false
    else (a[|a| - 1] == b[|b| - 1] && Subsequence(a[..|a| - 1], b[..|b| - 1])) || Subsequence(a, b[..|b| - 1])
  }

  /** Reading one more element of b, and taking it or leaving it out. */
  lemma SubsequencePush<T>(a: seq<T>, b: seq<T>, x: T)
    requires Subsequence(a, b)
    ensures Subsequence(a + [x], b + [x]) && Subsequence(a, b + [x])
  {
    assert (a + [x])[..|a|] == a && (b + [x])[..|b|] == b;
  }

  lemma {:induction false} SubsequenceConcat<T>(a: seq<T>, b: seq<T>, c: seq<T>, d: seq<T>)
    requires Subsequence(a, b) && Subsequence(c, d)
    ensures Subsequence(a + c, b + d)
  {
    if d == [] {
      assert c == [] && a + c == a && b + d == b;
    } else {
      var start := d[..|d| - 1];
      assert (b + d)[..|b + d| - 1] == b + start;
      if Subsequence(c, start) {
        SubsequenceConcat(a, b, c, start);
        SubsequencePush(a + c, b + start, d[|d| - 1]);
        assert b + start + [d[|d| - 1]] == b + d;
      } else {
        SubsequenceConcat(a, b, c[..|c| - 1], start);
        SubsequencePush(a + c[..|c| - 1], b + start, d[|d| - 1]);
        assert b + start + [d[|d| - 1]] == b + d;
        assert a + c[..|c| - 1] + [c[|c| - 1]] == a + c;
      }
    }
  }

  lemma {:induction false} SubsequenceNoDup<T(!new)>(a: seq<T>, b: seq<T>)
    requires NoDup(b) && Subsequence(a, b)
    ensures NoDup(a)
  {
    if b != [] {
      assert NoDup(b[..|b| - 1]);
      SubsequenceLast(a, b);
      if a != [] {
        SubsequenceNoDup(if b[|b| - 1] in a then a[..|a| - 1] else a, b[..|b| - 1]);
      }
    }
  }

  /** Two subsequences of one duplicate-free sequence with the same elements are the same. */
  lemma {:induction false} SubsequenceIsUnique<T(!new)>(a: seq<T>, a': seq<T>, b: seq<T>)
    requires NoDup(b) && Subsequence(a, b) && Subsequence(a', b) && forall x :: x in a <==> x in a'
    ensures a == a'
  {
    if b != [] {
      var start, last := b[..|b| - 1], b[|b| - 1];
      assert last !in start && NoDup(start);
      SubsequenceLast(a, b);
      SubsequenceLast(a', b);
      if last in a {
        var r, r' := a[..|a| - 1], a'[..|a'| - 1];
        assert a == r + [last] && a' == r' + [last];
        forall x
          ensures x in r <==> x in r'
        {
          assert x in a <==> x in r || x == last;
          assert x in a' <==> x in r' || x == last;
        }
        hide Subsequence, NoDup;
        SubsequenceIsUnique(r, r', start);
      } else {
        SubsequenceIsUnique(a, a', start);
      }
    }
  }

  /** The last element of b is taken as the last of a, or not at all. */
  lemma SubsequenceLast<T(!new)>(a: seq<T>, b: seq<T>)
    requires b != [] && NoDup(b) && Subsequence(a, b)
    ensures var start, last := b[..|b| - 1], b[|b| - 1];
      if last in a then a[|a| - 1] == last && last !in a[..|a| - 1] && Subsequence(a[..|a| - 1], start)
      else Subsequence(a, start)
  {
    var start, last := b[..|b| - 1], b[|b| - 1];
    if a != [] {
      if a[|a| - 1] == last && Subsequence(a[..|a| - 1], start) {
        SubsequenceElems(a[..|a| - 1], start);
      } else {
        SubsequenceElems(a, start);
      }
    }
  }

  lemma {:induction false} SubsequenceElems<T(!new)>(a: seq<T>, b: seq<T>)
    requires Subsequence(a, b)
    ensures forall x :: x in a ==> x in b
  {
    if a != [] {
      var start := b[..|b| - 1];
      assert forall x :: x in start ==> x in b;
      if a[|a| - 1] == b[|b| - 1] && Subsequence(a[..|a| - 1], start) {
        SubsequenceElems(a[..|a| - 1], start);
        assert forall x :: x in a <==> x in a[..|a| - 1] || x == a[|a| - 1];
      } else {
        SubsequenceElems(a, start);
      }
    }
  }

  lemma SubsetSize<T>(a: set<T>, b: set<T>)
    requires a <= b
    ensures |a| <= |b|
    ensures a != b ==> |a| < |b|
  {
    assert b == a + (b - a);
  }

  lemma {:induction false} NoDupSize<T>(s: seq<T>)
    requires NoDup(s)
    ensures |Elems(s)| == |s|
  {
    if s != [] {
      NoDupSize(s[1..]);
      assert Elems(s) == {s[0]} + Elems(s[1..]);
    }
  }

  lemma {:induction false} SizeAtMost<T>(s: seq<T>)
    ensures |Elems(s)| <= |s|
  {
    if s != [] {
      SizeAtMost(s[1..]);
      assert Elems(s) == {s[0]} + Elems(s[1..]);
    }
  }

  lemma NoMembers<T>(s: seq<T>)
    ensures s == [] <==> Elems(s) == {}
  {
    if s != [] {
      assert s[0] in Elems(s);
    }
  }

  lemma HeadTail<T(!new)>(s: seq<T>)
    requires s != [] && NoDup(s)
    ensures NoDup(s[1..]) && Elems(s[1..]) == Elems(s) - {s[0]}
  {
    forall x
      ensures x in s[1..] <==> x in s && x != s[0]
    {
      if x in s && x != s[0] {
        var i :| 0 <= i < |s| && s[i] == x;
        assert s[1..][i - 1] == x;
      }
    }
  }

  lemma PrefixStep<T>(s: seq<T>, i: nat)
    requires NoDup(s) && i < |s|
    ensures Elems(s[..i + 1]) == Elems(s[..i]) + {s[i]} && s[i] !in Elems(s[..i])
  {
  }

  lemma ElemsConcat<T>(a: seq<T>, b: seq<T>)
    requires NoDup(a) && NoDup(b) && Elems(a) !! Elems(b)
    ensures NoDup(a + b) && Elems(a + b) == Elems(a) + Elems(b)
  {
    forall i, j | 0 <= i < j < |a + b|
      ensures (a + b)[i] != (a + b)[j]
    {
      if i < |a| <= j {
        assert a[i] in Elems(a) && b[j - |a|] in Elems(b);
      }
    }
  }

  /** More positions than values: some value stands at two positions. */
  lemma Pigeonhole<T>(s: seq<T>, u: set<T>)
    requires Elems(s) <= u && |s| > |u|
    ensures !NoDup(s)
  {
    if NoDup(s) {
      NoDupSize(s);
      SubsetSize(Elems(s), u);
    }
  }
}
