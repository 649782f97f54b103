/** Sequence helpers shared by the planner and the steering model: a filtering map that follows the
    append order of a loop, what a reordering of its input does to it, and sorting by name. */
module Collections {
  import opened Options

  /** The results of f that are present, in the order of s. */
  function Collect<T, U>(f: T -> Option<U>, s: seq<T>): (r: seq<U>)
  {
    if s == [] then []
    else
      var rest := Collect(f, s[..|s| - 1]);
      match f(s[|s| - 1])
      case None => rest
      case Some(y) => rest + [y]
  }

  lemma {:induction false} CollectSnoc<T, U>(f: T -> Option<U>, s: seq<T>, i: nat)
    requires i < |s|
    ensures Collect(f, s[..i + 1]) == Collect(f, s[..i]) + (match f(s[i]) case None => [] case Some(y) => [y])
  {
    assert s[..i + 1][..i] == s[..i];
  }

  lemma {:induction false} CollectWhole<T, U>(f: T -> Option<U>, s: seq<T>)
    ensures Collect(f, s[..|s|]) == Collect(f, s)
    ensures Collect(f, s[..0]) == []
  {
    assert s[..|s|] == s;
  }

  lemma {:induction false} CollectMember<T, U>(f: T -> Option<U>, s: seq<T>, y: U)
    ensures y in Collect(f, s) <==> exists x :: x in s && f(x) == Some(y)
  {
    if s == [] {
    } else {
      var last := s[|s| - 1];
      CollectMember(f, s[..|s| - 1], y);
      assert s == s[..|s| - 1] + [last];
    }
  }

  lemma {:induction false} CollectConcat<T, U>(f: T -> Option<U>, a: seq<T>, b: seq<T>)
    ensures Collect(f, a + b) == Collect(f, a) + Collect(f, b)
  {
    if b == [] {
      assert a + b == a;
    } else {
      CollectConcat(f, a, b[..|b| - 1]);
      assert (a + b)[..|a + b| - 1] == a + b[..|b| - 1];
    }
  }

  /** A function without results collects nothing. */
  lemma {:induction false} CollectsNothing<T, U>(f: T -> Option<U>, s: seq<T>)
    requires forall x :: x in s ==> f(x) == None
    ensures Collect(f, s) == []
  {
    if s != [] {
      CollectsNothing(f, s[..|s| - 1]);
    }
  }

  /** Functions that agree on the elements of s collect the same results. */
  lemma {:induction false} CollectAgree<T, U>(f: T -> Option<U>, g: T -> Option<U>, s: seq<T>)
    requires forall x :: x in s ==> f(x) == g(x)
    ensures Collect(f, s) == Collect(g, s)
  {
    if s == [] {
    } else {
      CollectAgree(f, g, s[..|s| - 1]);
    }
  }

  /** Taking an element out of its place. */
  lemma {:induction false} WithoutOne<T>(s: seq<T>, t: seq<T>, i: nat)
    requires s != [] && multiset(s) == multiset(t) && i < |t| && t[i] == s[|s| - 1]
    ensures multiset(s[..|s| - 1]) == multiset(t[..i] + t[i + 1..])
  {
    assert s == s[..|s| - 1] + [t[i]];
    assert t == t[..i] + [t[i]] + t[i + 1..];
    assert multiset(s[..|s| - 1]) == multiset(s) - multiset{t[i]};
    assert multiset(t[..i] + t[i + 1..]) == multiset(t) - multiset{t[i]};
  }

  lemma {:induction false} CollectAround<T, U>(f: T -> Option<U>, t: seq<T>, i: nat)
    requires i < |t|
    ensures Collect(f, t) == Collect(f, t[..i]) + Collect(f, [t[i]]) + Collect(f, t[i + 1..])
    ensures Collect(f, t[..i] + t[i + 1..]) == Collect(f, t[..i]) + Collect(f, t[i + 1..])
  {
    assert t == t[..i] + [t[i]] + t[i + 1..];
    CollectConcat(f, t[..i] + [t[i]], t[i + 1..]);
    CollectConcat(f, t[..i], [t[i]]);
    CollectConcat(f, t[..i], t[i + 1..]);
  }

  /** Reordering the input reorders the output. */
  lemma {:induction false} CollectPermutes<T, U>(f: T -> Option<U>, s: seq<T>, t: seq<T>)
    requires multiset(s) == multiset(t)
    ensures multiset(Collect(f, s)) == multiset(Collect(f, t))
    decreases |s|
  {
    if s == [] {
      assert |multiset(t)| == |t|;
    } else {
      var n := |s| - 1;
      assert s[n] in multiset(t);
      var i :| 0 <= i < |t| && t[i] == s[n];
      WithoutOne(s, t, i);
      CollectPermutes(f, s[..n], t[..i] + t[i + 1..]);
      CollectAround(f, t, i);
      CollectAround(f, s, n);
      assert s[n + 1..] == [] && Collect(f, s[n + 1..]) == [];
    }
  }

  /** Sequences whose elements collect alike, one by one, collect to the same result. */
  lemma {:induction false} CollectAligned<S, T, U>(f: S -> Option<U>, g: T -> Option<U>, s: seq<S>, t: seq<T>)
    requires |s| == |t| && forall i :: 0 <= i < |s| ==> f(s[i]) == g(t[i])
    ensures Collect(f, s) == Collect(g, t)
  {
    if s != [] {
      CollectAligned(f, g, s[..|s| - 1], t[..|t| - 1]);
    }
  }

  /** If corresponding elements collect to values related by r, so do the results, position by position. */
  lemma {:induction false} CollectRelated<S, T, U, V>(f: S -> Option<U>, g: T -> Option<V>, r: (U, V) -> bool, s: seq<S>, t: seq<T>)
    requires |s| == |t|
    requires forall i :: 0 <= i < |s| ==>
               f(s[i]).Some? == g(t[i]).Some? && (f(s[i]).Some? ==> r(f(s[i]).value, g(t[i]).value))
    ensures |Collect(f, s)| == |Collect(g, t)|
    ensures forall i :: 0 <= i < |Collect(f, s)| ==> r(Collect(f, s)[i], Collect(g, t)[i])
  {
    if s != [] {
      CollectRelated(f, g, r, s[..|s| - 1], t[..|t| - 1]);
    }
  }

  /** Collecting twice is collecting with the composed function. */
  lemma {:induction false} CollectCompose<S, T, U>(f: S -> Option<T>, g: T -> Option<U>, h: S -> Option<U>, s: seq<S>)
    requires forall x :: x in s ==> h(x) == match f(x) case None => None case Some(y) => g(y)
    ensures Collect(g, Collect(f, s)) == Collect(h, s)
  {
    if s != [] {
      var rest, last := s[..|s| - 1], s[|s| - 1];
      CollectCompose(f, g, h, rest);
      if f(last).Some? {
        assert (Collect(f, rest) + [f(last).value])[..|Collect(f, rest)|] == Collect(f, rest);
      }
    }
  }

  /** A sequence without repetition has each element once. */
  lemma {:induction false} OnceEach<T>(s: seq<T>, x: T)
    requires forall i, j :: 0 <= i < j < |s| ==> s[i] != s[j]
    ensures multiset(s)[x] <= 1
  {
    if s != [] {
      var last := s[|s| - 1];
      OnceEach(s[..|s| - 1], x);
      assert s == s[..|s| - 1] + [last];
      if x == last {
        assert x !in s[..|s| - 1];
      }
    }
  }

  lemma {:induction false} TwiceIn<T>(s: seq<T>, i: nat, j: nat)
    requires i < j < |s| && s[i] == s[j]
    ensures multiset(s)[s[i]] >= 2
  {
    assert s == s[..j] + [s[j]] + s[j + 1..];
    assert s[..j][i] == s[i];
    assert s[i] in multiset(s[..j]);
  }

  /** Bytewise order on names, as the language compares strings. */
  predicate NameLe(a: string, b: string)
  {
    a == "" || (b != "" && (a[0] < b[0] || (a[0] == b[0] && NameLe(a[1..], b[1..]))))
  }

  /** A name comes first if the other continues it, or at the first place where they differ it has the lesser
      character. */
  lemma {:induction false} NameLeMeaning(a: string, b: string)
    ensures NameLe(a, b) <==> a <= b || exists i :: 0 <= i < |a| && i < |b| && a[..i] == b[..i] && a[i] < b[i]
  {
    if a != "" && b != "" {
      NameLeMeaning(a[1..], b[1..]);
      if a[0] == b[0] {
        if i :| 0 <= i < |a[1..]| && i < |b[1..]| && a[1..][..i] == b[1..][..i] && a[1..][i] < b[1..][i] {
          assert a[..i + 1] == [a[0]] + a[1..][..i] && b[..i + 1] == [b[0]] + b[1..][..i];
          assert a[i + 1] < b[i + 1];
        }
        if i :| 0 <= i < |a| && i < |b| && a[..i] == b[..i] && a[i] < b[i] {
          assert a[1..][..i - 1] == a[..i][1..] && b[1..][..i - 1] == b[..i][1..];
          assert a[1..][i - 1] < b[1..][i - 1];
        }
      } else {
        assert a[..0] == b[..0];
        if i :| 0 <= i < |a| && i < |b| && a[..i] == b[..i] && a[i] < b[i] {
          assert i > 0 ==> a[..i][0] == b[..i][0];
        }
      }
    }
  }

  lemma {:induction false} NameLeTotal(a: string, b: string)
    ensures NameLe(a, b) || NameLe(b, a)
    ensures NameLe(a, b) && NameLe(b, a) ==> a == b
  {
    if a == "" || b == "" {
    } else {
      NameLeTotal(a[1..], b[1..]);
      assert a == [a[0]] + a[1..] && b == [b[0]] + b[1..];
    }
  }

  lemma {:induction false} NameLeTransitive(a: string, b: string, c: string)
    requires NameLe(a, b) && NameLe(b, c)
    ensures NameLe(a, c)
  {
    if a != "" && a[0] == b[0] && b[0] == c[0] {
      NameLeTransitive(a[1..], b[1..], c[1..]);
    }
  }
}
