/** Lists up to order: how the relational operators act on permuted inputs. */
module Permutations {

  ghost predicate Perm<T>(a: seq<T>, b: seq<T>) {
    multiset(a) == multiset(b)
  }

  /** The results of f on every element, one after the other. */
  ghost function FlatMap<A, B>(s: seq<A>, f: A -> seq<B>): seq<B> {
    if |s| == 0 then [] else f(s[0]) + FlatMap(s[1..], f)
  }

  lemma PermMembers<T>(a: seq<T>, b: seq<T>)
    requires Perm(a, b)
    ensures forall x :: x in a <==> x in b
    ensures |a| == |b|
  {
    forall x ensures x in a <==> x in b {
      assert x in a <==> x in multiset(a);
      assert x in b <==> x in multiset(b);
    }
    assert |a| == |multiset(a)| && |b| == |multiset(b)|;
  }

  lemma {:induction false} FlatMapConcat<A, B>(s: seq<A>, t: seq<A>, f: A -> seq<B>)
    ensures FlatMap(s + t, f) == FlatMap(s, f) + FlatMap(t, f)
  {
    if |s| == 0 {
      assert s + t == t;
    } else {
      FlatMapConcat(s[1..], t, f);
      assert (s + t)[1..] == s[1..] + t;
    }
  }

  /** Permuted inputs and pointwise permuted functions give permuted results. */
  lemma {:induction false} FlatMapPerm<A, B>(s: seq<A>, t: seq<A>, f: A -> seq<B>, g: A -> seq<B>)
    requires Perm(s, t)
    requires forall x :: x in s ==> Perm(f(x), g(x))
    ensures Perm(FlatMap(s, f), FlatMap(t, g))
  {
    PermMembers(s, t);
    if |s| > 0 {
      var k := Position(t, s[0]);
      WithoutFirst(s, t, k);
      FlatMapPerm(s[1..], t[..k] + t[k + 1..], f, g);
      FlatMapSplit(t, g, k);
    }
  }

  lemma Position<T>(t: seq<T>, x: T) returns (k: nat)
    requires x in t
    ensures k < |t| && t[k] == x
  {
    k :| 0 <= k < |t| && t[k] == x;
  }

  lemma WithoutFirst<T>(s: seq<T>, t: seq<T>, k: nat)
    requires Perm(s, t) && |s| > 0 && k < |t| && t[k] == s[0]
    ensures Perm(s[1..], t[..k] + t[k + 1..])
  {
    assert s == [s[0]] + s[1..];
    assert t == t[..k] + [t[k]] + t[k + 1..];
    assert multiset(s[1..]) == multiset(s) - multiset{s[0]};
    assert multiset(t[..k] + t[k + 1..]) == multiset(t) - multiset{t[k]};
  }

  lemma FlatMapSplit<A, B>(t: seq<A>, g: A -> seq<B>, k: nat)
    requires k < |t|
    ensures multiset(FlatMap(t, g)) == multiset(g(t[k])) + multiset(FlatMap(t[..k] + t[k + 1..], g))
  {
    FlatMapConcat(t[..k], t[k + 1..], g);
    FlatMapConcat(t[..k], t[k..], g);
    assert t == t[..k] + t[k..];
    assert t[k..][1..] == t[k + 1..];
  }

  ghost function Keep<T>(p: T -> bool): T -> seq<T> {
    x => if p(x) then [x] else []
  }

  ghost function Filter<T>(s: seq<T>, p: T -> bool): seq<T> {
    FlatMap(s, Keep(p))
  }

  ghost function One<A, B>(f: A -> B): A -> seq<B> {
    x => [f(x)]
  }

  ghost function Map<A, B>(s: seq<A>, f: A -> B): seq<B> {
    FlatMap(s, One(f))
  }

  lemma {:induction false} MapLength<A, B>(s: seq<A>, f: A -> B)
    ensures |Map(s, f)| == |s|
  {
    if |s| > 0 {
      MapLength(s[1..], f);
      assert Map(s, f) == One(f)(s[0]) + FlatMap(s[1..], One(f));
    }
  }

  lemma FilterPerm<T>(s: seq<T>, t: seq<T>, p: T -> bool, q: T -> bool)
    requires Perm(s, t)
    requires forall x :: x in s ==> p(x) == q(x)
    ensures Perm(Filter(s, p), Filter(t, q))
  {
    FlatMapPerm(s, t, Keep(p), Keep(q));
  }

  lemma MapPerm<A, B>(s: seq<A>, t: seq<A>, f: A -> B)
    requires Perm(s, t)
    ensures Perm(Map(s, f), Map(t, f))
  {
    FlatMapPerm(s, t, One(f), One(f));
  }

  /** The list without repetitions: the last of equal elements stays. */
  ghost function Dedup<T>(s: seq<T>): seq<T> {
    if |s| == 0 then []
    else if s[0] in s[1..] then Dedup(s[1..])
    else [s[0]] + Dedup(s[1..])
  }

  ghost function Elements<T>(s: seq<T>): set<T> {
    set x | x in s
  }

  lemma {:induction false} DedupElements<T>(s: seq<T>)
    ensures multiset(Dedup(s)) == multiset(Elements(s))
  {
    if |s| > 0 {
      DedupElements(s[1..]);
      assert s == [s[0]] + s[1..];
      assert Elements(s) == Elements(s[1..]) + {s[0]};
    }
  }

  lemma DedupPerm<T>(s: seq<T>, t: seq<T>)
    requires forall x :: x in s <==> x in t
    ensures Perm(Dedup(s), Dedup(t))
  {
    DedupElements(s);
    DedupElements(t);
    assert Elements(s) == Elements(t);
  }
}
