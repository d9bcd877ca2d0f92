/** Order-preserving filtering of sequences, and other facts about collections the modules share. */
module Sequences {

  /** The elements of s that satisfy p, in their order in s. */
  function Keep<T>(s: seq<T>, p: T -> bool): (kept: seq<T>)
    ensures |kept| <= |s|
  {
    if s == [] then [] else (if p(s[0]) then [s[0]] else []) + Keep(s[1..], p)
  }

  lemma {:induction false} KeepIn<T>(s: seq<T>, p: T -> bool, x: T)
    ensures x in Keep(s, p) <==> x in s && p(x)
  {
    if s != [] {
      KeepIn(s[1..], p, x);
      assert x in s <==> x == s[0] || x in s[1..];
    }
  }

  lemma {:induction false} KeepConcat<T>(a: seq<T>, b: seq<T>, p: T -> bool)
    ensures Keep(a + b, p) == Keep(a, p) + Keep(b, p)
  {
    if a == [] {
      assert a + b == b;
    } else {
      var first := if p(a[0]) then [a[0]] else [];
      assert (a + b)[0] == a[0] && (a + b)[1..] == a[1..] + b;
      calc {
        Keep(a + b, p);
        first + Keep(a[1..] + b, p);
        { KeepConcat(a[1..], b, p); }
        first + (Keep(a[1..], p) + Keep(b, p));
        Keep(a, p) + Keep(b, p);
      }
    }
  }

  /** Predicates that agree on the elements of s keep the same ones. */
  lemma {:induction false} KeepAgree<T>(s: seq<T>, p: T -> bool, q: T -> bool)
    requires forall x | x in s :: p(x) == q(x)
    ensures Keep(s, p) == Keep(s, q)
  {
    if s != [] {
      assert s[0] in s && forall x | x in s[1..] :: x in s;
      KeepAgree(s[1..], p, q);
    }
  }

  lemma {:induction false} KeepAll<T>(s: seq<T>, p: T -> bool)
    requires forall x | x in s :: p(x)
    ensures Keep(s, p) == s
  {
    if s != [] {
      assert s[0] in s && forall x | x in s[1..] :: x in s;
      KeepAll(s[1..], p);
    }
  }

  lemma {:induction false} KeepNone<T>(s: seq<T>, p: T -> bool)
    requires forall x | x in s :: !p(x)
    ensures Keep(s, p) == []
  {
    if s != [] {
      assert s[0] in s && forall x | x in s[1..] :: x in s;
      KeepNone(s[1..], p);
    }
  }

  /** Filters commute; a filter implied by the later one changes nothing. */
  lemma {:induction false} KeepKeep<T>(s: seq<T>, p: T -> bool, q: T -> bool)
    ensures Keep(Keep(s, p), q) == Keep(Keep(s, q), p)
    ensures (forall x | x in s :: q(x) ==> p(x)) ==> Keep(Keep(s, p), q) == Keep(s, q)
  {
    if s != [] {
      KeepKeep(s[1..], p, q);
      assert s[0] in s && forall x | x in s[1..] :: x in s;
      KeepConcat(if p(s[0]) then [s[0]] else [], Keep(s[1..], p), q);
      KeepConcat(if q(s[0]) then [s[0]] else [], Keep(s[1..], q), p);
    }
  }

  /** A filter that drops nothing returns its input. */
  lemma {:induction false} KeepFull<T>(s: seq<T>, p: T -> bool)
    ensures |Keep(s, p)| == |s| <==> forall x | x in s :: p(x)
  {
    if s != [] {
      KeepFull(s[1..], p);
      assert forall x :: x in s <==> x == s[0] || x in s[1..];
    }
  }

  lemma KeepNext<T>(s: seq<T>, i: nat, p: T -> bool)
    requires i < |s|
    ensures Keep(s[..i + 1], p) == Keep(s[..i], p) + if p(s[i]) then [s[i]] else []
  {
    assert s[..i + 1] == s[..i] + [s[i]];
    KeepConcat(s[..i], [s[i]], p);
  }

  /** A filter that drops one element only cuts it out. */
  lemma {:induction false} KeepCut<T>(s: seq<T>, i: nat, p: T -> bool)
    requires i < |s| && !p(s[i])
    requires forall j | 0 <= j < |s| && j != i :: p(s[j])
    ensures Keep(s, p) == s[..i] + s[i + 1..]
  {
    if i == 0 {
      KeepAll(s[1..], p);
    } else {
      KeepCut(s[1..], i - 1, p);
      assert s[1..][..i - 1] == s[1..i] && s[1..][i..] == s[i + 1..];
      assert s[..i] == [s[0]] + s[1..i];
    }
  }

  /** The image of s under f. */
  function Map<S, T>(s: seq<S>, f: S -> T): (t: seq<T>)
    ensures |t| == |s|
    ensures forall i | 0 <= i < |s| :: t[i] == f(s[i])
  {
    if s == [] then [] else [f(s[0])] + Map(s[1..], f)
  }

  lemma {:induction false} MapConcat<S, T>(a: seq<S>, b: seq<S>, f: S -> T)
    ensures Map(a + b, f) == Map(a, f) + Map(b, f)
  {
  }

  /** The value of a Go map lookup: the zero value when the key is absent. */
  function At<K, V>(m: map<K, V>, k: K, zero: V): V {
    if k in m then m[k] else zero
  }

  lemma Cardinal<T>(a: set<T>, b: set<T>)
    requires a <= b
    ensures |a| <= |b|
    ensures |a| == |b| ==> a == b
  {
    if a != b {
      var rest := b - a;
      assert b == a + rest && a !! rest && rest != {};
    }
  }

  /** m without k, if k is in it. */
  function Minus<K, V>(m: map<K, V>, k: K): map<K, V> {
    map j | j in m && j != k :: m[j]
  }
}
