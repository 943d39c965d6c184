/** Options and the array methods the source uses, with the facts about reordering. */
module Seqs {

  datatype Option<+T> = None | Some(value: T)

  predicate Distinct<T(==)>(s: seq<T>) {
    forall i, j :: 0 <= i < j < |s| ==> s[i] != s[j]
  }

  function FlatMap<A, B>(f: A -> seq<B>, s: seq<A>): seq<B> {
    if s == [] then [] else f(s[0]) + FlatMap(f, s[1..])
  }

  lemma FlatMapHead<A, B>(f: A -> seq<B>, s: seq<A>, a: A, b: B)
    requires s != []
    ensures multiset(FlatMap(f, s))[b] == multiset(f(s[0]))[b] + multiset(FlatMap(f, s[1..]))[b]
    ensures multiset(s)[a] == (if s[0] == a then 1 else 0) + multiset(s[1..])[a]
  {
    assert s == [s[0]] + s[1..];
  }

  /** FlatMap distributes over concatenation. */
  lemma {:induction false} FlatMapConcat<A, B>(f: A -> seq<B>, s: seq<A>, t: seq<A>)
    ensures FlatMap(f, s + t) == FlatMap(f, s) + FlatMap(f, t)
  {
    if s == [] {
      assert s + t == t;
    } else {
      assert (s + t)[1..] == s[1..] + t;
      FlatMapConcat(f, s[1..], t);
    }
  }

  function Without<T>(s: seq<T>, k: nat): (r: seq<T>)
    requires k < |s|
    ensures multiset(s) == multiset{s[k]} + multiset(r)
  {
    assert s == s[..k] + ([s[k]] + s[k + 1..]);
    s[..k] + s[k + 1..]
  }

  lemma FlatMapWithout<A, B>(f: A -> seq<B>, s: seq<A>, k: nat)
    requires k < |s|
    ensures multiset(FlatMap(f, s)) == multiset(f(s[k])) + multiset(FlatMap(f, Without(s, k)))
  {
    hide FlatMap;
    var before, here, after := s[..k], [s[k]], s[k + 1..];
    assert s == before + here + after;
    FlatMapConcat(f, before + here, after);
    FlatMapConcat(f, before, here);
    FlatMapConcat(f, before, after);
    FlatMapOne(f, s[k]);
    Exchange(FlatMap(f, before), FlatMap(f, here), FlatMap(f, after));
  }

  lemma FlatMapOne<A, B>(f: A -> seq<B>, x: A)
    ensures FlatMap(f, [x]) == f(x)
  {
    assert FlatMap(f, [x][1..]) == [];
  }

  lemma Exchange<T>(a: seq<T>, b: seq<T>, c: seq<T>)
    ensures multiset(a + b + c) == multiset(b) + multiset(a + c)
  {
    assert multiset(a + b + c) == multiset(a + b) + multiset(c);
  }

  lemma Cancel<T>(x: multiset<T>, a: multiset<T>, b: multiset<T>)
    requires x + a == x + b
    ensures a == b
  {
    assert a == (x + a) - x && b == (x + b) - x;
  }

  /** Reordering the input only reorders the output. */
  lemma {:induction false} FlatMapReorder<A, B>(f: A -> seq<B>, s: seq<A>, t: seq<A>)
    requires multiset(s) == multiset(t)
    ensures multiset(FlatMap(f, s)) == multiset(FlatMap(f, t))
  {
    if s == [] {
      assert |multiset(t)| == 0;
    } else {
      assert s[0] in multiset(t);
      var k :| 0 <= k < |t| && t[k] == s[0];
      var rest := Without(t, k);
      assert Without(s, 0) == s[1..];
      Cancel(multiset{s[0]}, multiset(s[1..]), multiset(rest));
      FlatMapReorder(f, s[1..], rest);
      FlatMapWithout(f, t, k);
    }
  }

  /** Every output element comes from some input element. */
  lemma {:induction false} FlatMapSource<A, B>(f: A -> seq<B>, s: seq<A>, b: B)
    ensures b in FlatMap(f, s) <==> exists i :: 0 <= i < |s| && b in f(s[i])
  {
    if s != [] {
      FlatMapSource(f, s[1..], b);
      if i :| 0 <= i < |s[1..]| && b in f(s[1..][i]) {
        assert b in f(s[i + 1]);
      }
      if i :| 0 < i < |s| && b in f(s[i]) {
        assert b in f(s[1..][i - 1]);
      }
    }
  }

  /** A function giving one element per input element gives them in order. */
  lemma {:induction false} FlatMapSingle<A, B>(f: A -> seq<B>, s: seq<A>, r: seq<B>)
    requires |s| == |r| && forall i :: 0 <= i < |s| ==> f(s[i]) == [r[i]]
    ensures FlatMap(f, s) == r
  {
    if s != [] {
      FlatMapSingle(f, s[1..], r[1..]);
      assert r == [r[0]] + r[1..];
    }
  }

  /** FlatMap is empty exactly when it is empty on every element. */
  lemma {:induction false} FlatMapEmpty<A, B>(f: A -> seq<B>, s: seq<A>)
    ensures FlatMap(f, s) == [] <==> forall i :: 0 <= i < |s| ==> f(s[i]) == []
  {
    if s != [] {
      FlatMapEmpty(f, s[1..]);
      assert (forall i :: 0 <= i < |s| ==> f(s[i]) == [])
             <==> f(s[0]) == [] && (forall i :: 0 <= i < |s[1..]| ==> f(s[1..][i]) == []) by {
        if f(s[0]) == [] && (forall i :: 0 <= i < |s[1..]| ==> f(s[1..][i]) == []) {
          forall i | 0 <= i < |s| ensures f(s[i]) == [] {
            if i > 0 { assert s[i] == s[1..][i - 1]; }
          }
        }
        if forall i :: 0 <= i < |s| ==> f(s[i]) == [] {
          forall i | 0 <= i < |s[1..]| ensures f(s[1..][i]) == [] { assert s[1..][i] == s[i + 1]; }
        }
      }
    }
  }

}
