/** Lists of records that carry a string id. Both the schedule list and the
    pet list are edited with the same two array idioms: a `filter` that drops
    every record with a given id, and a `map` that rewrites every record with
    a given id and copies the others. */
module Keyed {

  /** `s.filter((x) => key(x) !== id)`. */
  function Without<T>(s: seq<T>, key: T -> string, id: string): (r: seq<T>)
    ensures forall i :: 0 <= i < |r| ==> key(r[i]) != id
    ensures (forall i :: 0 <= i < |s| ==> key(s[i]) != id) ==> r == s
    ensures |r| <= |s|
  {
    if s == [] then []
    else if key(s[0]) == id then Without(s[1..], key, id)
    else [s[0]] + Without(s[1..], key, id)
  }

  /** Exactly the records with another id survive. */
  lemma {:induction false} WithoutKeepsOthers<T>(s: seq<T>, key: T -> string, id: string)
    ensures forall x :: x in Without(s, key, id) <==> x in s && key(x) != id
  {
    if s != [] {
      WithoutKeepsOthers(s[1..], key, id);
      assert s == [s[0]] + s[1..];
    }
  }

  /** The survivors keep their relative order: filtering two halves and
      joining them gives the filter of the whole. */
  lemma {:induction false} WithoutConcat<T>(a: seq<T>, b: seq<T>, key: T -> string, id: string)
    ensures Without(a + b, key, id) == Without(a, key, id) + Without(b, key, id)
  {
    if a != [] {
      assert (a + b)[0] == a[0] && (a + b)[1..] == a[1..] + b;
      WithoutConcat(a[1..], b, key, id);
    } else {
      assert a + b == b;
    }
  }

  /** Filtering the same id a second time changes nothing. */
  lemma WithoutIdempotent<T>(s: seq<T>, key: T -> string, id: string)
    ensures Without(Without(s, key, id), key, id) == Without(s, key, id)
  {
  }

  /** Filtering out the id of a record `x` from a list around it is
      filtering it out of the records before `x` and of those after it. */
  lemma WithoutAround<T>(a: seq<T>, x: T, b: seq<T>, key: T -> string)
    ensures Without(a + [x] + b, key, key(x)) == Without(a, key, key(x)) + Without(b, key, key(x))
  {
    var id := key(x);
    WithoutConcat(a + [x], b, key, id);
    WithoutConcat(a, [x], key, id);
    assert Without([x], key, id) == [] by {
      assert [x][1..] == [];
    }
  }

  /** The same split at an index of the list. */
  lemma WithoutSplit<T>(s: seq<T>, key: T -> string, k: nat)
    requires k < |s|
    ensures Without(s, key, key(s[k])) == Without(s[..k], key, key(s[k])) + Without(s[k + 1..], key, key(s[k]))
  {
    AroundIndex(s, k);
    WithoutAround(s[..k], s[k], s[k + 1..], key);
  }

  /** A list is its records before `k`, the one at `k`, and those after. */
  lemma AroundIndex<T>(s: seq<T>, k: nat)
    requires k < |s|
    ensures s == s[..k] + [s[k]] + s[k + 1..]
  {
  }

  /** When only the record at `k` has its id, exactly that record goes. */
  lemma WithoutOne<T>(s: seq<T>, key: T -> string, k: nat)
    requires k < |s|
    requires forall j :: 0 <= j < |s| && j != k ==> key(s[j]) != key(s[k])
    ensures Without(s, key, key(s[k])) == s[..k] + s[k + 1..]
  {
    var id, pre, post := key(s[k]), s[..k], s[k + 1..];
    assert Without(pre, key, id) == pre by {
      forall i | 0 <= i < |pre| ensures key(pre[i]) != id { assert pre[i] == s[i]; }
    }
    assert Without(post, key, id) == post by {
      forall i | 0 <= i < |post| ensures key(post[i]) != id { assert post[i] == s[k + 1 + i]; }
    }
    WithoutSplit(s, key, k);
  }

  /** `s.map((x) => key(x) === id ? f(x) : x)`. */
  function MapWhere<T>(s: seq<T>, key: T -> string, id: string, f: T -> T): (r: seq<T>)
    ensures |r| == |s|
    ensures forall i :: 0 <= i < |s| && key(s[i]) != id ==> r[i] == s[i]
    ensures forall i :: 0 <= i < |s| && key(s[i]) == id ==> r[i] == f(s[i])
  {
    if s == [] then []
    else [if key(s[0]) == id then f(s[0]) else s[0]] + MapWhere(s[1..], key, id, f)
  }

  /** A rewrite that keeps the id keeps every record's id. */
  lemma MapWhereKeepsKeys<T>(s: seq<T>, key: T -> string, id: string, f: T -> T)
    requires forall x :: key(f(x)) == key(x)
    ensures forall i :: 0 <= i < |s| ==> key(MapWhere(s, key, id, f)[i]) == key(s[i])
  {
  }

  /** Two rewrites of the same id, the first keeping ids, are one rewrite
      by their composition. */
  lemma MapWhereTwice<T>(s: seq<T>, key: T -> string, id: string, f: T -> T, g: T -> T)
    requires forall x :: key(f(x)) == key(x)
    ensures MapWhere(MapWhere(s, key, id, f), key, id, g) == MapWhere(s, key, id, x => g(f(x)))
  {
    var twice, once := MapWhere(MapWhere(s, key, id, f), key, id, g), MapWhere(s, key, id, x => g(f(x)));
    forall i | 0 <= i < |s| ensures twice[i] == once[i] {
    }
  }
}
