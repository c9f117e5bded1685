/** Generic facts about the maps and lists the engine fills in loops. */
module Collections {

  /** The map a Go loop `for _, x := range xs { if keep(x) { m[key(x)] = val(x) } }` leaves:
      later entries overwrite earlier ones. */
  function Assign<T, K, V>(xs: seq<T>, keep: T -> bool, key: T -> K, val: T -> V): map<K, V>
  {
    if xs == [] then map[]
    else
      var m := Assign(xs[..|xs| - 1], keep, key, val);
      var x := xs[|xs| - 1];
      if keep(x) then m[key(x) := val(x)] else m
  }

  /** A key is present exactly when some kept entry has it. */
  lemma {:induction false} AssignDomain<T, K, V>(xs: seq<T>, keep: T -> bool, key: T -> K, val: T -> V, k: K)
    ensures k in Assign(xs, keep, key, val) <==> exists i :: 0 <= i < |xs| && keep(xs[i]) && key(xs[i]) == k
  {
    if xs != [] {
      var ys := xs[..|xs| - 1];
      AssignDomain(ys, keep, key, val, k);
      if exists i :: 0 <= i < |ys| && keep(ys[i]) && key(ys[i]) == k {
        var i :| 0 <= i < |ys| && keep(ys[i]) && key(ys[i]) == k;
        assert xs[i] == ys[i];
      }
      if exists i :: 0 <= i < |xs| && keep(xs[i]) && key(xs[i]) == k {
        var i :| 0 <= i < |xs| && keep(xs[i]) && key(xs[i]) == k;
        if i < |ys| { assert ys[i] == xs[i]; }
      }
    }
  }

  /** Every stored value was produced from a kept entry under its own key. */
  lemma {:induction false} AssignValue<T, K, V>(xs: seq<T>, keep: T -> bool, key: T -> K, val: T -> V, k: K)
    requires k in Assign(xs, keep, key, val)
    ensures exists i :: 0 <= i < |xs| && keep(xs[i]) && key(xs[i]) == k && Assign(xs, keep, key, val)[k] == val(xs[i])
  {
    var ys := xs[..|xs| - 1];
    var x := xs[|xs| - 1];
    if keep(x) && key(x) == k {
      assert keep(xs[|xs| - 1]) && key(xs[|xs| - 1]) == k;
    } else {
      AssignValue(ys, keep, key, val, k);
      var i :| 0 <= i < |ys| && keep(ys[i]) && key(ys[i]) == k && Assign(ys, keep, key, val)[k] == val(ys[i]);
      assert xs[i] == ys[i];
    }
  }

  /** Last write wins: the value under a key is the one from the last kept entry with that key. */
  lemma {:induction false} AssignLastWins<T, K, V>(xs: seq<T>, keep: T -> bool, key: T -> K, val: T -> V, j: nat)
    requires j < |xs| && keep(xs[j])
    requires forall i :: j < i < |xs| && keep(xs[i]) ==> key(xs[i]) != key(xs[j])
    ensures key(xs[j]) in Assign(xs, keep, key, val)
    ensures Assign(xs, keep, key, val)[key(xs[j])] == val(xs[j])
  {
    var ys := xs[..|xs| - 1];
    if j < |xs| - 1 {
      assert ys[j] == xs[j];
      forall i | j < i < |ys| && keep(ys[i]) ensures key(ys[i]) != key(ys[j]) {
        assert ys[i] == xs[i];
      }
      AssignLastWins(ys, keep, key, val, j);
    }
  }

  /** No element occurs twice. */
  ghost predicate NoDup<T>(s: seq<T>)
  {
    forall i, j :: 0 <= i < j < |s| ==> s[i] != s[j]
  }

  /** `names` lists the keys of `m`, each once (some iteration order of a Go map). */
  ghost predicate Enumerates<K(!new), V>(names: seq<K>, m: map<K, V>)
  {
    NoDup(names) && (forall n :: n in names <==> n in m)
  }

  /** The keys of `m` in the order a Go `range` over it visits them: some order, each once. */
  method MapKeys<K(!new), V>(m: map<K, V>) returns (names: seq<K>)
    ensures Enumerates(names, m)
  {
    names := [];
    var rest := m.Keys;
    while rest != {}
      invariant rest <= m.Keys
      invariant forall n :: n in names <==> n in m && n !in rest
      invariant NoDup(names)
      decreases |rest|
    {
      var n :| n in rest;
      names := names + [n];
      rest := rest - {n};
    }
  }

  /** The list a Go loop `for _, x := range xs { out = append(out, f(x)) }` builds. */
  function Mapped<T, U>(xs: seq<T>, f: T -> U): seq<U>
  {
    if xs == [] then [] else Mapped(xs[..|xs| - 1], f) + [f(xs[|xs| - 1])]
  }

  /** One entry per element, each the image of the element at its index. */
  lemma {:induction false} MappedAt<T, U>(xs: seq<T>, f: T -> U)
    ensures |Mapped(xs, f)| == |xs|
    ensures forall i :: 0 <= i < |xs| ==> Mapped(xs, f)[i] == f(xs[i])
  {
    if xs != [] {
      var init := xs[..|xs| - 1];
      MappedAt(init, f);
      assert forall i :: 0 <= i < |init| ==> init[i] == xs[i];
    }
  }

  /** Append `x` unless it is already there: one step of printing through a `printed` set.
      What was printed stays in place; a new element goes at the end. */
  function AddOnce<T(==,!new)>(s: seq<T>, x: T): (r: seq<T>)
    ensures NoDup(s) ==> NoDup(r)
    ensures x in r && forall y :: y in r <==> y in s || y == x
    ensures s <= r && (x in s ==> r == s)
    ensures x !in s ==> |r| == |s| + 1 && r[|s|] == x
  {
    if x in s then s else s + [x]
  }
}
