/**
 * A JavaScript `Set` of object references, seen through its iteration order:
 * a sequence in which no element occurs twice, kept in insertion order.
 * `Array.from(set)` yields exactly this sequence.
 */
module OrderedSet {

  predicate NoDuplicates<T(==)>(s: seq<T>) {
    forall i, j | 0 <= i < j < |s| :: s[i] != s[j]
  }

  /** `Set.prototype.add`: appends `x` unless it is already a member. */
  function Add<T(==)>(s: seq<T>, x: T): (r: seq<T>)
    ensures x in r && forall y | y in s :: y in r
    ensures forall y | y in r :: y in s || y == x
    ensures |r| == if x in s then |s| else |s| + 1
    ensures |s| <= |r| && r[..|s|] == s
    ensures NoDuplicates(s) ==> NoDuplicates(r)
  {
    if x in s then s else s + [x]
  }

  /** `Set.prototype.delete`: removes `x` if it is a member, keeping the order of the others. */
  function Delete<T(==)>(s: seq<T>, x: T): (r: seq<T>)
    ensures x !in r && forall y | y in r :: y in s
    ensures forall y | y in s && y != x :: y in r
    ensures x !in s ==> r == s
    ensures |r| <= |s|
    ensures NoDuplicates(s) ==> NoDuplicates(r)
    ensures NoDuplicates(s) && x in s ==> |r| == |s| - 1
  {
    if s == [] then []
    else if s[0] == x then Delete(s[1..], x)
    else
      var rest := Delete(s[1..], x);
      NoDuplicatesCons(s);
      assert NoDuplicates(s) ==> NoDuplicates([s[0]] + rest) by {
        if NoDuplicates(s) { NoDuplicatesPrepend(s[0], rest); }
      }
      [s[0]] + rest
  }

  /** The tail of a duplicate-free sequence is duplicate-free and does not hold its head. */
  lemma NoDuplicatesCons<T>(s: seq<T>)
    requires s != []
    ensures NoDuplicates(s) ==> s[0] !in s[1..] && NoDuplicates(s[1..])
  {
  }

  lemma NoDuplicatesPrepend<T>(a: T, t: seq<T>)
    requires a !in t && NoDuplicates(t)
    ensures NoDuplicates([a] + t)
  {
    var s := [a] + t;
    forall i, j | 0 <= i < j < |s| ensures s[i] != s[j] {
      assert s[j] == t[j - 1];
      if i > 0 { assert s[i] == t[i - 1]; }
    }
  }

  /** Deleting twice is deleting once: a repeated `delete` is a no-op. */
  lemma DeleteIdempotent<T>(s: seq<T>, x: T)
    ensures Delete(Delete(s, x), x) == Delete(s, x)
  {
  }

  /**
   * `Delete` is an in-order filter: it works piecewise over a concatenation and
   * keeps a single element exactly when that element is not `x`.
   */
  lemma {:induction false} DeleteConcat<T>(a: seq<T>, b: seq<T>, x: T)
    ensures Delete(a + b, x) == Delete(a, x) + Delete(b, x)
    ensures forall y :: Delete([y], x) == if y == x then [] else [y]
  {
    if a == [] {
      assert a + b == b;
    } else {
      assert (a + b)[0] == a[0];
      assert (a + b)[1..] == a[1..] + b;
      DeleteConcat(a[1..], b, x);
    }
    forall y ensures Delete([y], x) == if y == x then [] else [y] {
      assert [y][1..] == [];
    }
  }

  /** Adding a fresh element and deleting it again restores the set. */
  lemma {:induction false} DeleteAdded<T>(s: seq<T>, x: T)
    requires x !in s
    ensures Delete(Add(s, x), x) == s
  {
    if s != [] {
      assert Add(s, x)[1..] == Add(s[1..], x);
      DeleteAdded(s[1..], x);
    }
  }
}
