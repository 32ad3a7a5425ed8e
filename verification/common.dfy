/** Small shared vocabulary: optional values, failure-compatible results,
    bytes, and the substring test used on header values. */
module Common {

  /** Swift's `Optional`. */
  datatype Option<+T> = None | Some(value: T) {

    /** The `??` operator: the wrapped value, or `fallback` when absent. */
    function GetOr(fallback: T): T {
      match this
      case Some(v) => v
      case None => fallback
    }
  }

  /** A value or the error a throwing Swift call would raise; usable with `:-`. */
  datatype Result<+T, +E> = Success(value: T) | Failure(error: E) {

    predicate IsFailure() {
      Failure?
    }

    function PropagateFailure<U>(): Result<U, E>
      requires Failure?
    {
      Failure(error)
    }

    function Extract(): T
      requires Success?
    {
      value
    }
  }

  /** One octet of a Swift `Data` value. */
  newtype Byte = x: int | 0 <= x < 256

  type Bytes = seq<Byte>

  /** `s.contains(part)` for strings: `part` occurs as a contiguous run of `s`. */
  predicate Contains(s: string, part: string)
    decreases |s|
  {
    if |s| < |part| then false
    else s[..|part|] == part || Contains(s[1..], part)
  }

  /** `part` occurs in `s` as the run starting at index `i`. */
  predicate OccursAt(s: string, part: string, i: int) {
    0 <= i && i + |part| <= |s| && s[i..i + |part|] == part
  }

  /** `Contains` is substring search: it holds exactly when `part` occurs at some
      position of `s`. */
  lemma {:induction false} ContainsIffOccurs(s: string, part: string)
    ensures Contains(s, part) <==> exists i :: OccursAt(s, part, i)
    decreases |s|
  {
    if |s| >= |part| {
      if s[..|part|] == part {
        assert OccursAt(s, part, 0);
      } else {
        assert s != [];
        ContainsIffOccurs(s[1..], part);
        if Contains(s[1..], part) {
          var j :| OccursAt(s[1..], part, j);
          assert s[1..][j..j + |part|] == s[j + 1..j + 1 + |part|];
          assert OccursAt(s, part, j + 1);
        }
        if exists i :: OccursAt(s, part, i) {
          var i :| OccursAt(s, part, i);
          assert s[..|part|] == s[0..|part|];
          assert s[1..][i - 1..i - 1 + |part|] == s[i..i + |part|];
          assert OccursAt(s[1..], part, i - 1);
        }
      }
    }
  }

  /** No occurrence is possible when no candidate start position carries the first
      character of `part`. */
  lemma {:induction false} NotContainsWithoutFirstChar(s: string, part: string)
    requires |part| > 0
    requires forall i | 0 <= i <= |s| - |part| :: s[i] != part[0]
    ensures !Contains(s, part)
    decreases |s|
  {
    if |s| >= |part| {
      assert s[..|part|][0] == s[0];
      assert s[..|part|] != part;
      NotContainsWithoutFirstChar(s[1..], part);
    }
  }

  /** A string contains itself. */
  lemma ContainsSelf(s: string)
    ensures Contains(s, s)
  {
    assert s[..|s|] == s;
  }

  /** Pointwise images of two permutations of one another are permutations of one
      another. */
  lemma {:induction false} MapPermutation<A, B>(g: A -> B, a: seq<A>, b: seq<A>, xs: seq<B>, ys: seq<B>)
    requires multiset(a) == multiset(b)
    requires |xs| == |a| && |ys| == |b|
    requires forall i | 0 <= i < |a| :: xs[i] == g(a[i])
    requires forall j | 0 <= j < |b| :: ys[j] == g(b[j])
    ensures multiset(xs) == multiset(ys)
    decreases |a|
  {
    if |a| == 0 {
      assert |b| == |multiset(b)| == 0;
    } else {
      var x := a[0];
      assert x in multiset(b);
      var j :| 0 <= j < |b| && b[j] == x;
      var b' := b[..j] + b[j + 1..];
      var ys' := ys[..j] + ys[j + 1..];
      RemoveAt(b, j);
      RemoveAt(ys, j);
      RemoveAtMapped(g, b, ys, j, b', ys');
      assert a == [x] + a[1..];
      assert xs == [xs[0]] + xs[1..];
      MapPermutation(g, a[1..], b', xs[1..], ys');
    }
  }

  /** Removing the same position from a sequence and from its image keeps the
      second the image of the first. */
  lemma RemoveAtMapped<A, B>(g: A -> B, b: seq<A>, ys: seq<B>, j: int, b': seq<A>, ys': seq<B>)
    requires 0 <= j < |b| == |ys|
    requires forall i | 0 <= i < |b| :: ys[i] == g(b[i])
    requires b' == b[..j] + b[j + 1..] && ys' == ys[..j] + ys[j + 1..]
    ensures |ys'| == |b'|
    ensures forall k | 0 <= k < |b'| :: ys'[k] == g(b'[k])
  {
    forall k | 0 <= k < |b'|
      ensures ys'[k] == g(b'[k])
    {
      if k < j {
        assert b'[k] == b[k] && ys'[k] == ys[k];
      } else {
        assert b'[k] == b[k + 1] && ys'[k] == ys[k + 1];
      }
    }
  }

  /** Removing the element at `j` removes one copy of it from the multiset. */
  lemma RemoveAt<T>(s: seq<T>, j: int)
    requires 0 <= j < |s|
    ensures multiset(s[..j] + s[j + 1..]) == multiset(s) - multiset{s[j]}
  {
    assert s == s[..j] + [s[j]] + s[j + 1..];
  }
}
