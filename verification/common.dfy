/** Small failure-carrying datatypes and string helpers shared by every module of the model. */
module Common {

  /** Swift's optional: `nil` or a wrapped value. */
  datatype Option<+T> = None | Some(value: T) {

    /** The wrapped value, or `default` for `nil` (Swift's `??`). */
    function GetOr(default: T): T {
      match this
      case Some(v) => v
      case None => default
    }
  }

  /** The outcome of a Swift call that can `throw`. */
  datatype Result<+T, +E> = Success(value: T) | Failure(error: E)

  /** `s.hasPrefix(p)`. */
  predicate HasPrefix(s: string, p: string) {
    |p| <= |s| && s[..|p|] == p
  }

  /** What follows `p` in `s`, when `s` starts with `p`. */
  function DropPrefix(s: string, p: string): (r: Option<string>)
    ensures r.Some? <==> HasPrefix(s, p)
    ensures r.Some? ==> s == p + r.value
  {
    if HasPrefix(s, p) then Some(s[|p|..]) else None
  }

  /** A prefix glued on is found again, and what follows it is returned unchanged. */
  lemma DropPrefixOfConcat(p: string, m: string)
    ensures DropPrefix(p + m, p) == Some(m)
  {
    assert (p + m)[..|p|] == p;
    assert (p + m)[|p|..] == m;
  }

  /** Applies a partial function to every element; `None` as soon as one application fails. */
  function Traverse<T, U>(f: T -> Option<U>, xs: seq<T>): (r: Option<seq<U>>)
    ensures r.Some? <==> forall i :: 0 <= i < |xs| ==> f(xs[i]).Some?
    ensures r.Some? ==> |r.value| == |xs| && forall i :: 0 <= i < |xs| ==> r.value[i] == f(xs[i]).value
    decreases |xs|
  {
    if xs == [] then Some([])
    else match f(xs[0])
      case None => None
      case Some(y) =>
        match Traverse(f, xs[1..])
        case None =>
          assert exists i :: 1 <= i < |xs| && f(xs[i]).None? by {
            var i :| 0 <= i < |xs[1..]| && f(xs[1..][i]).None?;
            assert f(xs[i + 1]).None?;
          }
          None
        case Some(ys) => Some([y] + ys)
  }

  /** Traversing two sequences one after the other traverses their concatenation. */
  lemma TraverseAppend<T, U>(f: T -> Option<U>, a: seq<T>, b: seq<T>)
    requires Traverse(f, a).Some? && Traverse(f, b).Some?
    ensures Traverse(f, a + b) == Some(Traverse(f, a).value + Traverse(f, b).value)
  {
    var ab := a + b;
    forall i | 0 <= i < |ab| ensures f(ab[i]).Some? {
      if i < |a| { assert ab[i] == a[i]; } else { assert ab[i] == b[i - |a|]; }
    }
    var r := Traverse(f, ab).value;
    var x, y := Traverse(f, a).value, Traverse(f, b).value;
    forall i | 0 <= i < |ab| ensures r[i] == (x + y)[i] {
      if i < |a| { assert ab[i] == a[i]; } else { assert ab[i] == b[i - |a|]; }
    }
    assert |r| == |x + y|;
    assert r == x + y;
  }
}
