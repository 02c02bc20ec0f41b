/** Optional values and results with an error payload, shared by every module. */
module Wrappers {

  datatype Option<T> = None | Some(value: T)
  {
    function GetOr(default: T): (r: T)
      ensures this.Some? ==> r == value
      ensures this.None? ==> r == default
    {
      match this
      case Some(v) => v
      case None => default
    }
  }

  datatype Result<T, E> = Ok(value: T) | Err(error: E)

  /** `r` with `done` put in front of its value; a failure stays as it is. */
  function PrependOk<T, E>(done: seq<T>, r: Result<seq<T>, E>): Result<seq<T>, E>
  {
    match r
    case Ok(rest) => Ok(done + rest)
    case Err(e) => Err(e)
  }

  lemma PrependNothing<T, E>(r: Result<seq<T>, E>)
    ensures PrependOk([], r) == r
  {
    if r.Ok? {
      assert [] + r.value == r.value;
    }
  }

  /** Putting `done` and then `x` in front is putting `done + [x]` in front. */
  lemma PrependOkSnoc<T, E>(done: seq<T>, x: T, r: Result<seq<T>, E>)
    ensures PrependOk(done, PrependOk([x], r)) == PrependOk(done + [x], r)
  {
    if r.Ok? {
      assert done + ([x] + r.value) == (done + [x]) + r.value;
    }
  }

  /** The values `f` yields on the elements of `xs`, in order, skipping the elements it maps to None. */
  function FilterMap<A, B>(f: A -> Option<B>, xs: seq<A>): (r: seq<B>)
    ensures |r| <= |xs|
  {
    if |xs| == 0 then []
    else
      var rest := FilterMap(f, xs[1..]);
      match f(xs[0])
      case None => rest
      case Some(y) => [y] + rest
  }

  /** The `k`-th value kept comes from element `j`. */
  lemma {:induction false} FilterMapSource<A, B>(f: A -> Option<B>, xs: seq<A>, k: nat) returns (j: nat)
    requires k < |FilterMap(f, xs)|
    ensures j < |xs| && f(xs[j]) == Some(FilterMap(f, xs)[k])
  {
    var rest := FilterMap(f, xs[1..]);
    if f(xs[0]).Some? && k == 0 {
      j := 0;
    } else {
      var k' := if f(xs[0]).Some? then k - 1 else k;
      assert FilterMap(f, xs)[k] == rest[k'];
      var j' := FilterMapSource(f, xs[1..], k');
      assert xs[j' + 1] == xs[1..][j'];
      j := j' + 1;
    }
  }

  /** Every element that `f` maps to a value contributes it. */
  lemma {:induction false} FilterMapKeeps<A, B>(f: A -> Option<B>, xs: seq<A>, j: nat)
    requires j < |xs| && f(xs[j]).Some?
    ensures f(xs[j]).value in FilterMap(f, xs)
  {
    if j > 0 {
      assert xs[1..][j - 1] == xs[j];
      FilterMapKeeps(f, xs[1..], j - 1);
    }
  }
}
