/** Running a step over a sequence the way a Python loop does: the first exception aborts the
    loop, otherwise every result is collected in order. */
module Results {
  import opened Wrappers
  import opened Collections

  /** `[f(x) for x in xs]`, stopping at the first crash. */
  function MapAll<A, B>(xs: seq<A>, f: A -> Result<B, Crash>): Result<seq<B>, Crash> {
    if xs == [] then Success([])
    else
      match MapAll(xs[..|xs| - 1], f)
      case Failure(e) => Failure(e)
      case Success(init) =>
        match f(xs[|xs| - 1])
        case Failure(e) => Failure(e)
        case Success(y) => Success(init + [y])
  }

  /** MapAll succeeds exactly when every step does, and then holds every step's value. */
  lemma {:induction false} MapAllSuccess<A, B>(xs: seq<A>, f: A -> Result<B, Crash>)
    ensures MapAll(xs, f).Success? <==> forall k :: 0 <= k < |xs| ==> f(xs[k]).Success?
    ensures MapAll(xs, f).Success? ==>
              |MapAll(xs, f).value| == |xs| &&
              forall k :: 0 <= k < |xs| ==> f(xs[k]) == Success(MapAll(xs, f).value[k])
  {
    if xs != [] {
      var init := xs[..|xs| - 1];
      MapAllSuccess(init, f);
      assert forall k :: 0 <= k < |init| ==> init[k] == xs[k];
    }
  }

  /** The k-th value of a successful MapAll is the k-th step's value. */
  lemma MapAllAt<A, B>(xs: seq<A>, f: A -> Result<B, Crash>, k: nat)
    requires MapAll(xs, f).Success? && k < |xs|
    ensures |MapAll(xs, f).value| == |xs|
    ensures f(xs[k]) == Success(MapAll(xs, f).value[k])
  {
    MapAllSuccess(xs, f);
  }

  /** A crash is the crash of the first failing step. */
  lemma {:induction false} MapAllFailure<A, B>(xs: seq<A>, f: A -> Result<B, Crash>)
    requires MapAll(xs, f).Failure?
    ensures exists k :: 0 <= k < |xs| && f(xs[k]) == Failure(MapAll(xs, f).error) &&
                        forall m :: 0 <= m < k ==> f(xs[m]).Success?
  {
    var init := xs[..|xs| - 1];
    assert forall k :: 0 <= k < |init| ==> init[k] == xs[k];
    if MapAll(init, f).Failure? {
      MapAllFailure(init, f);
    } else {
      MapAllSuccess(init, f);
      assert f(xs[|xs| - 1]) == Failure(MapAll(xs, f).error);
    }
  }

  lemma {:induction false} MapAllSnoc<A, B>(xs: seq<A>, x: A, f: A -> Result<B, Crash>)
    ensures MapAll(xs + [x], f) ==
      match MapAll(xs, f)
      case Failure(e) => Failure(e)
      case Success(init) => (match f(x) case Failure(e) => Failure(e) case Success(y) => Success(init + [y]))
  {
    assert (xs + [x])[..|xs + [x]| - 1] == xs;
  }

  /** A crash in a prefix is the crash of the whole run: later steps are never reached. */
  /** A loop mapping `f` over a prefix: one more success extends the result. */
  lemma MapAllStep<A, B>(xs: seq<A>, n: nat, f: A -> Result<B, Crash>, ys: seq<B>)
    requires n < |xs| && MapAll(xs[..n], f) == Success(ys) && f(xs[n]).Success?
    ensures MapAll(xs[..n + 1], f) == Success(ys + [f(xs[n]).value])
  {
    MapAllSnoc(xs[..n], xs[n], f);
    assert xs[..n + 1] == xs[..n] + [xs[n]];
  }

  /** A failure stops the loop: the whole mapping fails with it. */
  lemma MapAllStopsAt<A, B>(xs: seq<A>, n: nat, f: A -> Result<B, Crash>)
    requires n < |xs| && MapAll(xs[..n], f).Success? && f(xs[n]).Failure?
    ensures MapAll(xs, f) == Failure(f(xs[n]).error)
  {
    MapAllSnoc(xs[..n], xs[n], f);
    assert xs[..n + 1] == xs[..n] + [xs[n]];
    MapAllFailurePrefix(xs[..n + 1], xs[n + 1..], f);
    assert xs[..n + 1] + xs[n + 1..] == xs;
  }

  lemma {:induction false} MapAllFailurePrefix<A, B>(xs: seq<A>, ys: seq<A>, f: A -> Result<B, Crash>)
    requires MapAll(xs, f).Failure?
    ensures MapAll(xs + ys, f) == MapAll(xs, f)
    decreases |ys|
  {
    if ys != [] {
      var init := ys[..|ys| - 1];
      MapAllFailurePrefix(xs, init, f);
      assert xs + ys == (xs + init) + [ys[|ys| - 1]];
      MapAllSnoc(xs + init, ys[|ys| - 1], f);
    } else {
      assert xs + ys == xs;
    }
  }

  /** Concatenation of the successful lists, the first crash otherwise. */
  function ConcatAll<B>(parts: seq<Result<seq<B>, Crash>>): Result<seq<B>, Crash> {
    if parts == [] then Success([])
    else
      match ConcatAll(parts[..|parts| - 1])
      case Failure(e) => Failure(e)
      case Success(init) =>
        match parts[|parts| - 1]
        case Failure(e) => Failure(e)
        case Success(last) => Success(init + last)
  }

  /** ConcatAll succeeds exactly when every part does, and then holds exactly their elements. */
  lemma {:induction false} ConcatAllSuccess<B(!new)>(parts: seq<Result<seq<B>, Crash>>)
    ensures ConcatAll(parts).Success? <==> forall k :: 0 <= k < |parts| ==> parts[k].Success?
    ensures ConcatAll(parts).Success? ==>
              forall x :: x in ConcatAll(parts).value <==>
                exists k :: 0 <= k < |parts| && x in parts[k].value
  {
    if parts != [] {
      var init := parts[..|parts| - 1];
      ConcatAllSuccess(init);
      assert forall k :: 0 <= k < |init| ==> init[k] == parts[k];
      if ConcatAll(parts).Success? {
        var last := |parts| - 1;
        forall x ensures x in ConcatAll(parts).value <==> exists k :: 0 <= k < |parts| && x in parts[k].value {
          if x in ConcatAll(parts).value && x !in parts[last].value {
            assert x in ConcatAll(init).value;
            var k :| 0 <= k < |init| && x in init[k].value;
            assert x in parts[k].value;
          }
        }
      }
    }
  }

  /** A crash is the crash of the first failing part. */
  lemma {:induction false} ConcatAllFailure<B(!new)>(parts: seq<Result<seq<B>, Crash>>)
    requires ConcatAll(parts).Failure?
    ensures exists k :: 0 <= k < |parts| && parts[k] == Failure(ConcatAll(parts).error) &&
                        forall m :: 0 <= m < k ==> parts[m].Success?
  {
    var init := parts[..|parts| - 1];
    assert forall k :: 0 <= k < |init| ==> init[k] == parts[k];
    if ConcatAll(init).Failure? {
      ConcatAllFailure(init);
    } else {
      ConcatAllSuccess(init);
      assert parts[|parts| - 1] == Failure(ConcatAll(parts).error);
    }
  }

  /** The values of steps that all succeed, in order. */
  function Values<A, B>(xs: seq<A>, f: A -> Result<B, Crash>): (r: seq<B>)
    requires forall k :: 0 <= k < |xs| ==> f(xs[k]).Success?
    ensures |r| == |xs|
    ensures forall k :: 0 <= k < |xs| ==> f(xs[k]) == Success(r[k])
  {
    seq(|xs|, k requires 0 <= k < |xs| => f(xs[k]).value)
  }

  /** When every part succeeds, ConcatAll joins their values in order. */
  lemma {:induction false} ConcatAllFlatten<B>(parts: seq<Result<seq<B>, Crash>>, values: seq<seq<B>>)
    requires |values| == |parts| && forall k :: 0 <= k < |parts| ==> parts[k] == Success(values[k])
    ensures ConcatAll(parts) == Success(Flatten(values))
  {
    if parts != [] {
      var n := |parts| - 1;
      ConcatAllFlatten(parts[..n], values[..n]);
      FlattenSnoc(values[..n], values[n]);
      assert values[..n] + [values[n]] == values;
    }
  }

  /** `[j for i in [f(x) for x in xs] for j in i]`, the first crash aborting: on success, every
      step's values one list after the other, in order and with their repetitions. */
  function ConcatMap<A, B(!new)>(xs: seq<A>, f: A -> Result<seq<B>, Crash>): (r: Result<seq<B>, Crash>)
    ensures r.Success? <==> forall k :: 0 <= k < |xs| ==> f(xs[k]).Success?
    ensures r.Success? ==> r.value == Flatten(Values(xs, f))
    ensures r.Success? ==> forall y :: y in r.value <==> exists k :: 0 <= k < |xs| && y in f(xs[k]).value
  {
    var parts := seq(|xs|, k requires 0 <= k < |xs| => f(xs[k]));
    PartsMembers(xs, f, parts);
    ConcatAll(parts)
  }

  lemma PartsMembers<A, B(!new)>(xs: seq<A>, f: A -> Result<seq<B>, Crash>, parts: seq<Result<seq<B>, Crash>>)
    requires |parts| == |xs| && forall k :: 0 <= k < |xs| ==> parts[k] == f(xs[k])
    ensures ConcatAll(parts).Success? <==> forall k :: 0 <= k < |xs| ==> f(xs[k]).Success?
    ensures ConcatAll(parts).Success? ==>
              forall y :: y in ConcatAll(parts).value <==> exists k :: 0 <= k < |xs| && y in f(xs[k]).value
    ensures ConcatAll(parts).Success? ==> ConcatAll(parts).value == Flatten(Values(xs, f))
  {
    ConcatAllSuccess(parts);
    if ConcatAll(parts).Success? {
      ConcatAllFlatten(parts, Values(xs, f));
      forall y | y in ConcatAll(parts).value ensures exists k :: 0 <= k < |xs| && y in f(xs[k]).value {
        var k :| 0 <= k < |parts| && y in parts[k].value;
        assert y in f(xs[k]).value;
      }
    }
  }
}
