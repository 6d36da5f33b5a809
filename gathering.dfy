/** The fetch stage: `harvest`/`collect` gathers one result per station or source and drops the
    `False` that a failed fetch returns, keeping the other results in order. */
module Gathering {

  /** One gathered result: `False` for a failed fetch, otherwise the parsed payload. */
  datatype Gathered<P> = NoData | Fetched(payload: P)

  /** The results without the failures, in their original order. */
  function WithoutFailures<P>(s: seq<Gathered<P>>): seq<P> {
    if s == [] then []
    else (match s[0] case NoData => [] case Fetched(p) => [p]) + WithoutFailures(s[1..])
  }

  lemma {:induction false} WithoutFailuresConcat<P>(a: seq<Gathered<P>>, b: seq<Gathered<P>>)
    ensures WithoutFailures(a + b) == WithoutFailures(a) + WithoutFailures(b)
  {
    if a == [] {
      assert a + b == b;
    } else {
      assert (a + b)[1..] == a[1..] + b;
      WithoutFailuresConcat(a[1..], b);
    }
  }

  /** Every fetched payload survives, and nothing else appears. */
  lemma {:induction false} WithoutFailuresMembers<P>(s: seq<Gathered<P>>)
    ensures forall p :: p in WithoutFailures(s) <==> Fetched(p) in s
  {
    if s != [] {
      WithoutFailuresMembers(s[1..]);
      assert s == [s[0]] + s[1..];
    }
  }

  /** With no failure left, dropping failures changes nothing. */
  lemma {:induction false} WithoutFailuresNone<P>(s: seq<Gathered<P>>)
    requires NoData !in s
    ensures |WithoutFailures(s)| == |s|
    ensures forall k :: 0 <= k < |s| ==> s[k] == Fetched(WithoutFailures(s)[k])
  {
    if s != [] {
      assert forall k :: 0 <= k < |s[1..]| ==> s[1..][k] == s[k + 1];
      WithoutFailuresNone(s[1..]);
    }
  }

  /** The position `list.remove(False)` deletes: the first failure. */
  function FirstFailure<P(==)>(s: seq<Gathered<P>>): (i: nat)
    requires NoData in s
    ensures i < |s| && s[i] == NoData && NoData !in s[..i]
  {
    if s[0] == NoData then 0
    else
      assert NoData in s[1..];
      var j := FirstFailure(s[1..]);
      assert s[..j + 1] == [s[0]] + s[1..][..j];
      j + 1
  }

  /** Deleting one failure leaves the surviving payloads as they were. */
  lemma {:induction false} DropFailureAt<P>(s: seq<Gathered<P>>, i: nat)
    requires i < |s| && s[i] == NoData
    ensures WithoutFailures(s[..i] + s[i + 1..]) == WithoutFailures(s)
  {
    var dropped := s[..i] + s[i + 1..];
    if i == 0 {
      assert dropped == s[1..];
    } else {
      var tail := s[1..];
      DropFailureAt(tail, i - 1);
      assert dropped[0] == s[0];
      assert dropped[1..] == tail[..i - 1] + tail[i..];
    }
  }


  /** `while False in result: result.remove(False)`. */
  method RemoveFailures<P(==)>(gathered: seq<Gathered<P>>) returns (result: seq<Gathered<P>>)
    ensures NoData !in result
    ensures |result| == |WithoutFailures(gathered)|
    ensures forall k :: 0 <= k < |result| ==> result[k] == Fetched(WithoutFailures(gathered)[k])
  {
    result := gathered;
    while NoData in result
      invariant WithoutFailures(result) == WithoutFailures(gathered)
      decreases |result|
    {
      var i := FirstFailure(result);
      DropFailureAt(result, i);
      result := result[..i] + result[i + 1..];
    }
    WithoutFailuresNone(result);
  }
}
