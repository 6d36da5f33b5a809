/** The posting stage every script shares: `post` drains the entity list into numbered batches of
    at most `limit_entities` entities, sends each batch to the context broker as one NGSI v2
    batch update (`POST /v2/op/update`, `actionType: APPEND`), classifies each response with
    `post_one` and logs every distinct failure reason once. */
module Batching {
  import opened Wrappers
  import Text
  import opened Collections

  // ---------------------------------------------------------------------------------------
  // Specification of the partition
  // ---------------------------------------------------------------------------------------

  /** Entities in the order `pop()` hands them out: last one first. */
  function Reversed<T>(s: seq<T>): (r: seq<T>)
    ensures |r| == |s|
    ensures forall k :: 0 <= k < |s| ==> r[k] == s[|s| - 1 - k]
  {
    seq(|s|, k requires 0 <= k < |s| => s[|s| - 1 - k])
  }

  /** Consecutive slices of `b` items, the last one possibly shorter; the empty sequence is one
      empty slice. */
  function Chunks<T>(s: seq<T>, b: nat): (r: seq<seq<T>>)
    requires b >= 1
    ensures |r| >= 1
    ensures forall k :: 0 <= k < |r| - 1 ==> |r[k]| == b
    ensures 1 <= |r[|r| - 1]| <= b || (s == [] && r == [[]])
    decreases |s|
  {
    if |s| <= b then [s] else [s[..b]] + Chunks(s[b..], b)
  }

  /** The batches `post` builds from `body`: the entities in pop order, cut every `limit`.
      With no entity and no limit the loop never runs and there is one empty batch. */
  function Batches<T>(body: seq<T>, limit: int): seq<seq<T>>
    requires limit >= 1 || body == []
  {
    if limit >= 1 then Chunks(Reversed(body), limit) else [[]]
  }

  lemma {:induction false} FlattenLastBound<T>(parts: seq<seq<T>>)
    requires |parts| >= 1
    ensures |Flatten(parts)| >= |parts[|parts| - 1]|
  {
    if |parts| > 1 {
      FlattenLastBound(parts[1..]);
    }
  }

  /** No entity is lost or duplicated: concatenating the batches gives back the input. */
  lemma {:induction false} FlattenChunks<T>(s: seq<T>, b: nat)
    requires b >= 1
    ensures Flatten(Chunks(s, b)) == s
    decreases |s|
  {
    if |s| > b {
      FlattenChunks(s[b..], b);
      assert Chunks(s, b)[1..] == Chunks(s[b..], b);
    }
  }

  /** There are ceil(n / b) slices for n > 0 items. */
  lemma {:induction false} ChunksCount<T>(s: seq<T>, b: nat)
    requires b >= 1 && s != []
    ensures (|Chunks(s, b)| - 1) * b < |s| <= |Chunks(s, b)| * b
    decreases |s|
  {
    if |s| > b {
      ChunksCount(s[b..], b);
    }
  }

  /** Any cutting of s into full slices of b followed by one non-empty slice of at most b is
      the cutting Chunks makes. */
  lemma {:induction false} ChunksUnique<T>(parts: seq<seq<T>>, s: seq<T>, b: nat)
    requires b >= 1 && |parts| >= 1 && Flatten(parts) == s
    requires forall k :: 0 <= k < |parts| - 1 ==> |parts[k]| == b
    requires 1 <= |parts[|parts| - 1]| <= b || parts == [[]]
    ensures parts == Chunks(s, b)
    decreases |parts|
  {
    if |parts| == 1 {
      assert parts[1..] == [];
      assert s == parts[0];
      assert parts == [s];
    } else {
      var rest := parts[1..];
      FlattenLastBound(rest);
      assert s == parts[0] + Flatten(rest);
      assert |s| > b;
      assert s[..b] == parts[0];
      assert s[b..] == Flatten(rest);
      ChunksUnique(rest, s[b..], b);
    }
  }

  /** The batches of `post`: read in key order they are the body last entity first; all but the
      last hold exactly `limit` entities; an empty body gives one empty batch, otherwise the
      last batch holds 1 to `limit` entities and there are ceil(n / limit) batches. */
  lemma BatchesShape<T>(body: seq<T>, limit: int)
    requires limit >= 1 || body == []
    ensures Flatten(Batches(body, limit)) == Reversed(body)
    ensures forall k :: 0 <= k < |Batches(body, limit)| - 1 ==> |Batches(body, limit)[k]| == limit
    ensures body == [] ==> Batches(body, limit) == [[]]
    ensures body != [] ==>
      1 <= |Batches(body, limit)[|Batches(body, limit)| - 1]| <= limit &&
      (|Batches(body, limit)| - 1) * limit < |body| <= |Batches(body, limit)| * limit
  {
    if limit >= 1 {
      FlattenChunks(Reversed(body), limit);
      if body != [] {
        ChunksCount(Reversed(body), limit);
      }
    } else {
      var one: seq<seq<T>> := [[]];
      assert one[1..] == [];
    }
  }

  // ---------------------------------------------------------------------------------------
  // The entity list `post` receives, drained in place with `pop()`
  // ---------------------------------------------------------------------------------------

  class EntityList<T> {
    var items: seq<T>

    constructor (items: seq<T>)
      ensures this.items == items
    {
      this.items := items;
    }

    /** `list.pop()`: removes and returns the last entity. */
    method Pop() returns (x: T)
      requires items != []
      modifies this
      ensures old(items) == items + [x]
    {
      x := items[|items| - 1];
      items := items[..|items| - 1];
    }
  }

  /** The loop state of `post` after `consumed` has been popped: `done` holds the closed
      batches, each of `limit` entities, `divided` maps 0..i to them and to the open batch,
      which has `j` entities. */
  ghost predicate Partial<T>(divided: map<nat, seq<T>>, done: seq<seq<T>>, i: nat, j: nat, limit: int,
                             consumed: seq<T>)
  {
    |done| == i && i in divided &&
    (forall k :: 0 <= k < i ==> |done[k]| == limit) &&
    (forall k: nat :: k in divided <==> k <= i) &&
    (forall k :: 0 <= k < i ==> divided[k] == done[k]) &&
    |divided[i]| == j && (limit >= 1 ==> j <= limit) &&
    Flatten(done) + divided[i] == consumed
  }

  /** Popping one more entity into the open batch. */
  lemma PopStep<T>(divided: map<nat, seq<T>>, done: seq<seq<T>>, i: nat, j: nat, limit: int,
                   consumed: seq<T>, x: T)
    requires Partial(divided, done, i, j, limit, consumed) && j < limit
    ensures Partial(divided[i := divided[i] + [x]], done, i, j + 1, limit, consumed + [x])
  {
    AppendAssoc(Flatten(done), divided[i], [x]);
  }

  /** Closing the full open batch and opening an empty one under the next key. */
  lemma CloseStep<T>(divided: map<nat, seq<T>>, done: seq<seq<T>>, i: nat, j: nat, limit: int,
                     consumed: seq<T>)
    requires Partial(divided, done, i, j, limit, consumed) && j == limit
    ensures Partial(divided[i + 1 := []], done + [divided[i]], i + 1, 0, limit, consumed)
  {
    FlattenSnoc(done, divided[i]);
  }

  /** Once everything is consumed, with the open batch non-empty unless it is the only one,
      the batches are the slices Chunks cuts. */
  lemma PartitionComplete<T>(divided: map<nat, seq<T>>, done: seq<seq<T>>, i: nat, j: nat, limit: int,
                             s: seq<T>)
    requires Partial(divided, done, i, j, limit, s) && limit >= 1 && (j >= 1 || i == 0)
    ensures |Chunks(s, limit)| == i + 1
    ensures forall k: nat :: k <= i ==> divided[k] == Chunks(s, limit)[k]
  {
    var parts := done + [divided[i]];
    FlattenSnoc(done, divided[i]);
    ChunksUnique(parts, s, limit);
  }

  /** The partition loop of `post`: moves the entities of `body` into `divided[0]`,
      `divided[1]`, ... with counter `i` naming the open batch and `j` its size. A positive
      limit is needed for the loop to end once `body` holds an entity. */
  method Partition<T>(body: EntityList<T>, limit: int) returns (divided: map<nat, seq<T>>, last: nat)
    requires limit >= 1 || body.items == []
    modifies body
    ensures body.items == []
    ensures |Batches(old(body.items), limit)| == last + 1
    ensures forall k: nat :: k in divided <==> k <= last
    ensures forall k: nat :: k <= last ==> divided[k] == Batches(old(body.items), limit)[k]
  {
    ghost var orig := body.items;
    ghost var rev := Reversed(orig);
    var i: nat := 0;
    var j: nat := 0;
    divided := map[i := []];
    ghost var done: seq<seq<T>> := [];
    ghost var consumed: seq<T> := [];
    while |body.items| > 0
      invariant |body.items| <= |orig| && body.items == orig[..|body.items|]
      invariant consumed == rev[..|orig| - |body.items|]
      invariant Partial(divided, done, i, j, limit, consumed)
      invariant j == 0 && i > 0 ==> body.items != []
      decreases 2 * |body.items| + (if j < limit then 0 else 1)
    {
      if j < limit {
        var x := body.Pop();
        assert x == rev[|consumed|];
        assert rev[..|consumed| + 1] == consumed + [x];
        PopStep(divided, done, i, j, limit, consumed, x);
        consumed := consumed + [x];
        divided := divided[i := divided[i] + [x]];
        j := j + 1;
      } else {
        CloseStep(divided, done, i, j, limit, consumed);
        done := done + [divided[i]];
        j := 0;
        i := i + 1;
        divided := divided[i := []];
      }
    }
    last := i;
    assert rev[..|orig|] == rev;
    if limit >= 1 {
      PartitionComplete(divided, done, i, j, limit, rev);
    }
  }

  // ---------------------------------------------------------------------------------------
  // post_one: one batch update and the classification of its response
  // ---------------------------------------------------------------------------------------

  /** The status codes the scripts accept (`http_ok`). */
  const HttpOk: set<int> := {200, 201, 204}

  /** What the broker did with one batch: the connection failed, or it answered with a status. */
  datatype Response = Refused | Status(code: int)

  /** `post_one`'s return value: `True`, or the reason string. */
  datatype Outcome = Accepted | Failed(reason: string)

  /** The two reason texts a script uses: for a connection error, and the prefix put before
      `str(status)` for a refused status. */
  datatype Wording = Wording(connection: string, statusPrefix: string)

  const ShortWording := Wording("connection problems", "return code ")

  const LongWording := Wording(
    "Posting data to Orion failed due to the connection problems",
    "Posting data to Orion failed due to response code ")

  /** The request body of a batch update. */
  datatype UpdateRequest<E> = UpdateRequest(actionType: string, entities: seq<E>)

  function Payload<E>(batch: seq<E>): (p: UpdateRequest<E>)
    ensures p.actionType == "APPEND" && p.entities == batch
  {
    UpdateRequest("APPEND", batch)
  }

  function PostOne(w: Wording, resp: Response): Outcome {
    match resp
    case Refused => Failed(w.connection)
    case Status(code) => if code in HttpOk then Accepted else Failed(w.statusPrefix + Text.IntToString(code))
  }

  /** The connection reason cannot be read as a status reason. */
  predicate Unambiguous(w: Wording) {
    !(|w.statusPrefix| <= |w.connection| && w.connection[..|w.statusPrefix|] == w.statusPrefix)
  }

  lemma WordingsUnambiguous()
    ensures Unambiguous(ShortWording) && Unambiguous(LongWording)
  {
    assert ShortWording.connection[0] != ShortWording.statusPrefix[0];
    assert LongWording.connection[36] != LongWording.statusPrefix[36];
  }

  /** A batch is accepted exactly when the broker answered with a status in `http_ok`, and
      the status in a reason can be read back from it. */
  lemma {:induction false} PostOneClassifies(w: Wording, resp: Response)
    requires Unambiguous(w)
    ensures PostOne(w, resp) == Accepted <==> resp.Status? && resp.code in HttpOk
    ensures PostOne(w, resp) == Failed(w.connection) <==> resp == Refused
    ensures resp.Status? && resp.code !in HttpOk ==>
      var reason := PostOne(w, resp).reason;
      |w.statusPrefix| <= |reason| && reason[..|w.statusPrefix|] == w.statusPrefix &&
      Text.ParseInt(reason[|w.statusPrefix|..]) == Some(resp.code)
  {
    if resp.Status? && resp.code !in HttpOk {
      var reason := PostOne(w, resp).reason;
      assert reason == w.statusPrefix + Text.IntToString(resp.code);
      assert reason[..|w.statusPrefix|] == w.statusPrefix;
      assert reason[|w.statusPrefix|..] == Text.IntToString(resp.code);
      Text.IntToStringRoundTrip(resp.code);
    }
  }

  /** Two failed batches log the same reason only when the broker failed them the same way. */
  lemma {:induction false} SameReasonSameResponse(w: Wording, a: Response, b: Response)
    requires Unambiguous(w)
    requires PostOne(w, a).Failed? && PostOne(w, a) == PostOne(w, b)
    ensures a == b
  {
    PostOneClassifies(w, a);
    PostOneClassifies(w, b);
    if a.Status? && b.Status? {
      var p := |w.statusPrefix|;
      assert PostOne(w, a).reason[p..] == PostOne(w, b).reason[p..];
    }
  }

  // ---------------------------------------------------------------------------------------
  // post: send every batch and log the distinct failures
  // ---------------------------------------------------------------------------------------

  /** The gathered outcomes, one per batch in key order; the broker's answer to a batch is
      given as a function of the batch number and the request body sent for it. */
  function Outcomes<E>(batches: seq<seq<E>>, w: Wording, broker: (nat, UpdateRequest<E>) -> Response): (r: seq<Outcome>)
    ensures |r| == |batches|
    ensures forall k :: 0 <= k < |batches| ==>
      r[k] == PostOne(w, broker(k, Payload(batches[k])))
  {
    seq(|batches|, k requires 0 <= k < |batches| => PostOne(w, broker(k, Payload(batches[k]))))
  }

  /** `list(set(response))` without `True`: every failure reason once. */
  method LogFailures(outcomes: seq<Outcome>) returns (logged: seq<string>)
    ensures NoDuplicates(logged)
    ensures forall r :: r in logged <==> Failed(r) in outcomes
  {
    logged := [];
    for n := 0 to |outcomes|
      invariant NoDuplicates(logged)
      invariant forall r :: r in logged <==> Failed(r) in outcomes[..n]
    {
      assert outcomes[..n + 1] == outcomes[..n] + [outcomes[n]];
      if outcomes[n].Failed? && outcomes[n].reason !in logged {
        logged := logged + [outcomes[n].reason];
      }
    }
    assert outcomes[..|outcomes|] == outcomes;
  }

  /** `post`: partition, one batch update per batch, then the distinct failure reasons. */
  method Post<E>(body: EntityList<E>, limit: int, w: Wording, broker: (nat, UpdateRequest<E>) -> Response)
    returns (logged: seq<string>)
    requires limit >= 1 || body.items == []
    modifies body
    ensures body.items == []
    ensures NoDuplicates(logged)
    ensures forall r :: r in logged <==> Failed(r) in Outcomes(Batches(old(body.items), limit), w, broker)
  {
    ghost var outs := Outcomes(Batches(body.items, limit), w, broker);
    var divided, last := Partition(body, limit);
    var outcomes: seq<Outcome> := [];
    for k := 0 to last + 1
      invariant outcomes == outs[..k]
    {
      var answer := PostOne(w, broker(k, Payload(divided[k])));
      assert outs[k] == answer;
      assert outs[..k + 1] == outcomes + [answer];
      outcomes := outcomes + [answer];
    }
    assert outs[..last + 1] == outs;
    logged := LogFailures(outcomes);
  }

  /** When the broker accepts every batch nothing is logged. */
  lemma AllAcceptedLogsNothing<E>(batches: seq<seq<E>>, w: Wording, broker: (nat, UpdateRequest<E>) -> Response)
    requires forall k: nat, b :: broker(k, b).Status? && broker(k, b).code in HttpOk
    ensures forall r :: Failed(r) !in Outcomes(batches, w, broker)
  {
    var outs := Outcomes(batches, w, broker);
    forall k | 0 <= k < |outs| ensures outs[k] == Accepted {
      assert broker(k, Payload(batches[k])).code in HttpOk;
    }
  }

  /** 120 entities in batches of 50 are sent as 50 + 50 + 20 (the last 50 entities first);
      when only the second batch gets status 500, the one line logged is "return code 500". */
  lemma {:induction false} ThreeBatchesOneFailure<E>(body: seq<E>)
    requires |body| == 120
    ensures var batches := Batches(body, 50);
      |batches| == 3 && |batches[0]| == 50 && |batches[1]| == 50 && |batches[2]| == 20 &&
      batches[0][0] == body[119] &&
      var outs := Outcomes(batches, ShortWording, (k: nat, b: UpdateRequest<E>) => if k == 1 then Status(500) else Status(201));
      forall r :: Failed(r) in outs <==> r == "return code 500"
  {
    var rev := Reversed(body);
    var batches := Batches(body, 50);
    assert Chunks(rev[50..][50..], 50) == [rev[50..][50..]];
    assert Chunks(rev[50..], 50) == [rev[50..][..50]] + [rev[50..][50..]];
    assert batches == [rev[..50]] + ([rev[50..][..50]] + [rev[50..][50..]]);
    var broker := (k: nat, b: UpdateRequest<E>) => if k == 1 then Status(500) else Status(201);
    var outs := Outcomes(batches, ShortWording, broker);
    assert Text.IntToString(500) == "500";
    assert |outs| == 3;
    assert broker(0, Payload(batches[0])) == Status(201) && broker(2, Payload(batches[2])) == Status(201);
    assert broker(1, Payload(batches[1])) == Status(500);
    assert 201 in HttpOk && 500 !in HttpOk;
    assert outs[1] == PostOne(ShortWording, Status(500));
    assert outs[0] == Accepted && outs[2] == Accepted;
    assert outs[1] == Failed("return code " + "500");
    assert "return code " + "500" == "return code 500";
    assert outs == [Accepted, Failed("return code 500"), Accepted];
  }
}
