/** The station registry: `setup_stations_config` reads the include/exclude lists,
    `setup_stations` loads the registry and keeps the admitted stations, and exits when an
    include list names a station the registry does not yield. */
module Registry {
  import opened Wrappers
  import opened Collections
  import Batching

  // ---------------------------------------------------------------------------------------
  // setup_stations_config
  // ---------------------------------------------------------------------------------------

  /** The station limits: the copied 'include' and 'exclude' lists, when present. */
  datatype Limits = Limits(included: Option<seq<string>>, excluded: Option<seq<string>>)

  /** The configuration file as `setup_stations_config` finds it: no file named, a file that
      does not exist, or the loaded YAML document (None for an empty or null document; a list
      entry that is null is None). */
  datatype ConfigFile = NotGiven | Missing | Loaded(doc: Option<map<string, Option<seq<string>>>>)

  /** A key is absent, or it holds a list that can be iterated. */
  predicate Iterable(doc: map<string, Option<seq<string>>>, key: string) {
    key in doc ==> doc[key].Some?
  }

  /** The list under `key`, when the document has one. */
  function ListAt(doc: map<string, Option<seq<string>>>, key: string): Option<seq<string>> {
    if key in doc then doc[key] else None
  }

  /** The loop `for el in source[key]: local_stations[key].append(el)`. */
  method CopyList(source: seq<string>) returns (copy: seq<string>)
    ensures copy == source
  {
    copy := [];
    for n := 0 to |source|
      invariant copy == source[..n]
    {
      assert source[..n + 1] == source[..n] + [source[n]];
      copy := copy + [source[n]];
    }
    assert source[..|source|] == source;
  }

  method SetupStationsConfig(config: ConfigFile) returns (r: Result<Limits, Exit>)
    ensures r.Failure? ==> r.error == Exit(1)
    ensures r.Success? ==> !(r.value.included.Some? && r.value.excluded.Some?)
    ensures config == NotGiven ==> r == Success(Limits(None, None))
    ensures config.Loaded? ==>
      (r.Success? <==>
         config.doc.Some? && !("include" in config.doc.value && "exclude" in config.doc.value) &&
         Iterable(config.doc.value, "include") && Iterable(config.doc.value, "exclude"))
    ensures config.Loaded? && r.Success? ==>
      r.value == Limits(ListAt(config.doc.value, "include"), ListAt(config.doc.value, "exclude"))
    ensures config == Missing ==> r.Failure?
  {
    match config
    case NotGiven =>
      r := Success(Limits(None, None));
    case Missing =>
      r := Failure(Exit(1));
    case Loaded(None) =>
      r := Failure(Exit(1));
    case Loaded(Some(doc)) =>
      if "exclude" in doc && "include" in doc {
        return Failure(Exit(1));
      }
      var excluded: Option<seq<string>> := None;
      if "exclude" in doc {
        if doc["exclude"].None? {
          return Failure(Exit(1));
        }
        var copy := CopyList(doc["exclude"].value);
        excluded := Some(copy);
      }
      var included: Option<seq<string>> := None;
      if "include" in doc {
        if doc["include"].None? {
          return Failure(Exit(1));
        }
        var copy := CopyList(doc["include"].value);
        included := Some(copy);
      }
      r := Success(Limits(included, excluded));
  }

  // ---------------------------------------------------------------------------------------
  // Loading the registry
  // ---------------------------------------------------------------------------------------

  /** The answer to a GET: the connection failed, or a status and the parsed body. */
  datatype Reply<D> = Unreachable | Answered(status: int, body: D)

  /** Downloading the registry: anything but an answer with a status in `http_ok` is fatal. */
  function Download<D>(reply: Reply<D>): (r: Result<D, Exit>)
    ensures r.Success? <==> reply.Answered? && reply.status in Batching.HttpOk
    ensures r.Success? ==> r.value == reply.body
    ensures r.Failure? ==> r.error == Exit(1)
  {
    if reply.Answered? && reply.status in Batching.HttpOk then Success(reply.body) else Failure(Exit(1))
  }

  // ---------------------------------------------------------------------------------------
  // setup_stations: selection and the include-count check
  // ---------------------------------------------------------------------------------------

  /** A station passes the include list (when there is one) and is not on the exclude list. */
  predicate Admitted(code: string, limits: Limits) {
    (limits.included.None? || code in limits.included.value) &&
    (limits.excluded.None? || code !in limits.excluded.value)
  }

  /** The station codes of the registry, in its order. */
  function Codes<R>(entries: seq<(string, R)>): (codes: seq<string>)
    ensures |codes| == |entries|
  {
    seq(|entries|, k requires 0 <= k < |entries| => entries[k].0)
  }

  /** The `result` dict `setup_stations` builds: every admitted station, a later entry with the
      same code replacing an earlier one. */
  function Kept<R>(entries: seq<(string, R)>, limits: Limits): map<string, R> {
    if entries == [] then map[]
    else
      var previous := Kept(entries[..|entries| - 1], limits);
      var (code, record) := entries[|entries| - 1];
      if Admitted(code, limits) then previous[code := record] else previous
  }

  /** A station is kept exactly when it is in the registry and admitted. */
  lemma {:induction false} KeptKeys<R>(entries: seq<(string, R)>, limits: Limits, code: string)
    ensures code in Kept(entries, limits) <==> code in Codes(entries) && Admitted(code, limits)
  {
    if entries != [] {
      var init := entries[..|entries| - 1];
      KeptKeys(init, limits, code);
      assert Codes(entries) == Codes(init) + [entries[|entries| - 1].0];
    }
  }

  /** A kept station carries the record of its last entry in the registry. */
  lemma {:induction false} KeptLastWins<R>(entries: seq<(string, R)>, limits: Limits, k: nat)
    requires k < |entries| && Admitted(entries[k].0, limits)
    requires forall m :: k < m < |entries| ==> entries[m].0 != entries[k].0
    ensures entries[k].0 in Kept(entries, limits)
    ensures Kept(entries, limits)[entries[k].0] == entries[k].1
  {
    if k < |entries| - 1 {
      var init := entries[..|entries| - 1];
      KeptLastWins(init, limits, k);
    }
  }

  /** Every kept record is the record of a registry entry with that code. */
  lemma {:induction false} KeptFrom<R>(entries: seq<(string, R)>, limits: Limits)
    ensures forall c :: c in Kept(entries, limits) ==>
      exists k :: 0 <= k < |entries| && entries[k] == (c, Kept(entries, limits)[c])
  {
    if entries != [] {
      var init := entries[..|entries| - 1];
      KeptFrom(init, limits);
      forall c | c in Kept(entries, limits)
        ensures exists k :: 0 <= k < |entries| && entries[k] == (c, Kept(entries, limits)[c])
      {
        if c != entries[|entries| - 1].0 || !Admitted(c, limits) {
          assert c in Kept(init, limits) && Kept(entries, limits)[c] == Kept(init, limits)[c];
          var k :| 0 <= k < |init| && init[k] == (c, Kept(init, limits)[c]);
          assert entries[k] == init[k];
        }
      }
    }
  }

  /** The include-count check passes exactly when the include list has no repeated code and
      every code on it is a registry station that is not excluded. */
  lemma IncludeCheckMeaning<R>(entries: seq<(string, R)>, limits: Limits)
    requires limits.included.Some?
    ensures |Kept(entries, limits)| == |limits.included.value| <==>
      NoDuplicates(limits.included.value) &&
      forall c :: c in limits.included.value ==> c in Codes(entries) && Admitted(c, limits)
  {
    var included := limits.included.value;
    var kept := Kept(entries, limits).Keys;
    forall c ensures c in kept <==> c in Codes(entries) && Admitted(c, limits) {
      KeptKeys(entries, limits, c);
    }
    assert kept <= Elements(included);
    SubsetCard(kept, Elements(included));
    ElementsCard(included);
    if |kept| == |included| {
      SubsetSameCard(kept, Elements(included));
    }
    if forall c :: c in included ==> c in Codes(entries) && Admitted(c, limits) {
      assert Elements(included) <= kept;
      assert kept == Elements(included);
    }
  }

  /** The selection loop of `setup_stations` and its final check. */
  method SelectStations<R>(entries: seq<(string, R)>, limits: Limits) returns (r: Result<map<string, R>, Exit>)
    ensures r.Success? ==> r.value == Kept(entries, limits)
    ensures r.Failure? <==> limits.included.Some? && |Kept(entries, limits)| != |limits.included.value|
    ensures r.Failure? ==> r.error == Exit(1)
  {
    var result: map<string, R> := map[];
    for n := 0 to |entries|
      invariant result == Kept(entries[..n], limits)
    {
      assert entries[..n + 1][..n] == entries[..n];
      var (code, record) := entries[n];
      if Admitted(code, limits) {
        result := result[code := record];
      }
    }
    assert entries[..|entries|] == entries;
    if limits.included.Some? && |result| != |limits.included.value| {
      return Failure(Exit(1));
    }
    r := Success(result);
  }
}
