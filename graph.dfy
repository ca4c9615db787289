// get_impact_chain (engine/graph.py): for the entity being viewed, one row per
// correlated key, in the registry's order, carrying the linked asset's live
// level and, when it moves unusually, the scanner's anomaly alert. Each
// key's three-month history fetch is a parameter.
module Graph {
  import opened Wrappers
  import opened Values
  import opened Analytics
  import opened Alerts
  import opened Registry
  import opened Resolver

  /** One row of the chain: a linked key without a live value, or with one. */
  datatype Link =
    | NoData(key: string, name: string)
    | Linked(key: string, name: string, price: Value, change: Value, z: ZScore, alert: Option<Alert>)

  /** What fetching a key's three-month history gives. */
  type HistoryFetch = string -> Outcome<seq<Option<real>>>

  /**
   * The stand-in for a correlated key the registry does not know: a market
   * ticker named after itself (it has no group, unit or explanation).
   */
  function RawTicker(k: string): EntityView
  {
    EntityView(k, Entry(k, "", k, "market", None, None, false, Some(k), None, None))
  }

  /** The entity a correlated key stands for: the registered one, else a raw ticker. */
  function LinkedEntity(reg: seq<Registered>, k: string): (r: EntityView)
    ensures r.key == k
    ensures IsRegistered(reg, k) ==> r.entry == Lookup(reg, k).value
    ensures !IsRegistered(reg, k) ==> r.entry.name == k && r.entry.source == "market" && r.entry.technicalKey == Some(k)
  {
    match ResolveEntity(reg, k)
    case Some(v) => v
    case None => RawTicker(k)
  }

  /**
   * The row for one correlated key: "No Data" when the level's value is
   * None; otherwise the value, its change and the anomaly check, whose
   * z-score is copied to the row (0.0 without an alert).
   */
  function LinkRow(reg: seq<Registered>, up: Upstream, history: HistoryFetch, k: string): (r: Outcome<Link>)
    ensures r.Ok? ==> r.value.key == k
    ensures r.Ok? ==> r.value.name == LinkedEntity(reg, k).entry.name
    ensures var v := LinkedEntity(reg, k);
            var level := GetCurrentLevel(v.key, v.entry, up);
            (level.Raised? ==> r.Raised?) &&
            (level.Ok? ==> (r == Ok(NoData(k, v.entry.name)) <==> level.value.value == Null)) &&
            (r.Ok? && r.value.Linked? ==> level.Ok? && r.value.price == level.value.value && r.value.change == level.value.change)
    ensures r.Ok? && r.value.Linked? && r.value.alert.None? ==> r.value.z == ZZero
    ensures r.Ok? && r.value.Linked? && r.value.alert.Some? ==>
              r.value.price.Num? && r.value.alert.value.Anomaly? && r.value.z == r.value.alert.value.z
  {
    var v := LinkedEntity(reg, k);
    match GetCurrentLevel(v.key, v.entry, up)
    case Raised => Raised
    case Ok(level) =>
      if level.value == Null then Ok(NoData(v.key, v.entry.name))
      else
        NonNumericAlertsNothing(level.value, history(v.key));
        match CheckAnomaly(level.value, [], history(v.key))
        case Raised => Raised
        case Ok(alert) =>
          Ok(Linked(v.key, v.entry.name, level.value, level.change, if alert.Some? then alert.value.z else ZZero, alert))
  }

  lemma NonNumericAlertsNothing(current: Value, fetched: Outcome<seq<Option<real>>>)
    ensures !current.Num? && CheckAnomaly(current, [], fetched).Ok? ==> CheckAnomaly(current, [], fetched).value.None?
  {
    if !current.Num? {
      NonNumericNeverAlerts(current, [], fetched);
    }
  }

  /** Each element's step in order; the first step that raises makes the whole run raise. */
  function Steps<T, U>(xs: seq<T>, f: T -> Outcome<U>): (r: Outcome<seq<U>>)
    ensures r.Ok? <==> forall i :: 0 <= i < |xs| ==> f(xs[i]).Ok?
    ensures r.Ok? ==> |r.value| == |xs|
    ensures r.Ok? ==> forall i :: 0 <= i < |xs| ==> r.value[i] == f(xs[i]).value
  {
    if xs == [] then Ok([])
    else
      var init := xs[..|xs| - 1];
      assert forall i :: 0 <= i < |init| ==> xs[i] == init[i];
      match Steps(init, f)
      case Raised => Raised
      case Ok(done) =>
        match f(xs[|xs| - 1])
        case Raised => Raised
        case Ok(y) => Ok(done + [y])
  }

  /** The rows for `keys`, in order; the first key whose row raises makes the whole chain raise. */
  function Rows(reg: seq<Registered>, up: Upstream, history: HistoryFetch, keys: seq<string>): (r: Outcome<seq<Link>>)
    ensures r.Ok? <==> forall i :: 0 <= i < |keys| ==> LinkRow(reg, up, history, keys[i]).Ok?
    ensures r.Ok? ==> |r.value| == |keys|
    ensures r.Ok? ==> forall i :: 0 <= i < |keys| ==> r.value[i] == LinkRow(reg, up, history, keys[i]).value
  {
    Steps(keys, k => LinkRow(reg, up, history, k))
  }

  /** get_impact_chain(trigger_key) as a function of the registry, the snapshots and the history fetch. */
  function ImpactChain(reg: seq<Registered>, up: Upstream, history: HistoryFetch, trigger: string): (r: Outcome<seq<Link>>)
    ensures !IsRegistered(reg, trigger) || Lookup(reg, trigger).value.correlations.None? ==> r == Ok([])
    ensures IsRegistered(reg, trigger) && Lookup(reg, trigger).value.correlations.Some? ==>
              r == Rows(reg, up, history, Lookup(reg, trigger).value.correlations.value)
  {
    match ResolveEntity(reg, trigger)
    case None => Ok([])
    case Some(entity) =>
      match entity.entry.correlations
      case None => Ok([])
      case Some(keys) => Rows(reg, up, history, keys)
  }

  /** The body of the loop over the trigger's correlations: the row of one correlated key. */
  method FetchRow(reg: seq<Registered>, up: Upstream, history: HistoryFetch, k: string) returns (row: Outcome<Link>)
    ensures row == LinkRow(reg, up, history, k)
  {
    var linked := LinkedEntity(reg, k);
    var level := GetCurrentLevel(linked.key, linked.entry, up);
    if level.Raised? {
      return Raised;
    }
    var val := level.value.value;
    if val == Null {
      return Ok(NoData(linked.key, linked.entry.name));
    }
    var alert := CheckAnomaly(val, [], history(linked.key));
    if alert.Raised? {
      return Raised;
    }
    var z := if alert.value.Some? then alert.value.value.z else ZZero;
    row := Ok(Linked(linked.key, linked.entry.name, val, level.value.change, z, alert.value));
  }

  /** The rows of one more key: the earlier rows followed by that key's row. */
  lemma RowsNext(reg: seq<Registered>, up: Upstream, history: HistoryFetch, keys: seq<string>, i: nat, chain: seq<Link>)
    requires i < |keys| && Rows(reg, up, history, keys[..i]) == Ok(chain)
    ensures LinkRow(reg, up, history, keys[i]).Ok? ==>
              Rows(reg, up, history, keys[..i + 1]) == Ok(chain + [LinkRow(reg, up, history, keys[i]).value])
    ensures LinkRow(reg, up, history, keys[i]).Raised? ==> Rows(reg, up, history, keys[..i + 1]).Raised?
  {
    assert keys[..i + 1][..i] == keys[..i];
  }

  method GetImpactChain(reg: seq<Registered>, up: Upstream, history: HistoryFetch, trigger: string) returns (r: Outcome<seq<Link>>)
    ensures r == ImpactChain(reg, up, history, trigger)
  {
    var entity := ResolveEntity(reg, trigger);
    if entity.None? || entity.value.entry.correlations.None? {
      return Ok([]);
    }
    var keys := entity.value.entry.correlations.value;
    var chain: seq<Link> := [];
    for i := 0 to |keys|
      invariant Rows(reg, up, history, keys[..i]) == Ok(chain)
    {
      var row := FetchRow(reg, up, history, keys[i]);
      RowsNext(reg, up, history, keys, i, chain);
      if row.Raised? {
        RowsRaisedPrefix(reg, up, history, keys, i + 1);
        return Raised;
      }
      chain := chain + [row.value];
    }
    assert keys[..|keys|] == keys;
    r := Ok(chain);
  }

  /** Once a step raises, every longer prefix of the elements raises too. */
  lemma {:induction false} StepsRaisedPrefix<T, U>(xs: seq<T>, f: T -> Outcome<U>, n: nat)
    requires n <= |xs| && Steps(xs[..n], f).Raised?
    ensures Steps(xs, f).Raised?
    decreases |xs| - n
  {
    if n < |xs| {
      assert xs[..n + 1][..n] == xs[..n];
      StepsRaisedPrefix(xs, f, n + 1);
    } else {
      assert xs[..n] == xs;
    }
  }

  /** Once a row raises, every longer prefix of the keys raises too. */
  lemma RowsRaisedPrefix(reg: seq<Registered>, up: Upstream, history: HistoryFetch, keys: seq<string>, n: nat)
    requires n <= |keys| && Rows(reg, up, history, keys[..n]).Raised?
    ensures Rows(reg, up, history, keys).Raised?
  {
    StepsRaisedPrefix(keys, k => LinkRow(reg, up, history, k), n);
  }

  // ----- properties --------------------------------------------------------

  /** A correlated key outside the registry is read from the market snapshot under its own name. */
  lemma UnregisteredKeyReadsMarket(reg: seq<Registered>, up: Upstream, history: HistoryFetch, k: string)
    requires !IsRegistered(reg, k)
    ensures var row := LinkRow(reg, up, history, k);
            (row == Ok(NoData(k, k)) <==>
               !(Resolver.Truthy(up.market) && k in up.market.value) || Get(up.market.value[k], "price") == Null) &&
            (row.Ok? && row.value.Linked? ==>
               row.value.price == Get(up.market.value[k], "price") && row.value.change == Get(up.market.value[k], "change_pct"))
  {
    var v := LinkedEntity(reg, k);
    assert v.entry.source == "market" && v.entry.technicalKey == Some(k);
  }

  /** The chain lists every correlated key once, in the registry's order, as long as no row raises. */
  lemma ChainFollowsCorrelations(reg: seq<Registered>, up: Upstream, history: HistoryFetch, trigger: string)
    requires IsRegistered(reg, trigger) && Lookup(reg, trigger).value.correlations.Some?
    requires ImpactChain(reg, up, history, trigger).Ok?
    ensures var keys := Lookup(reg, trigger).value.correlations.value;
            var chain := ImpactChain(reg, up, history, trigger).value;
            |chain| == |keys| && forall i :: 0 <= i < |keys| ==> chain[i].key == keys[i]
  {
    var keys := Lookup(reg, trigger).value.correlations.value;
    var chain := ImpactChain(reg, up, history, trigger).value;
    forall i | 0 <= i < |keys|
      ensures chain[i].key == keys[i]
    {
      assert chain[i] == LinkRow(reg, up, history, keys[i]).value;
    }
  }
}
