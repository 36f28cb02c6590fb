/** proxy.py, the `Shipment` resource: reconciliation of a batch
    create-shipment reply with the submitted shipments (`on_post`), and the
    merge of the shipment-ID and invoice-ID lookups (`on_get`). The carrier
    calls, the field mapper and the label generator are parameters. */
module Shipment {
  import opened Wrappers
  import opened Python
  import opened Reference
  import Utilities

  /** A field of a serialized ShippingOrderVO: a value, or zeep's SkipValue. */
  datatype Field = Value(v: Scalar) | Skip

  /** A serialized shipment: field name to field. */
  type Item = map<string, Field>

  const CargoKey := "cargoKey"
  const Label := "label"
  const ErrCode := "errCode"
  const ErrMessage := "errMessage"

  /** One entry of `shippingOrderDetailVO` in the carrier's batch reply. */
  datatype OrderDetail = OrderDetail(cargoKey: Scalar, errCode: Scalar, errMessage: Scalar)

  /** The carrier's batch create-shipment reply. */
  datatype BatchResult = BatchResult(outFlag: Scalar, count: Scalar, jobId: Scalar, details: seq<OrderDetail>)

  /** The two lists of the success reply. */
  datatype Partition = Partition(successful: seq<Item>, failed: seq<Item>)

  predicate Distinct<T(==)>(s: seq<T>) {
    forall i, j :: 0 <= i < j < |s| ==> s[i] != s[j]
  }

  /** Every entry is stored under its own cargoKey field. */
  predicate KeyedByCargoKey(byKey: map<Field, Item>) {
    forall f :: f in byKey ==> CargoKey in byKey[f] && byKey[f][CargoKey] == f
  }

  predicate HasCargoKeys(items: seq<Item>) {
    forall i :: 0 <= i < |items| ==> CargoKey in items[i]
  }

  /** No later item carries the same cargoKey as item `i`. */
  predicate LastWithKey(items: seq<Item>, i: int)
    requires HasCargoKeys(items) && 0 <= i < |items|
  {
    forall j :: i < j < |items| ==> items[j][CargoKey] != items[i][CargoKey]
  }

  /** `shipments_by_key`: the submitted items keyed by their cargoKey field;
      an item without a cargoKey raises KeyError. */
  function IndexSubmitted(items: seq<Item>): (r: Result<map<Field, Item>, Exception>)
    ensures r.Success? <==> HasCargoKeys(items)
    ensures r.Failure? ==> r.error == KeyError
  {
    if items == [] then Success(map[])
    else
      var n := |items| - 1;
      match IndexSubmitted(items[..n])
      case Failure(e) => Failure(e)
      case Success(byKey) =>
        if CargoKey !in items[n] then Failure(KeyError)
        else Success(byKey[items[n][CargoKey] := items[n]])
  }

  /** Every submitted key is present, each entry is a submitted item stored
      under its own cargoKey, and among duplicates the last one wins. */
  lemma {:induction false} IndexSubmittedContents(items: seq<Item>)
    requires HasCargoKeys(items)
    ensures var byKey := IndexSubmitted(items).value;
      && KeyedByCargoKey(byKey)
      && (forall f :: f in byKey ==> byKey[f] in items)
      && (forall i :: 0 <= i < |items| ==> items[i][CargoKey] in byKey)
      && (forall i :: 0 <= i < |items| && LastWithKey(items, i) ==> byKey[items[i][CargoKey]] == items[i])
  {
    if items != [] {
      var n := |items| - 1;
      var prefix := items[..n];
      assert HasCargoKeys(prefix);
      IndexSubmittedContents(prefix);
      var byKey := IndexSubmitted(items).value;
      forall i | 0 <= i < |items| && LastWithKey(items, i)
        ensures byKey[items[i][CargoKey]] == items[i]
      {
        if i < n {
          assert prefix[i] == items[i];
          assert LastWithKey(prefix, i);
        }
      }
    }
  }

  /** `response_by_key` as a Python dict: the keys in order of first
      occurrence, each with the last detail reported for it. */
  datatype DetailIndex = DetailIndex(keys: seq<Scalar>, latest: map<Scalar, OrderDetail>)

  /** No later detail carries the same cargoKey as detail `i`. */
  predicate LastDetail(details: seq<OrderDetail>, i: int)
    requires 0 <= i < |details|
  {
    forall j :: i < j < |details| ==> details[j].cargoKey != details[i].cargoKey
  }

  /** Assigning `d[key] = value` keeps a key's first position and replaces its value. */
  function IndexDetails(details: seq<OrderDetail>): (r: DetailIndex)
    ensures Distinct(r.keys)
    ensures forall k :: k in r.latest <==> k in r.keys
  {
    if details == [] then DetailIndex([], map[])
    else
      var n := |details| - 1;
      var prefix := IndexDetails(details[..n]);
      var d := details[n];
      if d.cargoKey in prefix.latest then DetailIndex(prefix.keys, prefix.latest[d.cargoKey := d])
      else DetailIndex(prefix.keys + [d.cargoKey], prefix.latest[d.cargoKey := d])
  }

  /** One more detail overwrites its key's entry. */
  lemma IndexDetailsStep(details: seq<OrderDetail>)
    requires details != []
    ensures var n := |details| - 1;
      IndexDetails(details).latest == IndexDetails(details[..n]).latest[details[n].cargoKey := details[n]]
  {
  }

  /** Every reported key is indexed, under a detail that carries that key. */
  lemma {:induction false} IndexDetailsContents(details: seq<OrderDetail>)
    ensures var index := IndexDetails(details);
      && (forall i :: 0 <= i < |details| ==> details[i].cargoKey in index.latest)
      && (forall k :: k in index.latest ==> index.latest[k].cargoKey == k && index.latest[k] in details)
  {
    if details != [] {
      var n := |details| - 1;
      var prefix := details[..n];
      IndexDetailsContents(prefix);
      IndexDetailsStep(details);
      var latest := IndexDetails(details).latest;
      forall i | 0 <= i < |details| ensures details[i].cargoKey in latest {
        if i < n {
          assert details[i] == prefix[i];
        }
      }
      forall k | k in latest ensures latest[k].cargoKey == k && latest[k] in details {
        if k != details[n].cargoKey {
          var d := IndexDetails(prefix).latest[k];
          var j :| 0 <= j < n && prefix[j] == d;
          assert details[j] == d;
        }
      }
    }
  }

  /** Among details with the same cargoKey, the last one is kept. */
  lemma {:induction false} IndexDetailsLastWins(details: seq<OrderDetail>, i: int)
    requires 0 <= i < |details| && LastDetail(details, i)
    ensures details[i].cargoKey in IndexDetails(details).latest
    ensures IndexDetails(details).latest[details[i].cargoKey] == details[i]
  {
    var n := |details| - 1;
    IndexDetailsStep(details);
    if i < n {
      var prefix := details[..n];
      assert details[n].cargoKey != details[i].cargoKey;
      assert LastDetail(prefix, i) by {
        forall j | i < j < n ensures prefix[j].cargoKey != prefix[i].cargoKey {
          assert prefix[j] == details[j] && prefix[i] == details[i];
        }
      }
      IndexDetailsLastWins(prefix, i);
      assert prefix[i] == details[i];
    }
  }

  /** The set of cargoKeys the carrier reported. */
  function ReportedKeys(details: seq<OrderDetail>): set<Scalar> {
    set i | 0 <= i < |details| :: details[i].cargoKey
  }

  /** The index has one key per distinct reported cargoKey. */
  lemma IndexDetailsCovers(details: seq<OrderDetail>)
    ensures |IndexDetails(details).keys| == |ReportedKeys(details)|
  {
    var index := IndexDetails(details);
    IndexDetailsContents(details);
    assert ReportedKeys(details) == set k | k in index.keys by {
      forall k | k in index.keys ensures k in ReportedKeys(details) {
        var d := index.latest[k];
        var i :| 0 <= i < |details| && details[i] == d;
        assert details[i].cargoKey == k;
      }
    }
    DistinctCardinality(index.keys);
  }

  lemma {:induction false} DistinctCardinality<T>(s: seq<T>)
    requires Distinct(s)
    ensures |set x | x in s| == |s|
  {
    if s != [] {
      var n := |s| - 1;
      DistinctCardinality(s[..n]);
      assert (set x | x in s) == (set x | x in s[..n]) + {s[n]};
      assert s[n] !in (set x | x in s[..n]);
    }
  }

  /** The value a SkipValue field is replaced with. */
  function StrippedField(f: Field): Field {
    if f == Skip then Value(PyStr("")) else f
  }

  predicate NoSkip(item: Item) {
    forall k :: k in item ==> item[k] != Skip
  }

  /** An item with every SkipValue field replaced by "". */
  function Stripped(item: Item): (r: Item)
    ensures r.Keys == item.Keys && NoSkip(r)
    ensures forall k :: k in item && item[k] != Skip ==> r[k] == item[k]
    ensures forall k :: k in item && item[k] == Skip ==> r[k] == Value(PyStr(""))
  {
    map k | k in item :: StrippedField(item[k])
  }

  function StrippedAll(byKey: map<Field, Item>): (r: map<Field, Item>)
    ensures r.Keys == byKey.Keys
    ensures forall f :: f in r ==> NoSkip(r[f]) && r[f].Keys == byKey[f].Keys
    ensures forall f, k :: f in byKey && k in byKey[f] && byKey[f][k].Value? ==> r[f][k] == byKey[f][k]
  {
    map f | f in byKey :: Stripped(byKey[f])
  }

  /** The item as it is appended: with its label when the carrier reports
      no error, otherwise with the carrier's error code and message. */
  function Reconciled(item: Item, d: OrderDetail, jobId: string, makeLabel: (Item, string) -> string): (r: Item)
    ensures d.errCode == PyNone ==>
      r.Keys == item.Keys + {Label} && r[Label] == Value(PyStr(makeLabel(item, jobId)))
    ensures d.errCode != PyNone ==>
      r.Keys == item.Keys + {ErrCode, ErrMessage} && r[ErrCode] == Value(d.errCode) && r[ErrMessage] == Value(d.errMessage)
    ensures d.errCode == PyNone ==> forall k :: k in item && k != Label ==> r[k] == item[k]
    ensures d.errCode != PyNone ==> forall k :: k in item && k != ErrCode && k != ErrMessage ==> r[k] == item[k]
    ensures CargoKey in item ==> CargoKey in r && r[CargoKey] == item[CargoKey]
  {
    if d.errCode == PyNone then item[Label := Value(PyStr(makeLabel(item, jobId)))]
    else item[ErrCode := Value(d.errCode)][ErrMessage := Value(d.errMessage)]
  }

  /** The partition built by walking the reported keys in order. A key with
      no submitted item raises KeyError. */
  function Partitioned(keys: seq<Scalar>, latest: map<Scalar, OrderDetail>, byKey: map<Field, Item>,
                       jobId: string, makeLabel: (Item, string) -> string): (r: Result<Partition, Exception>)
    requires forall i :: 0 <= i < |keys| ==> keys[i] in latest
    ensures r.Failure? <==> exists i :: 0 <= i < |keys| && Value(keys[i]) !in byKey
    ensures r.Failure? ==> r.error == KeyError
    ensures r.Success? ==> |r.value.successful| + |r.value.failed| == |keys|
  {
    if keys == [] then Success(Partition([], []))
    else
      var n := |keys| - 1;
      match Partitioned(keys[..n], latest, byKey, jobId, makeLabel)
      case Failure(e) => Failure(e)
      case Success(p) =>
        var k := keys[n];
        if Value(k) !in byKey then Failure(KeyError)
        else
          var item := Reconciled(byKey[Value(k)], latest[k], jobId, makeLabel);
          if latest[k].errCode == PyNone then Success(Partition(p.successful + [item], p.failed))
          else Success(Partition(p.successful, p.failed + [item]))
  }

  /** Items stored under a value key carry that key. (An item whose
      cargoKey is a SkipValue is stored under Skip and keeps that key even
      after its field is stripped to "".) */
  ghost predicate ValueKeyed(byKey: map<Field, Item>) {
    forall k :: Value(k) in byKey ==> CargoKey in byKey[Value(k)] && byKey[Value(k)][CargoKey] == Value(k)
  }

  predicate AllNoSkip(byKey: map<Field, Item>) {
    forall f :: f in byKey ==> NoSkip(byKey[f])
  }

  lemma StrippedAllKeyed(byKey: map<Field, Item>)
    requires KeyedByCargoKey(byKey)
    ensures ValueKeyed(StrippedAll(byKey)) && AllNoSkip(StrippedAll(byKey))
  {
  }

  /** Each reported key's item is in `successful` when its detail has no
      errCode, and in `failed` otherwise. */
  lemma {:induction false} PartitionContains(keys: seq<Scalar>, latest: map<Scalar, OrderDetail>, byKey: map<Field, Item>,
                                             jobId: string, makeLabel: (Item, string) -> string, i: int)
    requires forall i :: 0 <= i < |keys| ==> keys[i] in latest
    requires Partitioned(keys, latest, byKey, jobId, makeLabel).Success?
    requires 0 <= i < |keys|
    ensures Value(keys[i]) in byKey
    ensures var p := Partitioned(keys, latest, byKey, jobId, makeLabel).value;
      var x := Reconciled(byKey[Value(keys[i])], latest[keys[i]], jobId, makeLabel);
      if latest[keys[i]].errCode == PyNone then x in p.successful else x in p.failed
  {
    var n := |keys| - 1;
    if i < n {
      assert keys[..n][i] == keys[i];
      PartitionContains(keys[..n], latest, byKey, jobId, makeLabel, i);
    }
  }

  /** Nothing else is in the lists: every item carries a reported key, one
      without errCode in `successful` and one with errCode in `failed`. */
  lemma {:induction false} PartitionOnly(keys: seq<Scalar>, latest: map<Scalar, OrderDetail>, byKey: map<Field, Item>,
                                         jobId: string, makeLabel: (Item, string) -> string)
    requires forall i :: 0 <= i < |keys| ==> keys[i] in latest
    requires Partitioned(keys, latest, byKey, jobId, makeLabel).Success?
    requires ValueKeyed(byKey)
    ensures var p := Partitioned(keys, latest, byKey, jobId, makeLabel).value;
      && (forall x: Item :: x in p.successful ==>
            CargoKey in x && x[CargoKey].Value? && x[CargoKey].v in keys && latest[x[CargoKey].v].errCode == PyNone)
      && (forall x: Item :: x in p.failed ==>
            CargoKey in x && x[CargoKey].Value? && x[CargoKey].v in keys && latest[x[CargoKey].v].errCode != PyNone)
    ensures var p := Partitioned(keys, latest, byKey, jobId, makeLabel).value;
      AllNoSkip(byKey) ==> forall x :: x in p.successful || x in p.failed ==> NoSkip(x)
  {
    if keys != [] {
      var n := |keys| - 1;
      PartitionOnly(keys[..n], latest, byKey, jobId, makeLabel);
      assert forall k :: k in keys[..n] ==> k in keys;
    }
  }

  /** `Shipment.on_post` from the carrier reply on, up to the two lists:
      index submissions and details, blank out SkipValue fields, then partition. */
  function Reconciliation(submitted: seq<Item>, batch: BatchResult, makeLabel: (Item, string) -> string): (r: Result<Partition, Exception>)
    ensures r.Failure? ==> r.error == KeyError
    ensures r.Success? ==> HasCargoKeys(submitted)
    ensures r.Success? ==> |r.value.successful| + |r.value.failed| == |IndexDetails(batch.details).keys|
  {
    match IndexSubmitted(submitted)
    case Failure(e) => Failure(e)
    case Success(byKey) =>
      var index := IndexDetails(batch.details);
      Partitioned(index.keys, index.latest, StrippedAll(byKey), Str(batch.jobId), makeLabel)
  }

  /** The reconciliation raises KeyError exactly when a submitted item has no
      cargoKey or the carrier reports a cargoKey nobody submitted. */
  lemma ReconciliationFailsIffUnmatched(submitted: seq<Item>, batch: BatchResult, makeLabel: (Item, string) -> string)
    ensures Reconciliation(submitted, batch, makeLabel).Failure? <==>
      !HasCargoKeys(submitted) ||
      exists j :: 0 <= j < |batch.details| && !Submitted(submitted, batch.details[j].cargoKey)
    ensures Reconciliation(submitted, batch, makeLabel).Failure? ==> Reconciliation(submitted, batch, makeLabel).error == KeyError
  {
    var indexed := IndexSubmitted(submitted);
    if indexed.Success? {
      var byKey := indexed.value;
      var index := IndexDetails(batch.details);
      IndexSubmittedContents(submitted);
      IndexDetailsContents(batch.details);
      if exists j :: 0 <= j < |batch.details| && !Submitted(submitted, batch.details[j].cargoKey) {
        var j :| 0 <= j < |batch.details| && !Submitted(submitted, batch.details[j].cargoKey);
        var k := batch.details[j].cargoKey;
        var i :| 0 <= i < |index.keys| && index.keys[i] == k;
        assert Value(k) !in byKey;
      } else {
        forall i | 0 <= i < |index.keys| ensures Value(index.keys[i]) in StrippedAll(byKey) {
          var k := index.keys[i];
          var d := index.latest[k];
          var j :| 0 <= j < |batch.details| && batch.details[j] == d;
          assert Submitted(submitted, batch.details[j].cargoKey);
        }
      }
    }
  }

  /** Some submitted item carries cargoKey `k`. */
  predicate Submitted(items: seq<Item>, k: Scalar) {
    exists i :: 0 <= i < |items| && CargoKey in items[i] && items[i][CargoKey] == Value(k)
  }

  /** With outFlag "0", the two lists hold one item per distinct cargoKey
      the carrier reported. */
  lemma ReconciliationCounts(submitted: seq<Item>, batch: BatchResult, makeLabel: (Item, string) -> string)
    requires Reconciliation(submitted, batch, makeLabel).Success?
    ensures var p := Reconciliation(submitted, batch, makeLabel).value;
      |p.successful| + |p.failed| == |ReportedKeys(batch.details)|
  {
    IndexDetailsCovers(batch.details);
  }

  /** Every indexed detail key was reported by some detail. */
  lemma LatestIsReported(details: seq<OrderDetail>, k: Scalar)
    requires k in IndexDetails(details).latest
    ensures exists j :: 0 <= j < |details| && details[j].cargoKey == k
  {
    IndexDetailsContents(details);
    var j :| 0 <= j < |details| && details[j] == IndexDetails(details).latest[k];
  }

  /** Every returned item is a reported key's submission without SkipValues:
      submissions the carrier does not report are dropped. */
  lemma ReconciliationOutputs(submitted: seq<Item>, batch: BatchResult, makeLabel: (Item, string) -> string)
    requires Reconciliation(submitted, batch, makeLabel).Success?
    ensures var p := Reconciliation(submitted, batch, makeLabel).value;
      forall x :: x in p.successful || x in p.failed ==>
        NoSkip(x) && CargoKey in x && exists j :: 0 <= j < |batch.details| && x[CargoKey] == Value(batch.details[j].cargoKey)
  {
    var byKey := IndexSubmitted(submitted).value;
    var index := IndexDetails(batch.details);
    var stripped := StrippedAll(byKey);
    var p := Partitioned(index.keys, index.latest, stripped, Str(batch.jobId), makeLabel).value;
    assert Reconciliation(submitted, batch, makeLabel).value == p;
    assert ValueKeyed(stripped) && AllNoSkip(stripped) by {
      IndexSubmittedContents(submitted);
      StrippedAllKeyed(byKey);
    }
    PartitionOnly(index.keys, index.latest, stripped, Str(batch.jobId), makeLabel);
    forall x: Item | x in p.successful || x in p.failed
      ensures exists j :: 0 <= j < |batch.details| && x[CargoKey] == Value(batch.details[j].cargoKey)
    {
      LatestIsReported(batch.details, x[CargoKey].v);
    }
  }

  /** Each reported key lands in exactly one list: in `successful`, with a
      label generated from the stripped item and `str(jobId)`, when its last
      detail has no errCode; otherwise in `failed`, with that detail's
      errCode and errMessage. The item is the last submission with that key,
      SkipValues stripped. */
  lemma ReconciliationPlacement(submitted: seq<Item>, batch: BatchResult, makeLabel: (Item, string) -> string, j: int)
    requires Reconciliation(submitted, batch, makeLabel).Success?
    requires 0 <= j < |batch.details|
    ensures var k := batch.details[j].cargoKey;
      Value(k) in IndexSubmitted(submitted).value && k in IndexDetails(batch.details).latest
    ensures var p := Reconciliation(submitted, batch, makeLabel).value;
      var k := batch.details[j].cargoKey;
      var d := IndexDetails(batch.details).latest[k];
      var item := Stripped(IndexSubmitted(submitted).value[Value(k)]);
      if d.errCode == PyNone then
        && item[Label := Value(PyStr(makeLabel(item, Str(batch.jobId))))] in p.successful
        && forall x :: x in p.failed ==> !(CargoKey in x && x[CargoKey] == Value(k))
      else
        && item[ErrCode := Value(d.errCode)][ErrMessage := Value(d.errMessage)] in p.failed
        && forall x :: x in p.successful ==> !(CargoKey in x && x[CargoKey] == Value(k))
  {
    var byKey := IndexSubmitted(submitted).value;
    var index := IndexDetails(batch.details);
    IndexSubmittedContents(submitted);
    IndexDetailsContents(batch.details);
    StrippedAllKeyed(byKey);
    var k := batch.details[j].cargoKey;
    var i :| 0 <= i < |index.keys| && index.keys[i] == k;
    PartitionContains(index.keys, index.latest, StrippedAll(byKey), Str(batch.jobId), makeLabel, i);
    PartitionOnly(index.keys, index.latest, StrippedAll(byKey), Str(batch.jobId), makeLabel);
  }

  /** The inner loop of proxy.py:109-111: every SkipValue field of one
      shipment set to "". */
  method StripShipment(shipment: Item) returns (result: Item)
    ensures result == Stripped(shipment)
  {
    result := shipment;
    var fields := shipment.Keys;
    while fields != {}
      invariant fields <= shipment.Keys
      invariant result.Keys == shipment.Keys
      invariant forall ikey :: ikey in shipment ==>
        result[ikey] == if ikey in fields then shipment[ikey] else StrippedField(shipment[ikey])
      decreases fields
    {
      var ikey :| ikey in fields;
      if shipment[ikey] == Skip {
        result := result[ikey := Value(PyStr(""))];
      }
      fields := fields - {ikey};
    }
  }

  /** proxy.py:108-111: every SkipValue field of every indexed shipment becomes "", in place. */
  method StripSkipValues(shipmentsByKey: map<Field, Item>) returns (result: map<Field, Item>)
    ensures result == StrippedAll(shipmentsByKey)
  {
    result := shipmentsByKey;
    var pending := shipmentsByKey.Keys;
    while pending != {}
      invariant pending <= result.Keys == shipmentsByKey.Keys
      invariant forall f :: f in result ==>
        result[f] == if f in pending then shipmentsByKey[f] else Stripped(shipmentsByKey[f])
      decreases pending
    {
      var skey :| skey in pending;
      var shipment := StripShipment(result[skey]);
      result := result[skey := shipment];
      pending := pending - {skey};
    }
  }

  /** proxy.py:113-124: for each reported key in order, update its shipment in
      place (a label, or the carrier's error) and append it to one list. */
  method PartitionByKey(keys: seq<Scalar>, latest: map<Scalar, OrderDetail>, shipmentsByKey: map<Field, Item>,
                        jobId: string, makeLabel: (Item, string) -> string)
    returns (r: Result<Partition, Exception>)
    requires forall i :: 0 <= i < |keys| ==> keys[i] in latest
    requires Distinct(keys)
    ensures r == Partitioned(keys, latest, shipmentsByKey, jobId, makeLabel)
  {
    var byKey := shipmentsByKey;
    var successful, failed := [], [];
    var i := 0;
    while i < |keys|
      invariant 0 <= i <= |keys|
      invariant byKey.Keys == shipmentsByKey.Keys
      invariant forall j :: i <= j < |keys| && Value(keys[j]) in byKey ==>
        byKey[Value(keys[j])] == shipmentsByKey[Value(keys[j])]
      invariant Partitioned(keys[..i], latest, shipmentsByKey, jobId, makeLabel) == Success(Partition(successful, failed))
    {
      var shipment := latest[keys[i]];
      assert keys[..i + 1][..i] == keys[..i];
      assert keys[..i + 1][i] == keys[i];
      if Value(keys[i]) !in byKey {
        assert Partitioned(keys, latest, shipmentsByKey, jobId, makeLabel).Failure?;
        return Failure(KeyError);
      }
      var key := Value(keys[i]);
      if shipment.errCode == PyNone {
        // label the stored shipment, then list it as successful
        byKey := byKey[key := byKey[key][Label := Value(PyStr(makeLabel(byKey[key], jobId)))]];
        successful := successful + [byKey[key]];
      } else {
        // copy the carrier's error onto the stored shipment, then list it as failed
        byKey := byKey[key := byKey[key][ErrCode := Value(shipment.errCode)]];
        byKey := byKey[key := byKey[key][ErrMessage := Value(shipment.errMessage)]];
        failed := failed + [byKey[key]];
      }
      i := i + 1;
    }
    assert keys[..i] == keys;
    r := Success(Partition(successful, failed));
  }

  /** proxy.py:101-124, the part of `on_post` for outFlag "0", as the source runs them. */
  method Reconcile(submitted: seq<Item>, batch: BatchResult, makeLabel: (Item, string) -> string)
    returns (r: Result<Partition, Exception>)
    ensures r == Reconciliation(submitted, batch, makeLabel)
  {
    var shipmentsByKey :- IndexSubmitted(submitted);
    var responseByKey := IndexDetails(batch.details);
    shipmentsByKey := StripSkipValues(shipmentsByKey);
    r := PartitionByKey(responseByKey.keys, responseByKey.latest, shipmentsByKey, Str(batch.jobId), makeLabel);
  }

  /** What `on_post` leaves in the response. */
  datatype PostBody =
    | Created(outFlag: string, count: Scalar, jobId: Scalar, successful: seq<Item>, failed: seq<Item>)
    | CarrierError(raw: BatchResult)

  /** A status and body, or nothing set at all (an outFlag other than "0" and "1"). */
  datatype PostReply = Reply(status: HttpStatus, body: PostBody) | NothingSet

  /** The shipments handed to the carrier: one mapped item per body element. */
  function MappedShipments(objects: seq<PyObject>, parse: PyObject -> Item): (r: seq<Item>)
    ensures |r| == |objects| && forall i :: 0 <= i < |objects| ==> r[i] == parse(objects[i])
  {
    seq(|objects|, i requires 0 <= i < |objects| => parse(objects[i]))
  }

  /** `Shipment.on_post`. `parse` stands for `parse_shipment` followed by the
      type factory and serialisation, `createShipment` for the carrier call,
      `makeLabel` for `generate_zpl_label`. A body that is neither a list nor
      a string (a single JSON object included) makes `parameter_as_list`
      return None, and iterating None raises TypeError. */
  method OnPost(body: PyObject, parse: PyObject -> Item, createShipment: seq<Item> -> BatchResult,
                makeLabel: (Item, string) -> string)
    returns (r: Result<PostReply, Exception>)
    ensures body.Dict? ==> r == Failure(TypeError)
    ensures Utilities.ParameterAsList(body).None? ==> r == Failure(TypeError)
    ensures Utilities.ParameterAsList(body).Some? ==>
      var shipments := MappedShipments(Utilities.ParameterAsList(body).value, parse);
      var batch := createShipment(shipments);
      if batch.outFlag == PyStr("0") then
        match Reconciliation(shipments, batch, makeLabel)
        case Failure(e) => r == Failure(e)
        case Success(p) => r == Success(Reply(Ok200, Created("0", batch.count, batch.jobId, p.successful, p.failed)))
      else if batch.outFlag == PyStr("1") then
        r == Success(Reply(InternalServerError500, CarrierError(batch)))
      else
        r == Success(NothingSet)
  {
    var objects := Utilities.ParameterAsList(body);
    if objects.None? {
      return Failure(TypeError);
    }
    var shipments := [];
    var i := 0;
    while i < |objects.value|
      invariant 0 <= i <= |objects.value|
      invariant shipments == MappedShipments(objects.value[..i], parse)
    {
      shipments := shipments + [parse(objects.value[i])];
      i := i + 1;
    }
    assert objects.value[..i] == objects.value;
    var ykResp := createShipment(shipments);
    if ykResp.outFlag == PyStr("0") {
      var partition :- Reconcile(shipments, ykResp, makeLabel);
      r := Success(Reply(Ok200, Created(Str(ykResp.outFlag), ykResp.count, ykResp.jobId,
                                        partition.successful, partition.failed)));
    } else if ykResp.outFlag == PyStr("1") {
      r := Success(Reply(InternalServerError500, CarrierError(ykResp)));
    } else {
      r := Success(NothingSet);
    }
  }

  /** One record of `shippingDeliveryDetailVO`, kept opaque. */
  datatype DeliveryDetail = DeliveryDetail(fields: map<string, Scalar>)

  /** The carrier's query reply, serialised: its flag, count, detail list and
      the remaining fields. */
  datatype QueryResult = QueryResult(outFlag: Scalar, count: int, details: seq<DeliveryDetail>, rest: map<string, Scalar>)

  /** The arguments of one `queryShipment` call besides the fixed credentials and language. */
  datatype Lookup = Lookup(keys: seq<string>, keyType: int, addHistoricalData: bool, onlyTracking: bool)

  /** Status 200 and the body; None stands for the empty JSON object. */
  datatype GetReply = GetReply(status: HttpStatus, body: Option<QueryResult>)

  /** Python truthiness of an optional list parameter. */
  predicate Truthy(ids: Option<seq<string>>) {
    ids.Some? && |ids.value| > 0
  }

  const NoIdentifier: Exception := HttpError(BadRequest400, "400 Bad Request", "No identifier was provided")

  /** `result.outFlag == SUCCESSFUL`. A str or int flag has no equality with
      a CallResult of its own, so Python evaluates `SUCCESSFUL.__eq__(flag)`. */
  function Succeeded(q: QueryResult): (r: Result<bool, Exception>)
    ensures r == Success(true) <==> q.outFlag == PyStr("0") || q.outFlag == PyInt(0)
    ensures r.Failure? <==> q.outFlag.PyNone?
    ensures r.Failure? ==> r.error == AttributeError
  {
    if q.outFlag.PyNone? then Equals(Successful, OperandOf(q.outFlag))
    else
      SuccessfulMatchesZero(q.outFlag);
      Equals(Successful, OperandOf(q.outFlag))
  }

  /** The lookup `on_get` makes for an identifier list that is not None. */
  function LookupFor(ids: Option<seq<string>>, keyType: int, addHistoricalData: bool, onlyTracking: bool): seq<Lookup> {
    if ids.Some? then [Lookup(ids.value, keyType, addHistoricalData, onlyTracking)] else []
  }

  /** The outcome of the flag comparison for a lookup that was made, or
      "not successful" when none was. */
  function Checked(lookups: seq<Lookup>, queryShipment: Lookup -> QueryResult): Result<bool, Exception> {
    if lookups == [] then Success(false) else Succeeded(queryShipment(lookups[0]))
  }

  /** `Shipment.on_get`. The carrier is `queryShipment`; `calls` lists the
      calls made, in order. Without a truthy identifier list it raises 400
      before any call. Otherwise each list that is not None is looked up
      (shipment IDs first), a reply counts when its outFlag equals SUCCESSFUL,
      and two counting replies merge: counts add up and the invoice details
      follow the shipment details. The status is 200 even when nothing
      counted; the body is then the empty object. */
  method OnGet(shipmentId: Option<seq<string>>, invoiceId: Option<seq<string>>,
               addHistoricalData: bool, trackingUrlOnly: bool, queryShipment: Lookup -> QueryResult)
    returns (calls: seq<Lookup>, r: Result<GetReply, Exception>)
    ensures !Truthy(shipmentId) && !Truthy(invoiceId) ==> calls == [] && r == Failure(NoIdentifier)
    ensures Truthy(shipmentId) || Truthy(invoiceId) ==>
      var byShipment := LookupFor(shipmentId, IdentifierShipmentId, addHistoricalData, trackingUrlOnly);
      var byInvoice := LookupFor(invoiceId, IdentifierInvoiceId, addHistoricalData, trackingUrlOnly);
      var shipmentOk := Checked(byShipment, queryShipment);
      var invoiceOk := Checked(byInvoice, queryShipment);
      && calls == byShipment + (if shipmentOk.Failure? then [] else byInvoice)
      && (r.Failure? <==> shipmentOk.Failure? || invoiceOk.Failure?)
      && (r.Failure? ==> r.error == AttributeError)
      && (r.Success? ==> r.value.status == Ok200)
      && (r.Success? && shipmentOk == Success(true) && invoiceOk == Success(true) ==>
            var s := queryShipment(byShipment[0]);
            var v := queryShipment(byInvoice[0]);
            r.value.body == Some(QueryResult(s.outFlag, s.count + v.count, s.details + v.details, s.rest)))
      && (r.Success? && shipmentOk == Success(true) && invoiceOk != Success(true) ==>
            r.value.body == Some(queryShipment(byShipment[0])))
      && (r.Success? && shipmentOk != Success(true) && invoiceOk == Success(true) ==>
            r.value.body == Some(queryShipment(byInvoice[0])))
      && (r.Success? && shipmentOk != Success(true) && invoiceOk != Success(true) ==>
            r.value.body == None)
  {
    calls := [];
    var responseContent: Option<QueryResult> := None;
    if !Truthy(shipmentId) && !Truthy(invoiceId) {
      return calls, Failure(NoIdentifier);
    }
    if shipmentId.Some? {
      var lookup := Lookup(shipmentId.value, IdentifierShipmentId, addHistoricalData, trackingUrlOnly);
      var queryByShipmentId := queryShipment(lookup);
      calls := calls + [lookup];
      var successful := Equals(Successful, OperandOf(queryByShipmentId.outFlag));
      if successful.Failure? {
        return calls, Failure(successful.error);
      }
      if successful.value {
        responseContent := Some(queryByShipmentId);
      }
    }
    if invoiceId.Some? {
      var lookup := Lookup(invoiceId.value, IdentifierInvoiceId, addHistoricalData, trackingUrlOnly);
      var queryByInvoiceId := queryShipment(lookup);
      calls := calls + [lookup];
      var successful := Equals(Successful, OperandOf(queryByInvoiceId.outFlag));
      if successful.Failure? {
        return calls, Failure(successful.error);
      }
      if successful.value {
        if responseContent.None? {
          responseContent := Some(queryByInvoiceId);
        } else {
          var merged := responseContent.value;
          merged := merged.(count := merged.count + queryByInvoiceId.count);
          merged := merged.(details := merged.details + queryByInvoiceId.details);
          responseContent := Some(merged);
        }
      }
    }
    r := Success(GetReply(Ok200, responseContent));
  }
}
