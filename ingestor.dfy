/**
 * The provider ingestor (noaa_api.py): one query to the weather provider for
 * a one-day window, then the result entries folded into a single record that
 * is published once onto the stream.
 */
module Ingestor {

  import opened Common
  import opened Json

  /** The hard-coded query day. */
  const RUN_DATE: string := "2025-04-01"
  const DATASET_ID: string := "GHCND"
  const STATION_ID: string := "GHCND:USW00023234"
  const ROW_LIMIT: int := 1000
  const UNITS: string := "standard"
  /** The constant stream partition key of every publish. */
  const PARTITION_KEY: string := "weather-data"

  datatype Query = Query(datasetid: string, stationid: string, startdate: string, enddate: string,
                         limit: int, units: string)

  /** The query parameters the handler sends: one station, one dataset, a window of the run date alone. */
  function Params(): (q: Query)
    ensures q.startdate == RUN_DATE && q.enddate == RUN_DATE
    ensures q.datasetid == DATASET_ID && q.stationid == STATION_ID
    ensures q.limit == ROW_LIMIT && q.units == UNITS
  {
    Query(DATASET_ID, STATION_ID, RUN_DATE, RUN_DATE, ROW_LIMIT, UNITS)
  }

  /** One entry of the provider's "results" list; a field the entry lacks is None. */
  datatype Entry = Entry(date: Option<Value>, station: Option<Value>, dataType: Option<string>, value: Option<Value>)

  /** The decoded reply body: not JSON at all, or its "results" list (an absent list reads as empty). */
  datatype Body = NotJson | Results(entries: seq<Entry>)

  /** What the HTTP call yields: it raised, or a status, a text and a body. */
  datatype Reply = Unreachable | Reply(status: int, text: string, body: Body)

  datatype Failure =
    | RequestFailed
    | ProviderError(status: int, text: string)
    | BadBody
    | NoData
    | MissingField(name: string)

  datatype Outcome = Published(record: Record) | Failed(failure: Failure)

  function StatusOf(o: Outcome): int
  {
    if o.Published? then 200 else 500
  }

  /** The field whose lookup raises KeyError for this entry, if any: `value` is read before `datatype`. */
  function Gap(e: Entry): Option<string>
  {
    if e.value.None? then Some("value") else if e.dataType.None? then Some("datatype") else None
  }

  /** The seeded record: date and station of the first entry. */
  function Seed(first: Entry): Record
    requires first.date.Some? && first.station.Some?
  {
    map["date" := first.date.value, "station" := first.station.value]
  }

  /** The loop over entries i.. with the record built so far: each entry writes datatype -> value. */
  function Build(acc: Record, es: seq<Entry>, i: nat): (o: Outcome)
    requires i <= |es|
    ensures o.Published? ==> acc.Keys <= o.record.Keys
    ensures o.Failed? ==> o.failure == MissingField("value") || o.failure == MissingField("datatype")
    decreases |es| - i
  {
    if i == |es| then Published(acc)
    else match Gap(es[i])
      case Some(field) => Failed(MissingField(field))
      case None => Build(acc[es[i].dataType.value := es[i].value.value], es, i + 1)
  }

  /** What one invocation does with the provider's reply. */
  function Ingest(reply: Reply): (o: Outcome)
    ensures reply.Unreachable? ==> o == Failed(RequestFailed)
    ensures reply.Reply? && reply.status != 200 ==> o == Failed(ProviderError(reply.status, reply.text))
    ensures o.Published? ==> reply.Reply? && reply.status == 200 && reply.body.Results? && reply.body.entries != []
    ensures o.Published? ==> "date" in o.record && "station" in o.record
  {
    match reply
    case Unreachable => Failed(RequestFailed)
    case Reply(status, text, body) =>
      if status != 200 then Failed(ProviderError(status, text))
      else match body
        case NotJson => Failed(BadBody)
        case Results(es) =>
          if es == [] then Failed(NoData)
          else if es[0].date.None? then Failed(MissingField("date"))
          else if es[0].station.None? then Failed(MissingField("station"))
          else Build(Seed(es[0]), es, 0)
  }

  /** The datatypes named by entries. */
  function Labels(es: seq<Entry>): set<string>
  {
    set e | e in es && e.dataType.Some? :: e.dataType.value
  }

  // ----- properties of the fold -----

  /** The loop fails exactly when some remaining entry lacks a value or a datatype. */
  lemma {:induction false} BuildFails(acc: Record, es: seq<Entry>, i: nat)
    requires i <= |es|
    ensures Build(acc, es, i).Failed? <==> exists j :: i <= j < |es| && Gap(es[j]).Some?
    decreases |es| - i
  {
    if i < |es| && Gap(es[i]).None? {
      BuildFails(acc[es[i].dataType.value := es[i].value.value], es, i + 1);
    }
  }

  /** The record's fields are the seeded ones plus every datatype the entries name. */
  lemma {:induction false} BuildKeys(acc: Record, es: seq<Entry>, i: nat)
    requires i <= |es|
    requires Build(acc, es, i).Published?
    ensures Build(acc, es, i).record.Keys == acc.Keys + Labels(es[i..])
    decreases |es| - i
  {
    if i < |es| {
      BuildKeys(acc[es[i].dataType.value := es[i].value.value], es, i + 1);
      assert es[i..] == [es[i]] + es[i + 1..];
    } else {
      assert es[i..] == [];
    }
  }

  /** A field that no remaining entry names keeps the value it had. */
  lemma {:induction false} BuildKeeps(acc: Record, es: seq<Entry>, i: nat, k: string)
    requires i <= |es|
    requires Build(acc, es, i).Published?
    requires k in acc
    requires forall j :: i <= j < |es| ==> es[j].dataType != Some(k)
    ensures k in Build(acc, es, i).record && Build(acc, es, i).record[k] == acc[k]
    decreases |es| - i
  {
    if i < |es| {
      BuildKeeps(acc[es[i].dataType.value := es[i].value.value], es, i + 1, k);
    }
  }

  /** Last write wins: a datatype's field holds the value of the last entry naming it. */
  lemma {:induction false} BuildLastWins(acc: Record, es: seq<Entry>, i: nat, j: nat)
    requires i <= j < |es|
    requires Build(acc, es, i).Published?
    requires forall m :: j < m < |es| ==> es[m].dataType != es[j].dataType
    ensures es[j].dataType.Some? && es[j].value.Some?
    ensures es[j].dataType.value in Build(acc, es, i).record
    ensures Build(acc, es, i).record[es[j].dataType.value] == es[j].value.value
    decreases |es| - i
  {
    var acc' := acc[es[i].dataType.value := es[i].value.value];
    if i == j {
      BuildKeeps(acc', es, i + 1, es[j].dataType.value);
    } else {
      BuildLastWins(acc', es, i + 1, j);
    }
  }

  // ----- properties of one invocation -----

  /**
   * Failure cases: nothing is published when the request raises, the status
   * is not 200, the body is not JSON, the results are empty, or an entry lacks
   * a field the handler reads.
   */
  lemma IngestFails(reply: Reply)
    ensures Ingest(reply).Failed? <==>
      || reply.Unreachable?
      || reply.status != 200
      || reply.body.NotJson?
      || reply.body.entries == []
      || reply.body.entries[0].date.None?
      || reply.body.entries[0].station.None?
      || exists j :: 0 <= j < |reply.body.entries| && Gap(reply.body.entries[j]).Some?
  {
    if reply.Reply? && reply.status == 200 && reply.body.Results? && reply.body.entries != []
       && reply.body.entries[0].date.Some? && reply.body.entries[0].station.Some?
    {
      var es := reply.body.entries;
      BuildFails(Seed(es[0]), es, 0);
    }
  }

  /** The one published record's fields: date, station and every datatype an entry names. */
  lemma PublishedFields(reply: Reply)
    requires Ingest(reply).Published?
    ensures reply.Reply? && reply.body.Results? && reply.body.entries != []
    ensures Ingest(reply).record.Keys == {"date", "station"} + Labels(reply.body.entries)
  {
    var es := reply.body.entries;
    BuildKeys(Seed(es[0]), es, 0);
    assert es[0..] == es;
  }

  /** Last write wins in the published record: a datatype holds the value of the last entry naming it. */
  lemma PublishedLastWins(reply: Reply, j: nat)
    requires Ingest(reply).Published?
    requires reply.Reply? && reply.body.Results? && j < |reply.body.entries|
    requires forall m :: j < m < |reply.body.entries| ==> reply.body.entries[m].dataType != reply.body.entries[j].dataType
    ensures var e := reply.body.entries[j]; var r := Ingest(reply).record;
      && e.dataType.Some? && e.value.Some?
      && e.dataType.value in r && r[e.dataType.value] == e.value.value
  {
    BuildLastWins(Seed(reply.body.entries[0]), reply.body.entries, 0, j);
  }

  /**
   * The published record's date and station are the first entry's, unless an
   * entry's datatype is literally "date" or "station" and overwrites them.
   */
  lemma PublishedSeed(reply: Reply)
    requires Ingest(reply).Published?
    ensures reply.Reply? && reply.body.Results? && reply.body.entries != []
    ensures var first := reply.body.entries[0]; first.date.Some? && first.station.Some?
    ensures var es := reply.body.entries; var r := Ingest(reply).record;
      && ("date" !in Labels(es) ==> "date" in r && r["date"] == es[0].date.value)
      && ("station" !in Labels(es) ==> "station" in r && r["station"] == es[0].station.value)
  {
    var es := reply.body.entries;
    var seed := Seed(es[0]);
    if "date" !in Labels(es) {
      BuildKeeps(seed, es, 0, "date");
    }
    if "station" !in Labels(es) {
      BuildKeeps(seed, es, 0, "station");
    }
  }

  /** The query asks for a single day: the window starts and ends on the run date. */
  lemma SingleDayWindow()
    ensures Params().startdate == Params().enddate == RUN_DATE
  {
  }

  /**
   * Two observations of one day and station fold into one record
   * {date, station, TMAX: 70, TMIN: 50}.
   */
  lemma TwoObservationsOneRecord()
    ensures var d := Str("2025-04-01T00:00:00"); var st := Str("GHCND:USW00023234");
      Ingest(Reply(200, "", Results([Entry(Some(d), Some(st), Some("TMAX"), Some(Num(70))),
                                     Entry(Some(d), Some(st), Some("TMIN"), Some(Num(50)))])))
      == Published(map["date" := d, "station" := st, "TMAX" := Num(70), "TMIN" := Num(50)])
  {
  }

  // ----- the stream and the handler -----

  datatype StreamRecord = StreamRecord(partitionKey: string, data: Bytes)

  /** The Kinesis stream the handler publishes to; put_record appends one record. */
  class Stream {
    var records: seq<StreamRecord>

    method PutRecord(partitionKey: string, data: Bytes)
      modifies this
      ensures records == old(records) + [StreamRecord(partitionKey, data)]
    {
      records := records + [StreamRecord(partitionKey, data)];
    }
  }

  /**
   * lambda_handler: query the provider once, fold its entries into one record
   * and publish it, or publish nothing and report status 500.
   */
  method Invoke(provider: Query -> Reply, encode: Record -> Bytes, stream: Stream) returns (status: int, outcome: Outcome)
    modifies stream
    ensures outcome == Ingest(provider(Params()))
    ensures status == StatusOf(outcome)
    ensures outcome.Published? ==>
      stream.records == old(stream.records) + [StreamRecord(PARTITION_KEY, encode(outcome.record))]
    ensures outcome.Failed? ==> stream.records == old(stream.records)
  {
    var reply := provider(Params());
    if reply.Unreachable? {
      return 500, Failed(RequestFailed);
    }
    if reply.status != 200 {
      return 500, Failed(ProviderError(reply.status, reply.text));
    }
    if reply.body.NotJson? {
      return 500, Failed(BadBody);
    }
    var results := reply.body.entries;
    if |results| == 0 {
      return 500, Failed(NoData);
    }
    if results[0].date.None? {
      return 500, Failed(MissingField("date"));
    }
    if results[0].station.None? {
      return 500, Failed(MissingField("station"));
    }
    var record := map["date" := results[0].date.value, "station" := results[0].station.value];
    var i := 0;
    while i < |results|
      invariant 0 <= i <= |results|
      invariant Build(record, results, i) == Ingest(reply)
    {
      var entry := results[i];
      if entry.value.None? {
        return 500, Failed(MissingField("value"));
      }
      if entry.dataType.None? {
        return 500, Failed(MissingField("datatype"));
      }
      record := record[entry.dataType.value := entry.value.value];
      i := i + 1;
    }
    stream.PutRecord(PARTITION_KEY, encode(record));
    return 200, Published(record);
  }
}
