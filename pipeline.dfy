/**
 * How the stages fit together: the record the ingestor publishes, the key
 * the sink stores it under, and the aggregator's listing and suffix filter
 * that read it back.
 */
module Pipeline {

  import opened Common
  import opened Json
  import opened Text
  import opened Storage
  import Ingestor
  import Sink
  import Aggregator

  /** Every key the sink writes is under the aggregator's input prefix, inside a folder, with the .json suffix. */
  lemma {:induction false} SinkKeysAreAggregated(partition: string, tag: string, token: string)
    ensures var k := Sink.ObjectKey(partition, tag, token);
      && StartsWith(k, Aggregator.INPUT_PREFIX)
      && InFolder(k, Aggregator.INPUT_PREFIX)
      && EndsWith(k, Aggregator.JSON_SUFFIX)
  {
    Sink.KeyShape(partition, tag, token);
  }

  /** A visited .json key whose body decodes contributes its record to what is gathered. */
  lemma {:induction false} GatheredHas(s: Store, keys: seq<Key>, i: nat, decode: Bytes -> Option<Record>)
    requires i < |keys| && EndsWith(keys[i], Aggregator.JSON_SUFFIX)
    requires keys[i] in s.objects && decode(s.objects[keys[i]]).Some?
    ensures decode(s.objects[keys[i]]).value in Aggregator.Gathered(s, keys, decode)
  {
    assert keys == keys[..i] + [keys[i]] + keys[i + 1..];
    Aggregator.OneObjectAtATime(s, keys[..i], keys[i], keys[i + 1..], decode);
  }

  /** An object in a folder under the input prefix whose .json body decodes is collected by the aggregator. */
  lemma {:induction false} StoredRecordIsCollected(s: Store, key: Key, r: Record, decode: Bytes -> Option<Record>)
    requires s.Valid()
    requires InFolder(key, Aggregator.INPUT_PREFIX) && EndsWith(key, Aggregator.JSON_SUFFIX)
    requires key in s.objects && decode(s.objects[key]) == Some(r)
    ensures r in Aggregator.Collected(s, decode)
  {
    var keys := Aggregator.Enumerated(s);
    Aggregator.EnumeratedOnce(s, key);
    assert key in multiset(keys);
    var i :| 0 <= i < |keys| && keys[i] == key;
    GatheredHas(s, keys, i, decode);
  }

  /**
   * Sink then aggregator: after a sink invocation that stores all its
   * records with distinct '_'-free clock readings, and with a body codec that
   * reads back what it wrote, the aggregator collects every delivered record.
   */
  lemma {:induction false} SinkThenAggregate(s: Store, ps: seq<Bytes>, decode: Bytes -> Option<Record>, encode: Record -> Bytes,
                          clock: nat -> string, readBack: Bytes -> Option<Record>, i: nat)
    requires s.Valid()
    requires i < |ps|
    requires Sink.Plan(ps, 0, decode, encode, clock).failedAt.None?
    requires forall j :: 0 <= j < |ps| ==> '_' !in clock(j)
    requires forall a, b :: 0 <= a < b < |ps| ==> clock(a) != clock(b)
    requires forall r :: readBack(encode(r)) == Some(r)
    ensures decode(ps[i]).Some?
    ensures decode(ps[i]).value in Aggregator.Collected(s.PutAll(Sink.Plan(ps, 0, decode, encode, clock).puts), readBack)
  {
    var puts := Sink.Plan(ps, 0, decode, encode, clock).puts;
    Sink.EveryRecordStored(s, ps, decode, encode, clock, i);
    var r := decode(ps[i]).value;
    var k := puts[i].key;
    assert Sink.KeyFor(r, clock(i)) == Some(k) by {
      Sink.PlanFollowsDelivery(ps, 0, decode, encode, clock);
      assert Sink.Step(ps[i], i, decode, encode, clock) == Some(puts[i]);
    }
    var t := s.PutAll(puts);
    StoredSinkObjectIsCollected(t, r, clock(i), k, encode, readBack);
  }

  /** A record the sink stored under its key is collected when the codec reads back what it wrote. */
  lemma {:induction false} StoredSinkObjectIsCollected(t: Store, r: Record, token: string, k: Key, encode: Record -> Bytes,
                                    readBack: Bytes -> Option<Record>)
    requires t.Valid()
    requires Sink.KeyFor(r, token) == Some(k)
    requires t.Get(k) == Some(encode(r))
    requires readBack(encode(r)) == Some(r)
    ensures r in Aggregator.Collected(t, readBack)
  {
    SinkKeysAreAggregated(Sink.Partition(r).value, Sink.Tag(r), token);
    StoredRecordIsCollected(t, k, r, readBack);
  }

  /**
   * Ingestor then sink: the published record is partitioned by the first
   * entry's date up to its 'T' and gets the default tag, as long as no entry's
   * datatype is literally "date" or "datatype".
   */
  lemma {:induction false} PublishedRecordPlacement(reply: Ingestor.Reply, d: string)
    requires Ingestor.Ingest(reply).Published?
    requires reply.Reply? && reply.body.Results? && reply.body.entries != []
    requires reply.body.entries[0].date == Some(Str(d))
    requires "date" !in Ingestor.Labels(reply.body.entries) && "datatype" !in Ingestor.Labels(reply.body.entries)
    ensures var r := Ingestor.Ingest(reply).record;
      Sink.Partition(r) == Some(BeforeFirst(d, 'T')) && Sink.Tag(r) == Sink.DEFAULT_TAG
  {
    Ingestor.PublishedFields(reply);
    Ingestor.PublishedSeed(reply);
  }

  /**
   * Ingestor then aggregator: the published record survives dropna when the
   * first entry's date and station are not null and no entry's datatype is
   * literally "date" or "station".
   */
  lemma {:induction false} PublishedRecordIsComplete(reply: Ingestor.Reply)
    requires Ingestor.Ingest(reply).Published?
    requires reply.Reply? && reply.body.Results? && reply.body.entries != []
    requires reply.body.entries[0].date != Some(Null) && reply.body.entries[0].station != Some(Null)
    requires "date" !in Ingestor.Labels(reply.body.entries) && "station" !in Ingestor.Labels(reply.body.entries)
    ensures Aggregator.Complete(Ingestor.Ingest(reply).record)
  {
    Ingestor.PublishedFields(reply);
    Ingestor.PublishedSeed(reply);
  }
}
