/**
 * The channel sink (kinesis_s3.py): every record delivered from the stream
 * is decoded and written to the bucket under a key built from its date, its
 * datatype and a clock reading. Records are handled one at a time in
 * delivery order; the first record that fails aborts the invocation.
 */
module Sink {

  import opened Common
  import opened Json
  import opened Text
  import opened Storage

  const KEY_PREFIX: string := "weather_data/"
  const KEY_SUFFIX: string := ".json"
  /** Partition of a record without a date field. */
  const UNKNOWN_PARTITION: string := "unknown"
  /** Tag of a record without a datatype field. */
  const DEFAULT_TAG: string := "weather"

  /**
   * The partition segment: the date up to its first 'T', or "unknown" when
   * there is no date field; None when the date is not a string (str.split
   * raises there).
   */
  function Partition(r: Record): (p: Option<string>)
    ensures p.Some? <==> "date" !in r || r["date"].Str?
    ensures p.Some? ==> 'T' !in p.value
    ensures "date" !in r ==> p == Some(UNKNOWN_PARTITION)
    ensures "date" in r && r["date"].Str? ==>
      var d := r["date"].s;
      StartsWith(d, p.value) && (|p.value| < |d| ==> d[|p.value|] == 'T') && ('T' !in d ==> p.value == d)
  {
    if "date" !in r then Some(UNKNOWN_PARTITION)
    else match r["date"]
      case Str(d) => Some(BeforeFirst(d, 'T'))
      case _ => None
  }

  /** The datatype field as formatted into the key, or the default tag. */
  function Tag(r: Record): (t: string)
    ensures "datatype" !in r ==> t == DEFAULT_TAG
    ensures "datatype" in r && r["datatype"].Str? ==> t == r["datatype"].s
  {
    if "datatype" in r then Show(r["datatype"]) else DEFAULT_TAG
  }

  /** weather_data/{date}/{datatype}_{timestamp}.json: it opens with the partition's folder and closes with the clock reading. */
  function ObjectKey(partition: string, tag: string, token: string): (k: Key)
    ensures StartsWith(k, KEY_PREFIX + partition + "/")
    ensures EndsWith(k, "_" + token + KEY_SUFFIX)
  {
    var folder := KEY_PREFIX + partition + "/";
    var tail := "_" + token + KEY_SUFFIX;
    var k := folder + tag + tail;
    assert k[..|folder|] == folder;
    assert k[|k| - |tail|..] == tail;
    k
  }

  /** A date segment without '/' is exactly one folder of the aggregator's delimiter listing. */
  lemma ObjectKeyFolder(partition: string, tag: string, token: string)
    requires '/' !in partition
    ensures var k := ObjectKey(partition, tag, token);
      InFolder(k, KEY_PREFIX) && FolderOf(k, KEY_PREFIX) == KEY_PREFIX + partition + "/"
  {
    var k := ObjectKey(partition, tag, token);
    KeyShape(partition, tag, token);
    var rest := k[|KEY_PREFIX|..];
    assert rest == partition + "/" + tag + "_" + token + KEY_SUFFIX;
    assert StartsWith(rest, partition + ['/']);
    BeforeFirstIs(rest, '/', partition);
  }

  /**
   * The key a record is stored under with this clock reading, or None when the
   * record makes the handler raise: it lies in the record's partition folder.
   */
  function KeyFor(r: Record, token: string): (k: Option<Key>)
    ensures k.Some? <==> Partition(r).Some?
    ensures k.Some? ==> StartsWith(k.value, KEY_PREFIX + Partition(r).value + "/")
  {
    match Partition(r)
    case None => None
    case Some(p) => Some(ObjectKey(p, Tag(r), token))
  }

  /** Every key lies under the input prefix, in a partition folder, and has the JSON suffix. */
  lemma KeyShape(partition: string, tag: string, token: string)
    ensures var k := ObjectKey(partition, tag, token);
      StartsWith(k, KEY_PREFIX) && EndsWith(k, KEY_SUFFIX) && InFolder(k, KEY_PREFIX)
  {
    var k := ObjectKey(partition, tag, token);
    assert k[..|KEY_PREFIX|] == KEY_PREFIX;
    assert k[|k| - |KEY_SUFFIX|..] == KEY_SUFFIX;
    assert k[|KEY_PREFIX|..][|partition|] == '/';
  }

  /** The clock reading a key was built with: what follows its last '_', less the suffix. */
  function TokenOf(k: Key): string
  {
    var seg := LastSegment(k, '_');
    if EndsWith(seg, KEY_SUFFIX) then seg[..|seg| - |KEY_SUFFIX|] else seg
  }

  /** A '_'-free clock reading (a float timestamp) can be read back from the key. */
  lemma TokenRecovered(partition: string, tag: string, token: string)
    requires '_' !in token
    ensures TokenOf(ObjectKey(partition, tag, token)) == token
  {
    var head := KEY_PREFIX + partition + "/" + tag;
    var tail := token + KEY_SUFFIX;
    assert ObjectKey(partition, tag, token) == head + ['_'] + tail;
    LastSegmentOf(head, '_', tail);
    assert tail[|tail| - |KEY_SUFFIX|..] == KEY_SUFFIX;
    assert tail[..|tail| - |KEY_SUFFIX|] == token;
  }

  /** Two writes with different '_'-free clock readings never share a key, whatever their records. */
  lemma DistinctTokensDistinctKeys(p1: string, t1: string, token1: string, p2: string, t2: string, token2: string)
    requires '_' !in token1 && '_' !in token2 && token1 != token2
    ensures ObjectKey(p1, t1, token1) != ObjectKey(p2, t2, token2)
  {
    TokenRecovered(p1, t1, token1);
    TokenRecovered(p2, t2, token2);
  }

  /** What the handler does with the i-th delivered payload: one put, or None when it raises. */
  function Step(payload: Bytes, i: nat, decode: Bytes -> Option<Record>, encode: Record -> Bytes,
                clock: nat -> string): (s: Option<PutRequest>)
    ensures s.Some? <==> decode(payload).Some? && Partition(decode(payload).value).Some?
    ensures s.Some? ==> s.value.body == encode(decode(payload).value)
  {
    match decode(payload)
    case None => None
    case Some(r) =>
      match KeyFor(r, clock(i))
      case None => None
      case Some(k) => Some(PutRequest(k, encode(r)))
  }

  /** The step of every delivered payload, in delivery order. */
  function Steps(ps: seq<Bytes>, decode: Bytes -> Option<Record>, encode: Record -> Bytes,
                 clock: nat -> string): (steps: seq<Option<PutRequest>>)
    ensures |steps| == |ps|
    ensures forall i :: 0 <= i < |ps| ==> steps[i] == Step(ps[i], i, decode, encode, clock)
  {
    seq(|ps|, i requires 0 <= i < |ps| => Step(ps[i], i, decode, encode, clock))
  }

  /** The puts a run issues and, when it raised, the index of the record it raised on. */
  datatype Run = Run(puts: seq<PutRequest>, failedAt: Option<nat>)

  /** The run over the steps from k on: the puts up to the first step that raises. */
  function RunFrom(steps: seq<Option<PutRequest>>, k: nat): Run
    requires k <= |steps|
    decreases |steps| - k
  {
    if k == |steps| then Run([], None)
    else match steps[k]
      case None => Run([], Some(k))
      case Some(p) =>
        var rest := RunFrom(steps, k + 1);
        Run([p] + rest.puts, rest.failedAt)
  }

  /** The run over payloads k.. */
  function Plan(ps: seq<Bytes>, k: nat, decode: Bytes -> Option<Record>, encode: Record -> Bytes,
                clock: nat -> string): (run: Run)
    requires k <= |ps|
    ensures |run.puts| <= |ps| - k
    ensures run.failedAt.Some? ==> k <= run.failedAt.value < |ps|
    ensures run.failedAt.Some? ==> Step(ps[run.failedAt.value], run.failedAt.value, decode, encode, clock).None?
  {
    RunStops(Steps(ps, decode, encode, clock), k);
    RunFrom(Steps(ps, decode, encode, clock), k)
  }

  /** A run completes exactly when no step from k on raises. */
  lemma {:induction false} RunCompletes(steps: seq<Option<PutRequest>>, k: nat)
    requires k <= |steps|
    ensures RunFrom(steps, k).failedAt.None? <==> forall i :: k <= i < |steps| ==> steps[i].Some?
    decreases |steps| - k
  {
    if k < |steps| && steps[k].Some? {
      RunCompletes(steps, k + 1);
    }
  }

  /**
   * Where a run stops: at the step that raised, or after the last step; it
   * issues one put per step before that point.
   */
  lemma {:induction false} RunStops(steps: seq<Option<PutRequest>>, k: nat)
    requires k <= |steps|
    ensures var run := RunFrom(steps, k);
      var end := if run.failedAt.Some? then run.failedAt.value else |steps|;
      && k <= end <= |steps|
      && |run.puts| == end - k
      && (run.failedAt.Some? ==> end < |steps| && steps[end].None?)
    decreases |steps| - k
  {
    if k < |steps| && steps[k].Some? {
      RunStops(steps, k + 1);
    }
  }

  /** The put a run issues for a step before the one that raised is that step's put. */
  lemma {:induction false} RunPutAt(steps: seq<Option<PutRequest>>, k: nat, i: nat)
    requires k <= i < |steps|
    requires var run := RunFrom(steps, k); run.failedAt.None? || i < run.failedAt.value
    ensures var run := RunFrom(steps, k);
      i - k < |run.puts| && steps[i] == Some(run.puts[i - k])
    decreases |steps| - k
  {
    var rest := RunFrom(steps, k + 1);
    assert steps[k].Some?;
    if i > k {
      RunPutAt(steps, k + 1, i);
      assert RunFrom(steps, k).puts[i - k] == rest.puts[i - (k + 1)];
    }
  }

  /** A run completes exactly when every record from k on can be decoded and keyed. */
  lemma PlanCompletes(ps: seq<Bytes>, k: nat, decode: Bytes -> Option<Record>,
                      encode: Record -> Bytes, clock: nat -> string)
    requires k <= |ps|
    ensures Plan(ps, k, decode, encode, clock).failedAt.None? <==>
      forall i :: k <= i < |ps| ==> Step(ps[i], i, decode, encode, clock).Some?
  {
    RunCompletes(Steps(ps, decode, encode, clock), k);
  }

  /**
   * One put per record, in delivery order: the puts of a run are the steps of
   * the records from k on, up to the record it raised on (excluded) or to the
   * end; a run that raises stops at a record that cannot be stored.
   */
  lemma PlanFollowsDelivery(ps: seq<Bytes>, k: nat, decode: Bytes -> Option<Record>,
                            encode: Record -> Bytes, clock: nat -> string)
    requires k <= |ps|
    ensures var run := Plan(ps, k, decode, encode, clock);
      var end := if run.failedAt.Some? then run.failedAt.value else |ps|;
      && k <= end <= |ps|
      && |run.puts| == end - k
      && (forall i :: k <= i < end ==> Step(ps[i], i, decode, encode, clock) == Some(run.puts[i - k]))
      && (run.failedAt.Some? ==> end < |ps| && Step(ps[end], end, decode, encode, clock).None?)
  {
    var steps := Steps(ps, decode, encode, clock);
    RunStops(steps, k);
    var run := RunFrom(steps, k);
    var end := if run.failedAt.Some? then run.failedAt.value else |ps|;
    forall i | k <= i < end
      ensures Step(ps[i], i, decode, encode, clock) == Some(run.puts[i - k])
    {
      RunPutAt(steps, k, i);
    }
  }

  /**
   * Replays are safe when clock readings differ: a completed run with
   * distinct '_'-free readings writes every record under its own key, so each
   * stored body is still there after the whole batch.
   */
  lemma EveryRecordStored(s: Store, ps: seq<Bytes>, decode: Bytes -> Option<Record>, encode: Record -> Bytes,
                          clock: nat -> string, i: nat)
    requires i < |ps|
    requires Plan(ps, 0, decode, encode, clock).failedAt.None?
    requires forall j :: 0 <= j < |ps| ==> '_' !in clock(j)
    requires forall a, b :: 0 <= a < b < |ps| ==> clock(a) != clock(b)
    ensures decode(ps[i]).Some?
    ensures var puts := Plan(ps, 0, decode, encode, clock).puts;
      i < |puts| && s.PutAll(puts).Get(puts[i].key) == Some(encode(decode(ps[i]).value))
  {
    var puts := Plan(ps, 0, decode, encode, clock).puts;
    PlanFollowsDelivery(ps, 0, decode, encode, clock);
    PlanKeysDistinct(ps, decode, encode, clock);
    assert Step(ps[i], i, decode, encode, clock) == Some(puts[i]);
    PutAllKeepsEach(s, puts, i);
  }

  /** A completed run with distinct '_'-free clock readings never puts two objects at one key. */
  lemma PlanKeysDistinct(ps: seq<Bytes>, decode: Bytes -> Option<Record>, encode: Record -> Bytes, clock: nat -> string)
    requires Plan(ps, 0, decode, encode, clock).failedAt.None?
    requires forall j :: 0 <= j < |ps| ==> '_' !in clock(j)
    requires forall a, b :: 0 <= a < b < |ps| ==> clock(a) != clock(b)
    ensures DistinctKeys(Plan(ps, 0, decode, encode, clock).puts)
  {
    var steps := Steps(ps, decode, encode, clock);
    forall a, b | 0 <= a < b < |steps| && steps[a].Some? && steps[b].Some?
      ensures steps[a].value.key != steps[b].value.key
    {
      StepKeysDiffer(ps[a], a, ps[b], b, decode, encode, clock);
    }
    RunKeysDistinct(steps, 0);
  }

  /** A completed run whose storable steps name pairwise different keys issues puts with distinct keys. */
  lemma RunKeysDistinct(steps: seq<Option<PutRequest>>, k: nat)
    requires k <= |steps|
    requires RunFrom(steps, k).failedAt.None?
    requires forall a, b :: k <= a < b < |steps| && steps[a].Some? && steps[b].Some? ==> steps[a].value.key != steps[b].value.key
    ensures DistinctKeys(RunFrom(steps, k).puts)
  {
    var puts := RunFrom(steps, k).puts;
    RunStops(steps, k);
    forall a, b | 0 <= a < b < |puts| ensures puts[a].key != puts[b].key {
      RunPutAt(steps, k, a + k);
      RunPutAt(steps, k, b + k);
    }
  }

  /** Two records stored with different '_'-free clock readings are stored under different keys. */
  lemma StepKeysDiffer(pa: Bytes, a: nat, pb: Bytes, b: nat, decode: Bytes -> Option<Record>,
                       encode: Record -> Bytes, clock: nat -> string)
    requires Step(pa, a, decode, encode, clock).Some? && Step(pb, b, decode, encode, clock).Some?
    requires '_' !in clock(a) && '_' !in clock(b) && clock(a) != clock(b)
    ensures Step(pa, a, decode, encode, clock).value.key != Step(pb, b, decode, encode, clock).value.key
  {
    var ra, rb := decode(pa).value, decode(pb).value;
    DistinctTokensDistinctKeys(Partition(ra).value, Tag(ra), clock(a), Partition(rb).value, Tag(rb), clock(b));
  }

  lemma {:induction false} PutAllSnoc(s: Store, puts: seq<PutRequest>, p: PutRequest)
    ensures s.PutAll(puts + [p]) == s.PutAll(puts).Put(p.key, p.body)
    decreases |puts|
  {
    if puts == [] {
      assert [p][1..] == [];
    } else {
      assert (puts + [p])[1..] == puts[1..] + [p];
      PutAllSnoc(s.Put(puts[0].key, puts[0].body), puts[1..], p);
    }
  }

  /** The handler's bookkeeping when the run raises at step i: the puts so far are all of them. */
  lemma RunRaisesHere(steps: seq<Option<PutRequest>>, i: nat, done: seq<PutRequest>)
    requires i < |steps| && steps[i].None?
    requires RunFrom(steps, 0) == Run(done + RunFrom(steps, i).puts, RunFrom(steps, i).failedAt)
    ensures RunFrom(steps, 0) == Run(done, Some(i))
  {
    assert done + [] == done;
  }

  /** The handler's bookkeeping when step i succeeds: its put joins the puts so far. */
  lemma RunGoesOn(steps: seq<Option<PutRequest>>, i: nat, done: seq<PutRequest>)
    requires i < |steps| && steps[i].Some?
    requires RunFrom(steps, 0) == Run(done + RunFrom(steps, i).puts, RunFrom(steps, i).failedAt)
    ensures RunFrom(steps, 0) == Run((done + [steps[i].value]) + RunFrom(steps, i + 1).puts, RunFrom(steps, i + 1).failedAt)
  {
    var rest := RunFrom(steps, i + 1).puts;
    assert (done + [steps[i].value]) + rest == done + ([steps[i].value] + rest);
  }

  /** The handler's bookkeeping after the last step: the run completed with the puts so far. */
  lemma RunEnds(steps: seq<Option<PutRequest>>, done: seq<PutRequest>)
    requires RunFrom(steps, 0) == Run(done + RunFrom(steps, |steps|).puts, RunFrom(steps, |steps|).failedAt)
    ensures RunFrom(steps, 0) == Run(done, None)
  {
    assert done + [] == done;
  }

  /** How an invocation ends: it returns status 200, or it raises on a record. */
  datatype Invocation = Returned(statusCode: int) | Raised(atRecord: nat)

  /**
   * The loop body for the i-th delivered payload: decode it, build its key
   * and put it; false when the handler raises on it, with nothing written.
   */
  method StoreRecord(payload: Bytes, i: nat, decode: Bytes -> Option<Record>, encode: Record -> Bytes,
                     clock: nat -> string, bucket: Bucket) returns (stored: bool)
    requires bucket.Valid()
    modifies bucket
    ensures bucket.Valid()
    ensures stored == Step(payload, i, decode, encode, clock).Some?
    ensures var step := Step(payload, i, decode, encode, clock);
      && (step.Some? ==> bucket.View() == old(bucket.View()).Put(step.value.key, step.value.body))
      && (step.None? ==> bucket.View() == old(bucket.View()))
  {
    var weather := decode(payload);
    if weather.None? {
      return false;
    }
    var key := KeyFor(weather.value, clock(i));
    if key.None? {
      return false;
    }
    bucket.PutObject(key.value, encode(weather.value));
    return true;
  }

  /**
   * lambda_handler: store every delivered record, in order, and return 200;
   * the first record that cannot be decoded or keyed raises and leaves the
   * rest unprocessed, with the puts before it already made.
   */
  method Handle(payloads: seq<Bytes>, decode: Bytes -> Option<Record>, encode: Record -> Bytes,
                clock: nat -> string, bucket: Bucket) returns (result: Invocation)
    requires bucket.Valid()
    modifies bucket
    ensures bucket.Valid()
    ensures var run := Plan(payloads, 0, decode, encode, clock);
      && bucket.View() == old(bucket.View()).PutAll(run.puts)
      && result == (if run.failedAt.None? then Returned(200) else Raised(run.failedAt.value))
  {
    ghost var start := bucket.View();
    ghost var steps := Steps(payloads, decode, encode, clock);
    ghost var done: seq<PutRequest> := [];
    var i := 0;
    while i < |payloads|
      invariant 0 <= i <= |payloads|
      invariant bucket.Valid()
      invariant RunFrom(steps, 0) == Run(done + RunFrom(steps, i).puts, RunFrom(steps, i).failedAt)
      invariant bucket.View() == start.PutAll(done)
    {
      var stored := StoreRecord(payloads[i], i, decode, encode, clock, bucket);
      if !stored {
        RunRaisesHere(steps, i, done);
        return Raised(i);
      }
      ghost var put := steps[i].value;
      RunGoesOn(steps, i, done);
      PutAllSnoc(start, done, put);
      done := done + [put];
      i := i + 1;
    }
    RunEnds(steps, done);
    return Returned(200);
  }
}
