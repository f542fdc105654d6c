/**
 * The aggregator (s3_merge_cleaned.py): list the partition folders under the
 * input prefix, read and decode every .json object in them (an object that
 * cannot be read or decoded is skipped), then drop rows without a date or a
 * station, parse the dates, sort by date, and write one CSV table to a fixed
 * key.
 */
module Aggregator {

  import opened Common
  import opened Json
  import opened Text
  import opened Storage

  const INPUT_PREFIX: string := "weather_data/"
  const OUTPUT_KEY: string := "cleaned/cleaned_weather_dataset.csv"
  const JSON_SUFFIX: string := ".json"

  // ----- enumeration and collection -----

  /** The keys the nested listing visits: each folder's objects, folder after folder. */
  function Listed(keys: seq<Key>, folders: seq<string>): (r: seq<Key>)
    ensures forall k :: k in r ==> k in keys
  {
    if folders == [] then []
    else
      var last := Under(keys, folders[|folders| - 1]);
      assert forall k :: k in last ==> k in multiset(last) && k in multiset(keys);
      Listed(keys, folders[..|folders| - 1]) + last
  }

  /** Every key the handler visits, in visiting order. */
  function Enumerated(s: Store): (e: seq<Key>)
    ensures forall k :: k in e ==> k in s.keys
  {
    Listed(s.keys, CommonPrefixes(s.keys, INPUT_PREFIX))
  }

  /** What one visited key adds: its record when it ends in .json, can be fetched and decodes; nothing otherwise. */
  function Fetched(s: Store, key: Key, decode: Bytes -> Option<Record>): (r: seq<Record>)
    ensures |r| <= 1
    ensures r != [] <==> EndsWith(key, JSON_SUFFIX) && key in s.objects && decode(s.objects[key]).Some?
    ensures r != [] ==> r[0] == decode(s.objects[key]).value
  {
    if !EndsWith(key, JSON_SUFFIX) then []
    else match s.Get(key)
      case None => []
      case Some(body) =>
        match decode(body)
        case None => []
        case Some(r) => [r]
  }

  /** The records gathered from keys, in order. */
  function Gathered(s: Store, keys: seq<Key>, decode: Bytes -> Option<Record>): seq<Record>
  {
    if keys == [] then []
    else Gathered(s, keys[..|keys| - 1], decode) + Fetched(s, keys[|keys| - 1], decode)
  }

  /** all_records once the listing loops end. */
  function Collected(s: Store, decode: Bytes -> Option<Record>): seq<Record>
  {
    Gathered(s, Enumerated(s), decode)
  }

  lemma {:induction false} GatheredAppend(s: Store, a: seq<Key>, b: seq<Key>, decode: Bytes -> Option<Record>)
    ensures Gathered(s, a + b, decode) == Gathered(s, a, decode) + Gathered(s, b, decode)
    decreases |b|
  {
    if b != [] {
      var b' := b[..|b| - 1];
      assert (a + b)[..|a + b| - 1] == a + b';
      GatheredAppend(s, a, b', decode);
    } else {
      assert a + b == a;
    }
  }

  /**
   * Skip on failure: an object whose key lacks the .json suffix, that cannot
   * be fetched or that does not decode adds nothing and leaves the records
   * before and after it untouched; one that decodes adds exactly its record,
   * in its place.
   */
  lemma OneObjectAtATime(s: Store, before: seq<Key>, key: Key, after: seq<Key>, decode: Bytes -> Option<Record>)
    ensures var around := Gathered(s, before, decode) + Gathered(s, after, decode);
      var got := Gathered(s, before + [key] + after, decode);
      && (!EndsWith(key, JSON_SUFFIX) ==> got == around)
      && (key !in s.objects ==> got == around)
      && (key in s.objects && decode(s.objects[key]).None? ==> got == around)
      && (EndsWith(key, JSON_SUFFIX) && key in s.objects && decode(s.objects[key]).Some? ==>
            got == Gathered(s, before, decode) + [decode(s.objects[key]).value] + Gathered(s, after, decode))
  {
    var head, tail := Gathered(s, before, decode), Gathered(s, after, decode);
    var f := Fetched(s, key, decode);
    GatheredAppend(s, before + [key], after, decode);
    GatheredSnoc(s, before, key, decode);
    assert Gathered(s, before + [key] + after, decode) == head + f + tail;
    if f == [] {
      assert head + f + tail == head + tail;
    }
  }

  lemma {:induction false} DistinctCount(keys: seq<Key>, k: Key)
    requires forall i, j :: 0 <= i < j < |keys| ==> keys[i] != keys[j]
    ensures multiset(keys)[k] == if k in keys then 1 else 0
    decreases |keys|
  {
    if keys != [] {
      var init := keys[..|keys| - 1];
      assert keys == init + [keys[|keys| - 1]];
      DistinctCount(init, k);
    }
  }

  lemma {:induction false} ListedCount(keys: seq<Key>, folders: seq<string>, prefix: string, k: Key)
    requires forall i, j :: 0 <= i < j < |folders| ==> folders[i] != folders[j]
    requires forall f :: f in folders ==> IsFolder(f, prefix)
    ensures multiset(Listed(keys, folders))[k] ==
      if InFolder(k, prefix) && FolderOf(k, prefix) in folders then multiset(keys)[k] else 0
    decreases |folders|
  {
    if folders != [] {
      var init := folders[..|folders| - 1];
      var f := folders[|folders| - 1];
      assert folders == init + [f];
      ListedCount(keys, init, prefix, k);
      FolderMatch(k, f, prefix);
    }
  }

  /**
   * Nothing missed, nothing read twice: every stored object whose key has a
   * '/' after the input prefix is visited exactly once, and no other key is
   * visited.
   */
  lemma EnumeratedOnce(s: Store, k: Key)
    requires s.Valid()
    ensures multiset(Enumerated(s))[k] == if k in s.objects && InFolder(k, INPUT_PREFIX) then 1 else 0
  {
    ListedCount(s.keys, CommonPrefixes(s.keys, INPUT_PREFIX), INPUT_PREFIX, k);
    DistinctCount(s.keys, k);
  }

  lemma GatheredSnoc(s: Store, keys: seq<Key>, key: Key, decode: Bytes -> Option<Record>)
    ensures Gathered(s, keys + [key], decode) == Gathered(s, keys, decode) + Fetched(s, key, decode)
  {
    assert (keys + [key])[..|keys|] == keys;
  }

  /**
   * The inner listing loop of the handler: for each listed object in order,
   * append the record of a .json object that can be fetched and decoded.
   */
  method CollectFolder(bucket: Bucket, objects: seq<Key>, decode: Bytes -> Option<Record>) returns (got: seq<Record>)
    ensures got == Gathered(bucket.View(), objects, decode)
  {
    got := [];
    var j := 0;
    while j < |objects|
      invariant 0 <= j <= |objects|
      invariant got == Gathered(bucket.View(), objects[..j], decode)
    {
      var key := objects[j];
      assert objects[..j + 1] == objects[..j] + [key];
      GatheredSnoc(bucket.View(), objects[..j], key, decode);
      if EndsWith(key, JSON_SUFFIX) {
        var file := bucket.View().Get(key);
        if file.Some? {
          var record := decode(file.value);
          if record.Some? {
            got := got + [record.value];
          }
        }
      }
      j := j + 1;
    }
    assert objects[..j] == objects;
  }

  /**
   * The outer listing loop of the handler: every common prefix under the
   * input prefix, in listing order, and the objects under each.
   */
  method Collect(bucket: Bucket, decode: Bytes -> Option<Record>) returns (records: seq<Record>)
    ensures records == Collected(bucket.View(), decode)
  {
    ghost var s := bucket.View();
    records := [];
    var folders := CommonPrefixes(bucket.keys, INPUT_PREFIX);
    var i := 0;
    while i < |folders|
      invariant 0 <= i <= |folders|
      invariant records == Gathered(s, Listed(s.keys, folders[..i]), decode)
    {
      var objects := Under(bucket.keys, folders[i]);
      var got := CollectFolder(bucket, objects, decode);
      CollectedStep(s, folders, i, got, decode);
      records := records + got;
      i := i + 1;
    }
    assert folders[..i] == folders;
  }

  /** One more folder visited: its objects' records follow those gathered so far. */
  lemma CollectedStep(s: Store, folders: seq<string>, i: nat, got: seq<Record>, decode: Bytes -> Option<Record>)
    requires i < |folders|
    requires got == Gathered(s, Under(s.keys, folders[i]), decode)
    ensures Gathered(s, Listed(s.keys, folders[..i + 1]), decode) == Gathered(s, Listed(s.keys, folders[..i]), decode) + got
  {
    assert folders[..i + 1][..i] == folders[..i];
    GatheredAppend(s, Listed(s.keys, folders[..i]), Under(s.keys, folders[i]), decode);
  }

  // ----- cleaning -----

  /** A row of the table: the parsed date and the record it came from. */
  datatype Row = Row(when: int, record: Record)

  /** The CSV table: its header (one column per field seen) and its rows in order. */
  datatype Table = Table(columns: set<string>, rows: seq<Row>)

  function RecordsOf(rows: seq<Row>): (rs: seq<Record>)
    ensures |rs| == |rows|
  {
    if rows == [] then [] else [rows[0].record] + RecordsOf(rows[1..])
  }

  /** The DataFrame's columns: every field of every record. */
  function Columns(rs: seq<Record>): set<string>
  {
    if rs == [] then {} else Columns(rs[..|rs| - 1]) + rs[|rs| - 1].Keys
  }

  /** A column exists exactly when some record has that field. */
  lemma {:induction false} ColumnsAre(rs: seq<Record>)
    ensures forall k :: k in Columns(rs) <==> exists i :: 0 <= i < |rs| && k in rs[i]
    decreases |rs|
  {
    if rs != [] {
      var init := rs[..|rs| - 1];
      ColumnsAre(init);
      assert forall i :: 0 <= i < |init| ==> init[i] == rs[i];
    }
  }

  /** A record that survives dropna: date and station present and not null. */
  predicate Complete(r: Record)
  {
    Present(r, "date") && Present(r, "station")
  }

  /** dropna(subset=['date', 'station']): keeps exactly the complete records, each as often as it occurs. */
  function DropIncomplete(rs: seq<Record>): (kept: seq<Record>)
    ensures forall x :: x in kept ==> Complete(x)
    ensures forall x :: multiset(kept)[x] == if Complete(x) then multiset(rs)[x] else 0
  {
    if rs == [] then []
    else
      assert rs == [rs[0]] + rs[1..];
      (if Complete(rs[0]) then [rs[0]] else []) + DropIncomplete(rs[1..])
  }

  /** pd.to_datetime over the date column: every date parses, or the whole step fails. */
  function Stamp(rs: seq<Record>, parseDate: Value -> Option<int>): (rows: Option<seq<Row>>)
    requires forall x :: x in rs ==> "date" in x
    ensures rows.Some? <==> forall x :: x in rs ==> parseDate(x["date"]).Some?
    ensures rows.Some? ==> RecordsOf(rows.value) == rs
  {
    if rs == [] then Some([])
    else
      var first := parseDate(rs[0]["date"]);
      var rest := Stamp(rs[1..], parseDate);
      if first.None? || rest.None? then None
      else
        var rows := [Row(first.value, rs[0])] + rest.value;
        assert rows[1..] == rest.value;
        assert rs == [rs[0]] + rs[1..];
        Some(rows)
  }

  /** Every stamped row carries one of the records, dated by parsing that record's own date. */
  lemma {:induction false} StampedRows(rs: seq<Record>, parseDate: Value -> Option<int>)
    requires forall x :: x in rs ==> "date" in x
    requires Stamp(rs, parseDate).Some?
    ensures forall row :: row in Stamp(rs, parseDate).value ==>
      row.record in rs && parseDate(row.record["date"]) == Some(row.when)
  {
    if rs != [] {
      assert forall x :: x in rs[1..] ==> x in rs;
      StampedRows(rs[1..], parseDate);
    }
  }

  predicate SortedByDate(rows: seq<Row>)
  {
    forall i, j :: 0 <= i < j < |rows| ==> rows[i].when <= rows[j].when
  }

  /** One insertion-sort step: row placed before the first row with a later-or-equal date. */
  function InsertByDate(row: Row, rows: seq<Row>): (r: seq<Row>)
    ensures multiset(r) == multiset(rows) + multiset{row}
  {
    if rows == [] || row.when <= rows[0].when then [row] + rows
    else
      assert rows == [rows[0]] + rows[1..];
      [rows[0]] + InsertByDate(row, rows[1..])
  }

  /** A row no later than every row of a sorted sequence can head it. */
  lemma ConsSorted(row: Row, rows: seq<Row>)
    requires SortedByDate(rows)
    requires forall k :: 0 <= k < |rows| ==> row.when <= rows[k].when
    ensures SortedByDate([row] + rows)
  {
    var r := [row] + rows;
    forall i, j | 0 <= i < j < |r| ensures r[i].when <= r[j].when {
      assert r[j] == rows[j - 1];
      if i > 0 {
        assert r[i] == rows[i - 1];
      }
    }
  }

  /** Inserting into rows sorted by date keeps them sorted. */
  lemma {:induction false} InsertByDateSorted(row: Row, rows: seq<Row>)
    requires SortedByDate(rows)
    ensures SortedByDate(InsertByDate(row, rows))
    decreases |rows|
  {
    if rows == [] || row.when <= rows[0].when {
      ConsSorted(row, rows);
    } else {
      var tail := rows[1..];
      var rest := InsertByDate(row, tail);
      InsertByDateSorted(row, tail);
      forall k | 0 <= k < |rest| ensures rows[0].when <= rest[k].when {
        assert rest[k] in multiset(rest);
        if rest[k] != row {
          assert rest[k] in multiset(tail);
          var m :| 0 <= m < |tail| && tail[m] == rest[k];
          assert rows[m + 1] == rest[k];
        }
      }
      ConsSorted(rows[0], rest);
    }
  }

  /** sort_values('date'): non-decreasing dates, same rows; the order among equal dates is not promised. */
  function SortByDate(rows: seq<Row>): (r: seq<Row>)
    ensures SortedByDate(r)
    ensures multiset(r) == multiset(rows)
  {
    if rows == [] then []
    else
      assert rows == [rows[0]] + rows[1..];
      var rest := SortByDate(rows[1..]);
      InsertByDateSorted(rows[0], rest);
      InsertByDate(rows[0], rest)
  }

  /** Inserting a row adds exactly its record to the table's records. */
  lemma {:induction false} InsertByDateRecords(row: Row, rows: seq<Row>)
    ensures multiset(RecordsOf(InsertByDate(row, rows))) == multiset(RecordsOf(rows)) + multiset{row.record}
    decreases |rows|
  {
    if rows == [] || row.when <= rows[0].when {
      assert ([row] + rows)[1..] == rows;
    } else {
      var rest := InsertByDate(row, rows[1..]);
      InsertByDateRecords(row, rows[1..]);
      assert ([rows[0]] + rest)[1..] == rest;
    }
  }

  /** Sorting rows only reorders their records. */
  lemma {:induction false} SortByDateRecords(rows: seq<Row>)
    ensures multiset(RecordsOf(SortByDate(rows))) == multiset(RecordsOf(rows))
    decreases |rows|
  {
    if rows != [] {
      SortByDateRecords(rows[1..]);
      InsertByDateRecords(rows[0], SortByDate(rows[1..]));
    }
  }

  datatype CleanFailure = MissingColumn | UnparseableDate

  /**
   * The cleaning stage: dropna raises when no record has a date or a station
   * field at all; to_datetime raises when a surviving date does not parse.
   * Otherwise the table holds every field seen as a column and the surviving
   * records sorted by date.
   */
  function Clean(parsed: seq<Record>, parseDate: Value -> Option<int>): (r: Result<Table, CleanFailure>)
    ensures r == Failure(MissingColumn) <==> "date" !in Columns(parsed) || "station" !in Columns(parsed)
    ensures r.Success? ==> r.value.columns == Columns(parsed)
  {
    var columns := Columns(parsed);
    if "date" !in columns || "station" !in columns then Failure(MissingColumn)
    else match Stamp(DropIncomplete(parsed), parseDate)
      case None => Failure(UnparseableDate)
      case Some(rows) => Success(Table(columns, SortByDate(rows)))
  }

  lemma SurvivorsAreComplete(parsed: seq<Record>)
    ensures forall x :: x in DropIncomplete(parsed) <==> x in parsed && Complete(x)
  {
    var kept := DropIncomplete(parsed);
    forall x ensures x in kept <==> x in parsed && Complete(x) {
      assert x in kept <==> x in multiset(kept);
    }
  }

  /**
   * Cleaning fails exactly when the date or station column is missing
   * altogether or a surviving record's date does not parse.
   */
  lemma CleanSucceeds(parsed: seq<Record>, parseDate: Value -> Option<int>)
    ensures Clean(parsed, parseDate).Success? <==>
      && "date" in Columns(parsed) && "station" in Columns(parsed)
      && forall x :: x in parsed && Complete(x) ==> parseDate(x["date"]).Some?
  {
    SurvivorsAreComplete(parsed);
  }

  /**
   * The cleaned table: its columns are the fields of all parsed records
   * (dropped ones included); its rows are in non-decreasing date order; every
   * row has a date and a station, dated by parsing its date field; and its
   * records are exactly the complete parsed records, each as often as it was
   * parsed (nothing invented, nothing duplicated, nothing lost).
   */
  lemma CleanedTable(parsed: seq<Record>, parseDate: Value -> Option<int>)
    requires Clean(parsed, parseDate).Success?
    ensures var t := Clean(parsed, parseDate).value;
      && t.columns == Columns(parsed)
      && SortedByDate(t.rows)
      && (forall row :: row in t.rows ==> Complete(row.record) && parseDate(row.record["date"]) == Some(row.when))
      && (forall x :: multiset(RecordsOf(t.rows))[x] == if Complete(x) then multiset(parsed)[x] else 0)
  {
    var kept := DropIncomplete(parsed);
    var rows := Stamp(kept, parseDate).value;
    CleanedRows(parsed, rows, parseDate);
    CleanedRecords(parsed, rows);
  }

  /** Every row of the sorted table is a stamped row of a complete record. */
  lemma CleanedRows(parsed: seq<Record>, rows: seq<Row>, parseDate: Value -> Option<int>)
    requires Stamp(DropIncomplete(parsed), parseDate) == Some(rows)
    ensures forall row :: row in SortByDate(rows) ==> Complete(row.record) && parseDate(row.record["date"]) == Some(row.when)
  {
    StampedRows(DropIncomplete(parsed), parseDate);
    var sorted := SortByDate(rows);
    forall row | row in sorted
      ensures Complete(row.record) && parseDate(row.record["date"]) == Some(row.when)
    {
      assert row in multiset(sorted);
      assert row in rows;
    }
  }

  /** The sorted table holds the complete parsed records, each as often as it was parsed. */
  lemma CleanedRecords(parsed: seq<Record>, rows: seq<Row>)
    requires RecordsOf(rows) == DropIncomplete(parsed)
    ensures forall x :: multiset(RecordsOf(SortByDate(rows)))[x] == if Complete(x) then multiset(parsed)[x] else 0
  {
    SortByDateRecords(rows);
  }

  /**
   * Records parsed but none complete: the table has the header and no rows,
   * and it is still written (the empty check looks at the parsed records).
   */
  lemma HeaderOnlyTable(parsed: seq<Record>, parseDate: Value -> Option<int>)
    requires "date" in Columns(parsed) && "station" in Columns(parsed)
    requires forall x :: x in parsed ==> !Complete(x)
    ensures Clean(parsed, parseDate) == Success(Table(Columns(parsed), []))
  {
    NothingComplete(parsed);
    assert Stamp([], parseDate) == Some([]);
    assert SortByDate([]) == [];
  }

  lemma {:induction false} NothingComplete(rs: seq<Record>)
    requires forall x :: x in rs ==> !Complete(x)
    ensures DropIncomplete(rs) == []
  {
    if rs != [] {
      assert rs[0] in rs;
      assert forall x :: x in rs[1..] ==> x in rs;
      NothingComplete(rs[1..]);
    }
  }

  // ----- one invocation -----

  datatype Outcome = NoRecords | Failed(failure: CleanFailure) | Written(table: Table)

  function StatusOf(o: Outcome): int
  {
    match o
    case NoRecords => 400
    case Failed(_) => 500
    case Written(_) => 200
  }

  /** What one invocation decides for a bucket. */
  function Run(s: Store, decode: Bytes -> Option<Record>, parseDate: Value -> Option<int>): (o: Outcome)
    ensures o == NoRecords <==> Collected(s, decode) == []
  {
    Decide(Collected(s, decode), parseDate)
  }

  /** What the handler decides once the records are collected: no data, a raised error, or the table. */
  function Decide(records: seq<Record>, parseDate: Value -> Option<int>): (o: Outcome)
    ensures o == NoRecords <==> records == []
    ensures o.Written? ==> o.table.columns == Columns(records)
  {
    if records == [] then NoRecords
    else match Clean(records, parseDate)
      case Failure(e) => Failed(e)
      case Success(t) => Written(t)
  }

  /**
   * lambda_handler: collect, check for no data (400), clean (500 on a raised
   * error), then write the one CSV object at the fixed output key (200).
   * Nothing is written unless the status is 200.
   */
  method Aggregate(bucket: Bucket, decode: Bytes -> Option<Record>, parseDate: Value -> Option<int>,
                   encodeCsv: Table -> Bytes) returns (status: int, outcome: Outcome)
    requires bucket.Valid()
    modifies bucket
    ensures bucket.Valid()
    ensures outcome == Run(old(bucket.View()), decode, parseDate)
    ensures status == StatusOf(outcome)
    ensures outcome.Written? ==> bucket.View() == old(bucket.View()).Put(OUTPUT_KEY, encodeCsv(outcome.table))
    ensures !outcome.Written? ==> bucket.View() == old(bucket.View())
  {
    var allRecords := Collect(bucket, decode);
    status, outcome := CleanAndUpload(bucket, allRecords, parseDate, encodeCsv);
  }

  /**
   * The handler after collection: 400 when nothing was collected, 500 when
   * cleaning raises, otherwise the CSV is put at the output key and 200.
   */
  method CleanAndUpload(bucket: Bucket, allRecords: seq<Record>, parseDate: Value -> Option<int>,
                        encodeCsv: Table -> Bytes) returns (status: int, outcome: Outcome)
    requires bucket.Valid()
    modifies bucket
    ensures bucket.Valid()
    ensures outcome == Decide(allRecords, parseDate)
    ensures status == StatusOf(outcome)
    ensures outcome.Written? ==> bucket.View() == old(bucket.View()).Put(OUTPUT_KEY, encodeCsv(outcome.table))
    ensures !outcome.Written? ==> bucket.View() == old(bucket.View())
  {
    if allRecords == [] {
      return 400, NoRecords;
    }
    var cleaned := Clean(allRecords, parseDate);
    if cleaned.Failure? {
      assert Decide(allRecords, parseDate) == Failed(cleaned.error);
      return 500, Failed(cleaned.error);
    }
    assert Decide(allRecords, parseDate) == Written(cleaned.value);
    bucket.PutObject(OUTPUT_KEY, encodeCsv(cleaned.value));
    return 200, Written(cleaned.value);
  }

  // ----- re-running -----

  lemma OutputKeyOutsideInput(f: string)
    requires IsFolder(f, INPUT_PREFIX)
    ensures !StartsWith(OUTPUT_KEY, f) && !InFolder(OUTPUT_KEY, INPUT_PREFIX)
  {
    assert OUTPUT_KEY[0] != INPUT_PREFIX[0];
    assert f[0] == INPUT_PREFIX[0];
  }

  lemma {:induction false} ListedIgnoresOutput(keys: seq<Key>, folders: seq<string>)
    requires forall f :: f in folders ==> IsFolder(f, INPUT_PREFIX)
    ensures Listed(keys + [OUTPUT_KEY], folders) == Listed(keys, folders)
    decreases |folders|
  {
    if folders != [] {
      var init := folders[..|folders| - 1];
      UnderIgnoresOutput(keys, folders[|folders| - 1]);
      assert forall f :: f in init ==> f in folders;
      ListedIgnoresOutput(keys, init);
    }
  }

  lemma UnderIgnoresOutput(keys: seq<Key>, f: string)
    requires IsFolder(f, INPUT_PREFIX)
    ensures Under(keys + [OUTPUT_KEY], f) == Under(keys, f)
  {
    OutputKeyOutsideInput(f);
    assert (keys + [OUTPUT_KEY])[..|keys|] == keys;
  }

  lemma {:induction false} GatheredIgnoresOutput(s: Store, keys: seq<Key>, body: Bytes, decode: Bytes -> Option<Record>)
    ensures Gathered(s.Put(OUTPUT_KEY, body), keys, decode) == Gathered(s, keys, decode)
    decreases |keys|
  {
    if keys != [] {
      assert !EndsWith(OUTPUT_KEY, JSON_SUFFIX);
      GatheredIgnoresOutput(s, keys[..|keys| - 1], body, decode);
    }
  }

  /**
   * The output never feeds back: after a run writes its CSV, a second run
   * collects the same records, decides the same outcome and so writes the
   * same table again.
   */
  lemma RerunIsDeterministic(s: Store, body: Bytes, decode: Bytes -> Option<Record>, parseDate: Value -> Option<int>)
    requires s.Valid()
    ensures Collected(s.Put(OUTPUT_KEY, body), decode) == Collected(s, decode)
    ensures Run(s.Put(OUTPUT_KEY, body), decode, parseDate) == Run(s, decode, parseDate)
  {
    var s' := s.Put(OUTPUT_KEY, body);
    if OUTPUT_KEY !in s.keys {
      OutputKeyOutsideInput(INPUT_PREFIX + "x/");
      assert s'.keys == s.keys + [OUTPUT_KEY];
      assert s'.keys[..|s.keys|] == s.keys;
      assert CommonPrefixes(s'.keys, INPUT_PREFIX) == CommonPrefixes(s.keys, INPUT_PREFIX);
      ListedIgnoresOutput(s.keys, CommonPrefixes(s.keys, INPUT_PREFIX));
    }
    assert Enumerated(s') == Enumerated(s);
    GatheredIgnoresOutput(s, Enumerated(s), body, decode);
  }
}
