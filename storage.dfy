/**
 * The object store both the sink and the aggregator use (one bucket; both
 * handlers name the same bucket). A store is a map from key to object body
 * plus the order in which a listing returns the keys. The listing calls are
 * modelled with the meaning of ListObjectsV2: without a delimiter it returns
 * the keys under a prefix; with the delimiter '/' it rolls keys up into
 * their common prefixes ("folders").
 */
module Storage {

  import opened Common
  import opened Json
  import opened Text

  type Key = string

  /** One put_object call: the key and the body written there. */
  datatype PutRequest = PutRequest(key: Key, body: Bytes)

  datatype Store = Store(keys: seq<Key>, objects: map<Key, Bytes>)
  {
    /** Every stored object is listed exactly once. */
    ghost predicate Valid()
    {
      && (forall i, j :: 0 <= i < j < |keys| ==> keys[i] != keys[j])
      && (forall k :: k in objects <==> k in keys)
    }

    /** get_object: the body stored under key, if there is one. */
    function Get(key: Key): (r: Option<Bytes>)
      ensures r.Some? <==> key in objects
      ensures r.Some? ==> r.value == objects[key]
    {
      if key in objects then Some(objects[key]) else None
    }

    /** put_object: creates the object or replaces its body; a new key joins the listing. */
    function Put(key: Key, body: Bytes): (s: Store)
      ensures s.objects == objects[key := body]
      ensures Valid() ==> s.Valid()
      ensures Valid() && key in objects ==> s.keys == keys
    {
      Store(if key in keys then keys else keys + [key], objects[key := body])
    }

    /** A sequence of put_object calls, issued in order. */
    function PutAll(puts: seq<PutRequest>): (s: Store)
      ensures Valid() ==> s.Valid()
      ensures s.objects.Keys == objects.Keys + set p | p in puts :: p.key
      decreases |puts|
    {
      if puts == [] then this
      else Put(puts[0].key, puts[0].body).PutAll(puts[1..])
    }
  }

  /** No two puts of a batch name the same key. */
  predicate DistinctKeys(puts: seq<PutRequest>)
  {
    forall a, b :: 0 <= a < b < |puts| ==> puts[a].key != puts[b].key
  }

  /** Each put of a batch with pairwise distinct keys leaves its body readable afterwards. */
  lemma {:induction false} PutAllKeepsEach(s: Store, puts: seq<PutRequest>, i: int)
    requires 0 <= i < |puts|
    requires DistinctKeys(puts)
    ensures s.PutAll(puts).Get(puts[i].key) == Some(puts[i].body)
    decreases |puts|
  {
    var s' := s.Put(puts[0].key, puts[0].body);
    var rest := puts[1..];
    assert s.PutAll(puts) == s'.PutAll(rest);
    DistinctKeysTail(puts);
    if i == 0 {
      PutAllLeavesOthers(s', rest, puts[0].key);
    } else {
      assert rest[i - 1] == puts[i];
      PutAllKeepsEach(s', rest, i - 1);
    }
  }

  /** After the first put of a distinct batch, the rest is distinct and never names the first key again. */
  lemma DistinctKeysTail(puts: seq<PutRequest>)
    requires puts != [] && DistinctKeys(puts)
    ensures DistinctKeys(puts[1..])
    ensures forall p :: p in puts[1..] ==> p.key != puts[0].key
  {
    var rest := puts[1..];
    forall p | p in rest ensures p.key != puts[0].key {
      var m :| 0 <= m < |rest| && rest[m] == p;
      assert puts[m + 1] == p;
    }
    forall a, b | 0 <= a < b < |rest| ensures rest[a].key != rest[b].key {
      assert rest[a] == puts[a + 1] && rest[b] == puts[b + 1];
    }
  }

  /** Puts to other keys do not touch an object. */
  lemma {:induction false} PutAllLeavesOthers(s: Store, puts: seq<PutRequest>, key: Key)
    requires forall p :: p in puts ==> p.key != key
    ensures s.PutAll(puts).Get(key) == s.Get(key)
    decreases |puts|
  {
    if puts != [] {
      var s' := s.Put(puts[0].key, puts[0].body);
      assert s'.Get(key) == s.Get(key);
      assert forall p :: p in puts[1..] ==> p in puts;
      PutAllLeavesOthers(s', puts[1..], key);
    }
  }

  /** ListObjectsV2(Prefix=prefix)'s Contents: the listed keys that start with prefix, in listing order. */
  function Under(keys: seq<Key>, prefix: string): (r: seq<Key>)
    ensures forall k :: multiset(r)[k] == if StartsWith(k, prefix) then multiset(keys)[k] else 0
  {
    if keys == [] then []
    else
      var last := keys[|keys| - 1];
      assert keys == keys[..|keys| - 1] + [last];
      Under(keys[..|keys| - 1], prefix) + (if StartsWith(last, prefix) then [last] else [])
  }

  /** A key that ListObjectsV2(Prefix=prefix, Delimiter='/') rolls up into a common prefix. */
  predicate InFolder(k: Key, prefix: string)
  {
    StartsWith(k, prefix) && '/' in k[|prefix|..]
  }

  /** The common prefix a key is rolled up into: prefix, the next segment, and the '/' after it. */
  function FolderOf(k: Key, prefix: string): string
    requires InFolder(k, prefix)
  {
    prefix + BeforeFirst(k[|prefix|..], '/') + "/"
  }

  /** The shape of a common prefix: prefix, one '/'-free segment, '/'. */
  predicate IsFolder(f: string, prefix: string)
  {
    && StartsWith(f, prefix)
    && |f| > |prefix|
    && f[|f| - 1] == '/'
    && '/' !in f[|prefix|..|f| - 1]
  }

  lemma FolderOfIsFolder(k: Key, prefix: string)
    requires InFolder(k, prefix)
    ensures IsFolder(FolderOf(k, prefix), prefix)
    ensures StartsWith(k, FolderOf(k, prefix))
  {
    var rest := k[|prefix|..];
    var seg := BeforeFirst(rest, '/');
    var f := FolderOf(k, prefix);
    assert f[|prefix|..|f| - 1] == seg;
    assert k[..|f|] == k[..|prefix|] + rest[..|seg|] + [rest[|seg|]];
    assert f[..|prefix|] == prefix;
  }

  /** A key belongs to a folder exactly when that folder is the common prefix it rolls up into. */
  lemma FolderMatch(k: Key, f: string, prefix: string)
    requires IsFolder(f, prefix)
    ensures StartsWith(k, f) <==> InFolder(k, prefix) && FolderOf(k, prefix) == f
  {
    var seg := f[|prefix|..|f| - 1];
    assert f == prefix + seg + "/";
    if StartsWith(k, f) {
      var rest := k[|prefix|..];
      assert k[..|prefix|] == f[..|prefix|] == prefix;
      assert rest[..|seg| + 1] == f[|prefix|..];
      assert rest[|seg|] == '/';
      assert StartsWith(rest, seg + ['/']);
      BeforeFirstIs(rest, '/', seg);
    }
    if InFolder(k, prefix) && FolderOf(k, prefix) == f {
      FolderOfIsFolder(k, prefix);
    }
  }

  /**
   * ListObjectsV2(Prefix=prefix, Delimiter='/')'s CommonPrefixes: each folder
   * once, for exactly the listed keys that have a '/' after the prefix.
   */
  function CommonPrefixes(keys: seq<Key>, prefix: string): (fs: seq<string>)
    ensures forall i, j :: 0 <= i < j < |fs| ==> fs[i] != fs[j]
    ensures forall f :: f in fs ==> IsFolder(f, prefix)
    ensures forall k :: k in keys && InFolder(k, prefix) ==> FolderOf(k, prefix) in fs
    ensures forall f :: f in fs ==> exists k :: k in keys && InFolder(k, prefix) && FolderOf(k, prefix) == f
  {
    if keys == [] then []
    else
      var init := keys[..|keys| - 1];
      var last := keys[|keys| - 1];
      assert keys == init + [last];
      var fs := CommonPrefixes(init, prefix);
      if InFolder(last, prefix) && FolderOf(last, prefix) !in fs then
        FolderOfIsFolder(last, prefix);
        fs + [FolderOf(last, prefix)]
      else
        fs
  }

  /** The S3 bucket the handlers talk to; put_object updates it in place. */
  class Bucket {
    var keys: seq<Key>
    var objects: map<Key, Bytes>

    function View(): Store
      reads this
    {
      Store(keys, objects)
    }

    ghost predicate Valid()
      reads this
    {
      View().Valid()
    }

    method PutObject(key: Key, body: Bytes)
      requires Valid()
      modifies this
      ensures Valid()
      ensures View() == old(View()).Put(key, body)
    {
      if key !in keys {
        keys := keys + [key];
      }
      objects := objects[key := body];
    }
  }
}
