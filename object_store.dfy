/** The object store the engine talks to through its client: a map from locator to object
    bytes, and the three calls the engine makes (`list_objects_v2`, `copy_object`,
    `delete_object`). Each call takes a flag saying whether the transport fails this time. */
module ObjectStore {
  import opened Wrappers
  import opened PathCodec

  /** The bytes of one object; the engine never looks inside. */
  type Blob = seq<bv8>

  type Objects = map<Locator, Blob>

  /** Any exception a client call raises (network, permissions, throttling, ...). */
  datatype TransportError = TransportError

  /** The keys of `bucket` that start with `prefix`. */
  function KeysUnder(objects: Objects, bucket: string, prefix: string): set<string>
  {
    set l | l in objects && l.bucket == bucket && prefix <= l.key :: l.key
  }

  predicate Distinct(keys: seq<string>)
  {
    forall i, j :: 0 <= i < j < |keys| ==> keys[i] != keys[j]
  }

  function Min(a: nat, b: nat): nat
  {
    if a <= b then a else b
  }

  /** The most keys one `list_objects_v2` answer carries, whatever `MaxKeys` asks for. */
  const MaxKeysPerCall: nat := 1000

  /** One `list_objects_v2(Bucket, Prefix, MaxKeys)` answer without a continuation token: as many
      distinct keys under the prefix as exist, up to `maxKeys` and at most `MaxKeysPerCall`. */
  predicate IsListing(objects: Objects, bucket: string, prefix: string, maxKeys: nat, keys: seq<string>)
  {
    && Distinct(keys)
    && (forall k :: k in keys ==> k in KeysUnder(objects, bucket, prefix))
    && |keys| == Min(Min(maxKeys, MaxKeysPerCall), |KeysUnder(objects, bucket, prefix)|)
  }

  /** The store refuses a copy whose source is missing (NoSuchKey) or whose source and
      destination coincide (a copy onto itself that changes nothing is rejected). */
  predicate CopyAllowed(objects: Objects, source: Locator, destination: Locator)
  {
    source in objects && source != destination
  }

  function AfterCopy(objects: Objects, source: Locator, destination: Locator): (r: Objects)
    requires source in objects
    ensures destination in r && r[destination] == objects[source]
    ensures forall l :: l != destination ==> (l in r <==> l in objects) && (l in r ==> r[l] == objects[l])
  {
    objects[destination := objects[source]]
  }

  /** Deleting a key that is not there succeeds and changes nothing. */
  function AfterDelete(objects: Objects, target: Locator): (r: Objects)
    ensures target !in r
    ensures forall l :: l != target ==> (l in r <==> l in objects) && (l in r ==> r[l] == objects[l])
  {
    objects - {target}
  }

  /** The client and, through it, the state of the store. */
  class Client {
    var objects: Objects

    constructor (initial: Objects)
      ensures objects == initial
    {
      objects := initial;
    }

    /** One listing call. The store's lexicographic key order is not modelled: any choice of
        keys that meets `IsListing` may come back. */
    method ListObjectsV2(bucket: string, prefix: string, maxKeys: nat, fails: bool)
      returns (r: Result<seq<string>, TransportError>)
      ensures r.Failure? <==> fails
      ensures r.Success? ==> IsListing(objects, bucket, prefix, maxKeys, r.value)
    {
      if fails {
        return Failure(TransportError);
      }
      var under := KeysUnder(objects, bucket, prefix);
      var keys: seq<string> := [];
      var remaining := under;
      var limit := Min(maxKeys, MaxKeysPerCall);
      while |keys| < limit && remaining != {}
        invariant remaining <= under
        invariant Distinct(keys)
        invariant forall k :: k in keys ==> k in under && k !in remaining
        invariant |keys| + |remaining| == |under|
        invariant |keys| <= limit
        decreases remaining
      {
        var k :| k in remaining;
        keys := keys + [k];
        remaining := remaining - {k};
      }
      return Success(keys);
    }

    method CopyObject(bucket: string, key: string, copySource: Locator, fails: bool) returns (ok: bool)
      modifies this
      ensures ok <==> !fails && CopyAllowed(old(objects), copySource, Locator(bucket, key))
      ensures objects == if ok then AfterCopy(old(objects), copySource, Locator(bucket, key)) else old(objects)
    {
      ok := !fails && CopyAllowed(objects, copySource, Locator(bucket, key));
      if ok {
        objects := AfterCopy(objects, copySource, Locator(bucket, key));
      }
    }

    method DeleteObject(bucket: string, key: string, fails: bool) returns (ok: bool)
      modifies this
      ensures ok <==> !fails
      ensures objects == if ok then AfterDelete(old(objects), Locator(bucket, key)) else old(objects)
    {
      ok := !fails;
      if ok {
        objects := AfterDelete(objects, Locator(bucket, key));
      }
    }
  }
}
