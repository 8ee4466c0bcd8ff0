/** `list_s3_get_files`: a generator that re-issues the same listing call (no continuation
    token), yields the file paths of each answer, and stops on an answer with no files or
    after `n_loops` pages. */
module Paginator {
  import opened Wrappers
  import opened PathCodec
  import opened ObjectStore

  /** A key ending in `/` is a folder placeholder, not a file. */
  predicate IsDirectoryMarker(key: string)
  {
    |key| > 0 && key[|key| - 1] == '/'
  }

  /** The keys of a listing answer that name files, in answer order. */
  function FileKeys(keys: seq<string>): (r: seq<string>)
    ensures forall k :: k in r <==> k in keys && !IsDirectoryMarker(k)
    ensures |r| <= |keys|
  {
    if keys == [] then []
    else
      var last := keys[|keys| - 1];
      assert keys == keys[..|keys| - 1] + [last];
      FileKeys(keys[..|keys| - 1]) + (if IsDirectoryMarker(last) then [] else [last])
  }

  /** The page built for one listing answer: `os.path.join(bucket, key)` for each file key. */
  function PagePaths(bucket: string, keys: seq<string>): (paths: seq<string>)
    ensures |paths| == |FileKeys(keys)|
    ensures forall i :: 0 <= i < |paths| ==> paths[i] == Join(bucket, FileKeys(keys)[i])
  {
    if keys == [] then []
    else
      var last := keys[|keys| - 1];
      PagePaths(bucket, keys[..|keys| - 1]) + (if IsDirectoryMarker(last) then [] else [Join(bucket, last)])
  }

  /** What one pull of the generator gives its consumer. */
  datatype Pull =
    | Page(paths: seq<string>)  // a yielded page
    | Exhausted                 // the generator returned (StopIteration)
    | ListFailed                // the listing call raised; the exception reaches the consumer

  /** The loop over `response['Contents']`: skip folder markers, join the bucket to the rest. */
  method CollectPaths(bucket: string, contents: seq<string>) returns (paths: seq<string>)
    ensures paths == PagePaths(bucket, contents)
  {
    paths := [];
    for i := 0 to |contents|
      invariant paths == PagePaths(bucket, contents[..i])
    {
      var key := contents[i];
      assert contents[..i + 1][..i] == contents[..i];
      if IsDirectoryMarker(key) {
        continue;
      }
      paths := paths + [Join(bucket, key)];
    }
    assert contents[..|contents|] == contents;
  }

  /** The generator's frame: its arguments, the two loop variables, and whether it raised. */
  class FileLister {
    const bucket: string
    const directory: string
    const nKeys: nat
    const nLoops: int
    var countLoop: int
    var isEmpty: bool
    /** The listing call raised, which finished the generator. */
    var raised: bool
    /** The pages yielded so far. */
    ghost var yielded: seq<seq<string>>

    ghost predicate Valid()
      reads this
    {
      && countLoop == |yielded| + 1
      && (yielded == [] || |yielded| <= nLoops)
      && (forall p :: p in yielded ==> p != [])
    }

    /** Another listing call will be made: the `while` condition holds and the generator has not
        been finished by an exception. */
    predicate Running()
      reads this
    {
      countLoop <= nLoops && !isEmpty && !raised
    }

    constructor (bucket: string, directory: string, nKeys: nat, nLoops: int)
      ensures Valid() && yielded == [] && !isEmpty && !raised
      ensures this.bucket == bucket && this.directory == directory
      ensures this.nKeys == nKeys && this.nLoops == nLoops
    {
      this.bucket := bucket;
      this.directory := directory;
      this.nKeys := nKeys;
      this.nLoops := nLoops;
      countLoop := 1;
      isEmpty := false;
      raised := false;
      yielded := [];
    }

    /** Run the generator body up to its next `yield` (or its end). `response` is the listing
        answer the body saw, when it made a successful call. */
    method Next(client: Client, listFails: bool) returns (pull: Pull, ghost response: seq<string>)
      requires Valid()
      modifies this
      ensures Valid()
      ensures !old(Running()) ==> pull == Exhausted && unchanged(this)
      ensures old(Running()) && listFails ==>
                && pull == ListFailed && raised && !Running()
                && yielded == old(yielded) && countLoop == old(countLoop) && isEmpty == old(isEmpty)
      ensures old(Running()) && !listFails ==>
                && IsListing(client.objects, bucket, directory, nKeys, response)
                && pull == (if PagePaths(bucket, response) == [] then Exhausted else Page(PagePaths(bucket, response)))
      ensures pull.Page? ==> && pull.paths != []
                             && yielded == old(yielded) + [pull.paths]
                             && countLoop == old(countLoop) + 1 && !isEmpty && !raised
      ensures pull.Exhausted? ==> yielded == old(yielded) && !Running()
    {
      response := [];
      if !(countLoop <= nLoops && !isEmpty && !raised) {
        return Exhausted, response;
      }
      var answer := client.ListObjectsV2(bucket, directory, nKeys, listFails);
      if answer.Failure? {
        raised := true;
        return ListFailed, response;
      }
      var contents := answer.value;
      response := contents;
      if contents == [] {
        isEmpty := true;
        return Exhausted, response;
      }
      var paths := CollectPaths(bucket, contents);
      if |paths| == 0 {
        isEmpty := true;
        return Exhausted, response;
      }
      countLoop := countLoop + 1;
      yielded := yielded + [paths];
      return Page(paths), response;
    }
  }

  // ---------------------------------------------------------------------------
  // Properties

  /** Filtering distributes over concatenation, so file keys keep their answer order. */
  lemma {:induction false} FileKeysAppend(a: seq<string>, b: seq<string>)
    ensures FileKeys(a + b) == FileKeys(a) + FileKeys(b)
    decreases |b|
  {
    if b == [] {
      assert a + b == a;
    } else {
      var init, last := b[..|b| - 1], b[|b| - 1];
      assert (a + b)[..|a + b| - 1] == a + init;
      FileKeysAppend(a, init);
    }
  }

  /** A page is empty exactly when every key of the answer is a folder placeholder
      (in particular when the answer has no keys). */
  lemma EmptyPageIffOnlyMarkers(bucket: string, keys: seq<string>)
    ensures PagePaths(bucket, keys) == [] <==> forall k :: k in keys ==> IsDirectoryMarker(k)
  {
    var f := FileKeys(keys);
    if f != [] {
      assert f[0] in f;
    }
  }

  /** A page's paths are in one-to-one, order-preserving correspondence with the file keys. */
  lemma PageIsJoinedFileKeys(bucket: string, keys: seq<string>)
    ensures forall p :: p in PagePaths(bucket, keys) <==>
              exists k :: k in keys && !IsDirectoryMarker(k) && p == Join(bucket, k)
  {
    var paths, f := PagePaths(bucket, keys), FileKeys(keys);
    forall p | p in paths
      ensures exists k :: k in keys && !IsDirectoryMarker(k) && p == Join(bucket, k)
    {
      var i :| 0 <= i < |paths| && paths[i] == p;
      assert f[i] in f;
    }
    forall k | k in keys && !IsDirectoryMarker(k)
      ensures Join(bucket, k) in paths
    {
      var i :| 0 <= i < |f| && f[i] == k;
      assert paths[i] == Join(bucket, k);
    }
  }
}
