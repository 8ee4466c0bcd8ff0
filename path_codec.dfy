/** Locator parsing and the POSIX path helpers the engine uses on object keys:
    `parse_s3_uri`, `os.path.join` with two arguments and `os.path.basename`. */
module PathCodec {
  import opened Wrappers

  /** A bucket-and-key pair identifying one stored object. */
  datatype Locator = Locator(bucket: string, key: string)

  /** Raised by the tuple unpacking in `parse_s3_uri` when there is no `/` to split at. */
  datatype ParseError = MalformedLocator(path: string)

  const Scheme: string := "s3://"

  predicate SchemeAt(s: string, i: nat)
  {
    i + |Scheme| <= |s| && s[i..i + |Scheme|] == Scheme
  }

  predicate ContainsScheme(s: string)
  {
    exists i: nat | i <= |s| :: SchemeAt(s, i)
  }

  /** `s.replace('s3://', '')`: every non-overlapping occurrence, scanned left to right, is removed. */
  function RemoveScheme(s: string): (r: string)
    ensures |r| <= |s|
    decreases |s|
  {
    if SchemeAt(s, 0) then RemoveScheme(s[|Scheme|..])
    else if s == [] then []
    else [s[0]] + RemoveScheme(s[1..])
  }

  /** The index of the first `c` in `s`, if any. */
  function IndexOf(s: string, c: char): (r: Option<nat>)
    ensures r.None? <==> c !in s
    ensures r.Some? ==> r.value < |s| && s[r.value] == c && c !in s[..r.value]
  {
    if s == [] then None
    else if s[0] == c then Some(0)
    else match IndexOf(s[1..], c)
      case None => None
      case Some(i) =>
        assert s[1..][..i] == s[1..i + 1];
        assert s[..i + 1] == [s[0]] + s[1..i + 1];
        Some(i + 1)
  }

  /** `s.split('/', 1)` unpacked into two names: the text before the first `/` and the rest. */
  function SplitAtSlash(s: string): (r: Option<Locator>)
    ensures r.None? <==> '/' !in s
    ensures r.Some? ==> '/' !in r.value.bucket && r.value.bucket + "/" + r.value.key == s
  {
    match IndexOf(s, '/')
    case None => None
    case Some(i) =>
      assert s == s[..i] + "/" + s[i + 1..];
      Some(Locator(s[..i], s[i + 1..]))
  }

  /** `parse_s3_uri`: drop every `s3://`, then split at the first `/`. */
  function ParseS3Uri(path: string): (r: Result<Locator, ParseError>)
    ensures r.Success? <==> '/' in RemoveScheme(path)
    ensures r.Success? ==> '/' !in r.value.bucket && r.value.bucket + "/" + r.value.key == RemoveScheme(path)
  {
    match SplitAtSlash(RemoveScheme(path))
    case None => Failure(MalformedLocator(path))
    case Some(loc) => Success(loc)
  }

  /** `posixpath.join(a, b)`: an absolute `b` replaces `a`; an empty `a`, or one ending
      in `/`, gets no extra separator. */
  function Join(a: string, b: string): string
  {
    if |b| > 0 && b[0] == '/' then b
    else if a == [] || a[|a| - 1] == '/' then a + b
    else a + "/" + b
  }

  /** `posixpath.basename(p)`: the text after the last `/` (all of `p` when it has none). */
  function Basename(p: string): (r: string)
    ensures '/' !in r
    ensures |r| <= |p| && p[|p| - |r|..] == r
    ensures |r| < |p| ==> p[|p| - |r| - 1] == '/'
  {
    if p == [] then []
    else if p[|p| - 1] == '/' then []
    else
      var r := Basename(p[..|p| - 1]);
      assert p[..|p| - 1][|p| - 1 - |r|..] + [p[|p| - 1]] == p[|p| - |r| - 1..];
      r + [p[|p| - 1]]
  }

  // ---------------------------------------------------------------------------
  // Properties

  /** A string with no `s3://` in it is left as it is by the replacement. */
  lemma {:induction false} RemoveSchemeIdentity(s: string)
    requires !ContainsScheme(s)
    ensures RemoveScheme(s) == s
  {
    if s != [] {
      assert !SchemeAt(s, 0);
      forall i: nat | SchemeAt(s[1..], i) ensures SchemeAt(s, i + 1) {
        assert s[i + 1..i + 1 + |Scheme|] == s[1..][i..i + |Scheme|];
      }
      RemoveSchemeIdentity(s[1..]);
    }
  }

  /** The replacement only deletes characters: if the stripped text has a `/`, so had the original. */
  lemma {:induction false} SlashSurvivesRemoval(s: string)
    requires '/' in RemoveScheme(s)
    ensures '/' in s
    decreases |s|
  {
    if SchemeAt(s, 0) {
      assert s[3] == '/';
    } else if s != [] && s[0] != '/' {
      SlashSurvivesRemoval(s[1..]);
    }
  }

  /** Every `s3://` goes, not only a leading one: a listed key that holds the scheme text
      parses to a different key. */
  lemma SchemeInsideKeyIsRemoved()
    ensures ParseS3Uri("b/s3://k") == Success(Locator("b", "k"))
  {
    var k := "k";
    assert RemoveScheme(k) == k by { assert !SchemeAt(k, 0); assert !SchemeAt(k[1..], 0); }
    var t := "s3://k";
    assert SchemeAt(t, 0) && t[|Scheme|..] == k;
    assert RemoveScheme(t) == k;
    var u := "/s3://k";
    assert u[..|Scheme|][0] != Scheme[0];
    assert !SchemeAt(u, 0) && u[1..] == t;
    var s := "b/s3://k";
    assert !SchemeAt(s, 0) && s[1..] == u;
    assert RemoveScheme(s) == "b/k";
    assert IndexOf("b/k", '/') == Some(1);
  }

  /** `IndexOf` finds the first occurrence. */
  lemma {:induction false} IndexOfFirst(s: string, c: char, i: nat)
    requires i < |s| && s[i] == c && c !in s[..i]
    ensures IndexOf(s, c) == Some(i)
  {
    if i > 0 {
      assert s[0] in s[..i];
      assert s[1..][..i - 1] == s[1..i];
      assert forall x :: x in s[1..i] ==> x in s[..i];
      IndexOfFirst(s[1..], c, i - 1);
    }
  }

  /** A path listed as `os.path.join(bucket, key)` parses back to that bucket and key, provided
      the bucket is a real one (non-empty, no `/`), the key is relative, and no `s3://` occurs. */
  lemma ParseJoinRoundTrip(bucket: string, key: string)
    requires bucket != [] && '/' !in bucket
    requires !(|key| > 0 && key[0] == '/')
    requires !ContainsScheme(bucket + "/" + key)
    ensures Join(bucket, key) == bucket + "/" + key
    ensures ParseS3Uri(Join(bucket, key)) == Success(Locator(bucket, key))
  {
    assert bucket[|bucket| - 1] in bucket;
    var s := bucket + "/" + key;
    RemoveSchemeIdentity(s);
    assert s[..|bucket|] == bucket;
    IndexOfFirst(s, '/', |bucket|);
    assert s[|bucket| + 1..] == key;
  }

  /** Basename of a prefix that ends at a separator, followed by a name without one, is that name. */
  lemma {:induction false} BasenameAfterSeparator(prefix: string, b: string)
    requires '/' !in b
    requires prefix == [] || prefix[|prefix| - 1] == '/'
    ensures Basename(prefix + b) == b
    decreases |b|
  {
    var p := prefix + b;
    if b != [] {
      var init, last := b[..|b| - 1], b[|b| - 1];
      assert p[..|p| - 1] == prefix + init;
      assert p[|p| - 1] == last;
      assert last in b;
      assert '/' !in init by {
        assert forall x :: x in init ==> x in b;
      }
      BasenameAfterSeparator(prefix, init);
      assert Basename(p) == Basename(prefix + init) + [last];
      assert init + [last] == b;
    } else {
      assert p == prefix;
    }
  }

  /** The three cases of `posixpath.join(a, b)`: an absolute `b` is the result; otherwise `b` is
      appended to `a`, with a `/` between them unless `a` is empty or already ends in one. */
  lemma JoinRules(a: string, b: string)
    ensures |b| > 0 && b[0] == '/' ==> Join(a, b) == b
    ensures !(|b| > 0 && b[0] == '/') && (a == [] || a[|a| - 1] == '/') ==> Join(a, b) == a + b
    ensures !(|b| > 0 && b[0] == '/') && a != [] && a[|a| - 1] != '/' ==> Join(a, b) == a + "/" + b
  {
  }

  /** A name without `/` is placed directly under the directory: `d + name` when `d` is empty
      or ends in `/`, `d + "/" + name` otherwise. */
  lemma JoinPlainName(dir: string, name: string)
    requires '/' !in name
    ensures Join(dir, name) == if dir == [] || dir[|dir| - 1] == '/' then dir + name else dir + "/" + name
  {
    assert |name| > 0 ==> name[0] in name;
  }

  /** A listed key that starts with `/` loses its bucket in `os.path.join(bucket, key)`, and the
      path then parses to the empty bucket. */
  lemma {:induction false} AbsoluteKeyLosesBucket(bucket: string, key: string)
    requires |key| > 0 && key[0] == '/'
    requires !ContainsScheme(key)
    ensures Join(bucket, key) == key
    ensures ParseS3Uri(Join(bucket, key)) == Success(Locator("", key[1..]))
  {
    RemoveSchemeIdentity(key);
    IndexOfFirst(key, '/', 0);
    assert key[..0] == "";
  }

  /** Under a directory that ends in `/`, a plain name is appended with no extra separator. */
  lemma JoinUnderDirectory(dir: string, name: string)
    requires dir != [] && dir[|dir| - 1] == '/'
    requires '/' !in name
    ensures Join(dir, name) == dir + name
  {
    assert |name| > 0 ==> name[0] in name;
  }

  /** The name of a file survives the destination join: `basename(join(d, basename(k))) == basename(k)`. */
  lemma JoinKeepsBasename(dir: string, key: string)
    ensures Basename(Join(dir, Basename(key))) == Basename(key)
  {
    var b := Basename(key);
    assert |b| > 0 ==> b[0] in b;
    if dir == [] {
      BasenameAfterSeparator([], b);
    } else if dir[|dir| - 1] == '/' {
      BasenameAfterSeparator(dir, b);
    } else {
      assert Join(dir, b) == (dir + "/") + b;
      BasenameAfterSeparator(dir + "/", b);
    }
  }
}
