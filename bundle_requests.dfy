/**
 * BundleRequestHandler<TBundle>: serves GET /script/<version>/<path>,
 * /stylesheet/... and /htmltemplate/... . It strips the routing prefix and
 * the version segment from the request path, looks up the first bundle of
 * its kind under a read lock, and answers 404, 304 (the client's
 * If-None-Match equals the bundle's ETag exactly) or 200 with the bundle's
 * content stream and a fresh ETag.
 */
module BundleRequests {
  import opened Cassette
  import opened Text

  // ---------------------------------------------------------------------
  // Path stripping
  // ---------------------------------------------------------------------

  /**
   * The index of the `k`-th occurrence of `c` at or after `from`, or -1
   * when there are fewer than `k` of them.
   */
  function OccurrenceIndex(s: string, c: char, k: nat, from: nat): (r: int)
    requires 1 <= k && from <= |s|
    ensures r == -1 <==> CountOf(s, c, from, |s|) < k
    ensures r != -1 ==> from <= r < |s| && s[r] == c && CountOf(s, c, from, r + 1) == k
    decreases |s| - from
  {
    var j := IndexOf(s, c, from);
    if j == -1 then
      CountAbsent(s, c, from, |s|);
      -1
    else
      CountAtFirst(s, c, from, j, |s|);
      if k == 1 then
        CountAtFirst(s, c, from, j, j + 1);
        j
      else
        var r := OccurrenceIndex(s, c, k - 1, j + 1);
        if r != -1 then
          CountAtFirst(s, c, from, j, r + 1);
          r
        else
          r
  }

  /**
   * What `IndexOfOccurence(s, c, occurrence)` produces: the search starts
   * at index 1, so an occurrence at index 0 is never counted; on an empty
   * string the first `IndexOf(c, 1)` throws.
   */
  function OccurrenceOutcome(s: string, c: char, occurrence: int): (r: Outcome<int>)
    ensures r.Thrown? <==> 1 <= occurrence && |s| == 0
    ensures r.Thrown? ==> r.fault == ArgumentOutOfRange
    ensures r.Value? ==> r.value == -1 || (1 <= r.value < |s| && s[r.value] == c)
  {
    if occurrence < 1 then Value(-1)
    else if |s| == 0 then Thrown(ArgumentOutOfRange)
    else Value(OccurrenceIndex(s, c, occurrence, 1))
  }

  /**
   * IndexOfOccurence: repeatedly searches for the next `c` after the
   * previous hit, at most `occurrence` times.
   */
  method IndexOfOccurrence(s: string, c: char, occurrence: int) returns (r: Outcome<int>)
    ensures r == OccurrenceOutcome(s, c, occurrence)
    ensures r.Thrown? <==> 1 <= occurrence && |s| == 0
    ensures r.Value? ==> (r.value == -1 <==> occurrence < 1 || CountOf(s, c, 1, |s|) < occurrence)
    ensures r.Value? && r.value != -1 ==>
              1 <= r.value < |s| && s[r.value] == c && CountOf(s, c, 1, r.value + 1) == occurrence
  {
    var i := 1;
    var index := 0;
    while i <= occurrence
      invariant 1 <= i && 0 <= index
      invariant 1 <= occurrence ==> i <= occurrence
      invariant i == 1 ==> index == 0
      invariant i > 1 ==> index < |s|
      invariant 1 <= occurrence && index < |s| ==>
                  OccurrenceIndex(s, c, occurrence, 1) == OccurrenceIndex(s, c, occurrence - i + 1, index + 1)
      decreases occurrence - i
    {
      if index + 1 > |s| {
        // String.IndexOf rejects a start index past the end of the string
        return Thrown(ArgumentOutOfRange);
      }
      var next := IndexOf(s, c, index + 1);
      if next == -1 {
        break;
      }
      if i == occurrence {
        return Value(next);
      }
      index := next;
      i := i + 1;
    }
    return Value(-1);
  }

  /** `s.Substring(start)`: throws when `start` is outside `0..|s|`. */
  function Substring(s: string, start: int): (r: Outcome<string>)
    ensures r.Value? <==> 0 <= start <= |s|
    ensures r.Value? ==> r.value == s[start..]
    ensures r.Thrown? ==> r.fault == ArgumentOutOfRange
  {
    if 0 <= start <= |s| then Value(s[start..]) else Thrown(ArgumentOutOfRange)
  }

  /** Lines 24-25 of ProcessRequest: the path from the second counted '/' on. */
  function StrippedPath(path: string): (r: Outcome<string>)
    ensures r.Thrown? ==> r.fault == ArgumentOutOfRange
    ensures r.Value? ==> 1 <= |r.value| < |path| && r.value[0] == '/' && r.value == path[|path| - |r.value|..]
  {
    match OccurrenceOutcome(path, '/', 2)
    case Thrown(f) => Thrown(f)
    case Value(index) => Substring(path, index)
  }

  /**
   * The path is stripped exactly when it has two '/' after its first
   * character; the result then starts at the second of them and is a
   * suffix of the path. Otherwise an ArgumentOutOfRangeException escapes.
   */
  lemma StrippedPathMeaning(path: string)
    ensures StrippedPath(path).Thrown? <==> |path| == 0 || CountOf(path, '/', 1, |path|) < 2
    ensures StrippedPath(path).Thrown? ==> StrippedPath(path).fault == ArgumentOutOfRange
    ensures StrippedPath(path).Value? ==>
              var rest := StrippedPath(path).value;
              1 <= |rest| < |path| && rest[0] == '/' && rest == path[|path| - |rest|..] &&
              CountOf(path, '/', 1, |path| - |rest| + 1) == 2
  {
  }

  /** If `s[j]` is the first `c` at or after `start`, IndexOf finds it. */
  lemma IndexOfFinds(s: string, c: char, start: nat, j: nat)
    requires start <= j < |s| && s[j] == c
    requires forall i :: start <= i < j ==> s[i] != c
    ensures IndexOf(s, c, start) == j
  {
  }

  // ---------------------------------------------------------------------
  // Routing prefixes
  // ---------------------------------------------------------------------

  /** PathPrefix: the fixed routing prefix of each bundle kind. */
  function PathPrefix(kind: BundleKind): (r: Outcome<string>)
    ensures r.Thrown? <==> kind.OtherKind?
    ensures r.Thrown? ==> r.fault == UnhandledBundleType
    ensures r.Value? ==> |r.value| > 1 && r.value[0] == '/' && forall i :: 1 <= i < |r.value| ==> r.value[i] != '/'
  {
    match kind
    case Script => Value("/script")
    case Stylesheet => Value("/stylesheet")
    case HtmlTemplate => Value("/htmltemplate")
    case OtherKind(_) => Thrown(UnhandledBundleType)
  }

  /** No kind's prefix is a prefix of another kind's. */
  lemma PathPrefixesDisjoint(k1: BundleKind, k2: BundleKind)
    requires PathPrefix(k1).Value? && PathPrefix(k2).Value? && k1 != k2
    ensures !(PathPrefix(k1).value <= PathPrefix(k2).value)
  {
    var p1, p2 := PathPrefix(k1).value, PathPrefix(k2).value;
    if k1 == Script || k2 == Script {
      // "/script" and "/stylesheet" first differ at index 2
      assert |p1| <= |p2| ==> p1[2] != p2[2];
    } else {
      // "/stylesheet" and "/htmltemplate" first differ at index 1
      assert p1[1] != p2[1];
    }
  }

  /**
   * A request path built from a kind's prefix, a version segment and a
   * logical path starting with '/' strips back to that logical path.
   */
  lemma {:induction false} StripRoundTrip(kind: BundleKind, version: string, logical: string)
    requires PathPrefix(kind).Value?
    requires forall i :: 0 <= i < |version| ==> version[i] != '/'
    requires |logical| > 0 && logical[0] == '/'
    ensures StrippedPath(PathPrefix(kind).value + "/" + version + logical) == Value(logical)
  {
    var p := PathPrefix(kind).value;
    var s := p + "/" + version + logical;
    var first, second := |p|, |p| + 1 + |version|;
    assert s[first] == '/' && s[second] == '/';
    assert forall i :: 1 <= i < first ==> s[i] == p[i];
    assert forall i :: first + 1 <= i < second ==> s[i] == version[i - first - 1];
    IndexOfFinds(s, '/', 1, first);
    IndexOfFinds(s, '/', first + 1, second);
    assert OccurrenceIndex(s, '/', 1, first + 1) == second;
    assert OccurrenceIndex(s, '/', 2, 1) == second;
    assert s[second..] == logical;
  }

  // ---------------------------------------------------------------------
  // Lookup, ETag and the response
  // ---------------------------------------------------------------------

  /** The index of the first candidate of `kind`, or -1. */
  function FirstIndexOfKind(candidates: seq<Bundle>, kind: BundleKind): (i: int)
    ensures i == -1 <==> forall j :: 0 <= j < |candidates| ==> candidates[j].kind != kind
    ensures i != -1 ==> 0 <= i < |candidates| && candidates[i].kind == kind &&
                        forall j :: 0 <= j < i ==> candidates[j].kind != kind
  {
    if |candidates| == 0 then -1
    else if candidates[0].kind == kind then 0
    else
      var i := FirstIndexOfKind(candidates[1..], kind);
      if i == -1 then -1 else i + 1
  }

  /** `candidates.OfType<TBundle>().FirstOrDefault()`. */
  function FirstOfKind(candidates: seq<Bundle>, kind: BundleKind): (r: Option<Bundle>)
    ensures r.None? <==> forall b :: b in candidates ==> b.kind != kind
    ensures r.Some? ==> exists i :: 0 <= i < |candidates| && candidates[i] == r.value && r.value.kind == kind &&
                                    forall j :: 0 <= j < i ==> candidates[j].kind != kind
  {
    var i := FirstIndexOfKind(candidates, kind);
    if i == -1 then None else Some(candidates[i])
  }

  /** The entity tag of a bundle: its hash in hex, in double quotes. */
  function ETag(hash: seq<byte>): (tag: string)
    ensures |tag| == 2 * |hash| + 2
    ensures tag[0] == '"' && tag[|tag| - 1] == '"'
    ensures forall i :: 0 < i < |tag| - 1 ==> IsLowerHexDigit(tag[i])
  {
    "\"" + ToHexString(hash) + "\""
  }

  /** Two entity tags are equal exactly when the hashes are. */
  lemma ETagInjective(h1: seq<byte>, h2: seq<byte>)
    ensures ETag(h1) == ETag(h2) <==> h1 == h2
  {
    if ETag(h1) == ETag(h2) {
      var t1, t2 := ETag(h1), ETag(h2);
      assert ToHexString(h1) == t1[1..|t1| - 1] == t2[1..|t2| - 1] == ToHexString(h2);
      ToHexStringInjective(h1, h2);
    }
  }

  /** The decision the handler makes under the read lock (lines 29-50). */
  function Respond(kind: BundleKind, candidates: seq<Bundle>, ifNoneMatch: Option<string>): (r: Response)
    ensures r.status == NotFound <==> forall b :: b in candidates ==> b.kind != kind
    ensures r.status == NotFound ==> r.headers == [] && r.body == NoBody
    ensures r.status != NotFound ==>
              var b := FirstOfKind(candidates, kind).value;
              r.contentType == Some(b.contentType) &&
              (r.status == NotModified <==> ifNoneMatch == Some(ETag(b.hash))) &&
              (r.status == NotModified ==> r.headers == [] && r.body == NoBody) &&
              (r.status == OK ==> r.headers == [("ETag", ETag(b.hash))] && r.body == BundleStream(b))
  {
    match FirstOfKind(candidates, kind)
    case None => Response(NotFound, None, [], NoBody)
    case Some(bundle) =>
      var actualETag := ETag(bundle.hash);
      if ifNoneMatch == Some(actualETag) then
        Response(NotModified, Some(bundle.contentType), [], NoBody)
      else
        Response(OK, Some(bundle.contentType), [("ETag", actualETag)], BundleStream(bundle))
  }

  /**
   * Revalidation: sending back the ETag of a 200 response yields 304 with
   * the same content type.
   */
  lemma RevalidationNotModified(kind: BundleKind, candidates: seq<Bundle>, ifNoneMatch: Option<string>)
    requires Respond(kind, candidates, ifNoneMatch).status == OK
    ensures var first := Respond(kind, candidates, ifNoneMatch);
            var again := Respond(kind, candidates, Some(first.headers[0].1));
            again.status == NotModified && again.contentType == first.contentType
  {
  }

  /**
   * A rebuilt bundle with a different hash invalidates the ETag issued for
   * the old one: presenting it yields 200, not 304.
   */
  lemma StaleETagRefetches(kind: BundleKind, before: seq<Bundle>, after: seq<Bundle>)
    requires FirstOfKind(before, kind).Some? && FirstOfKind(after, kind).Some?
    requires FirstOfKind(before, kind).value.hash != FirstOfKind(after, kind).value.hash
    ensures Respond(kind, after, Some(ETag(FirstOfKind(before, kind).value.hash))).status == OK
  {
    ETagInjective(FirstOfKind(before, kind).value.hash, FirstOfKind(after, kind).value.hash);
  }

  /** An example request: bundle hash AB CD 12 34 under /script/v1/app/main. */
  lemma ScriptExample(b: Bundle)
    requires b.kind == Script && b.hash == [0xAB, 0xCD, 0x12, 0x34]
    ensures StrippedPath("/script/v1/app/main") == Value("/app/main")
    ensures ETag(b.hash) == "\"abcd1234\""
    ensures Respond(Script, [b], None).headers == [("ETag", "\"abcd1234\"")]
    ensures Respond(Script, [b], Some("\"abcd1234\"")).status == NotModified
    ensures Respond(Script, [b], Some("\"ffffffff\"")).status == OK
    ensures Respond(Stylesheet, [b], None).status == NotFound
  {
    StripRoundTrip(Script, "v1", "/app/main");
    assert "/script" + "/" + "v1" + "/app/main" == "/script/v1/app/main";
    assert ToHexString(b.hash[3..]) == "34";
    assert ToHexString(b.hash[2..]) == "12" + "34";
    assert ToHexString(b.hash[1..]) == "cd" + "1234";
    assert ToHexString(b.hash) == "ab" + "cd1234";
  }

  // ---------------------------------------------------------------------
  // The handler
  // ---------------------------------------------------------------------

  /** One handler per bundle kind, sharing the application's BundleCollection. */
  class BundleRequestHandler {
    const kind: BundleKind
    const bundles: BundleCollection

    constructor (kind: BundleKind, bundles: BundleCollection)
      ensures this.kind == kind && this.bundles == bundles
    {
      this.kind := kind;
      this.bundles := bundles;
    }

    /**
     * ProcessRequest: the collection is read only while the read lock is
     * held (FindBundlesContainingPath requires it), and the lock is released
     * on every exit, so the reader count is unchanged. The content stream in
     * a 200 response is opened by the host after this returns.
     */
    method ProcessRequest(path: string, ifNoneMatch: Option<string>, find: (seq<Bundle>, string) -> seq<Bundle>)
      returns (r: Outcome<Response>)
      modifies bundles`readers
      ensures bundles.readers == old(bundles.readers)
      ensures r == match StrippedPath(path)
                   case Thrown(f) => Thrown(f)
                   case Value(p) => Value(Respond(kind, find(bundles.bundles, p), ifNoneMatch))
    {
      var indexOfOccurrence := IndexOfOccurrence(path, '/', 2);
      if indexOfOccurrence.Thrown? {
        return Thrown(indexOfOccurrence.fault);
      }
      var stripped := Substring(path, indexOfOccurrence.value);
      if stripped.Thrown? {
        return Thrown(stripped.fault);
      }
      var logical := stripped.value;

      bundles.GetReadLock();
      var candidates := bundles.FindBundlesContainingPath(logical, find);
      var found := FirstOfKind(candidates, kind);
      if found.None? {
        bundles.ReleaseReadLock();
        return Value(Response(NotFound, None, [], NoBody));
      }
      var bundle := found.value;

      var actualETag := ETag(bundle.hash);
      if ifNoneMatch == Some(actualETag) {
        bundles.ReleaseReadLock();
        return Value(Response(NotModified, Some(bundle.contentType), [], NoBody));
      }

      var response := Response(OK, Some(bundle.contentType), [("ETag", actualETag)], BundleStream(bundle));
      bundles.ReleaseReadLock();
      return Value(response);
    }
  }
}
