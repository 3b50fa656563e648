# Cassette.Nancy request handlers in Dafny

Cassette serves *bundles*: named aggregates of scripts, stylesheets or HTML
templates, compiled into one resource with a content type and a content hash.
Cassette.Nancy plugs two request handlers into the Nancy web framework. This
project models both.

- **BundleRequestHandler** (`bundle_requests.dfy`) answers
  `GET /script/<version>/<path>`, `/stylesheet/...` and `/htmltemplate/...`.
  It strips the path from the second counted `/` on (`IndexOfOccurence` skips
  index 0). It takes the shared read lock of the `BundleCollection` and picks
  the first candidate bundle of its own kind. It then answers in one of three
  ways:
  - 404 when there is no such bundle;
  - 304 with the bundle's content type when `If-None-Match` equals the ETag
    `"` + hex(hash) + `"` exactly;
  - otherwise 200 with the deferred content stream, an `ETag` header and the
    content type.

  `PathPrefix` maps each kind to its fixed route.
- **DiagnosticRequestHandler** (`diagnostics.dfy`) serves `/_Cassette`.
  Access is always granted. A POST (the method is compared ignoring case)
  triggers `RebuildCache` when the form's `action` is `rebuild-cache`, and is
  always answered 200. Any other request builds the snapshot's queries over
  all bundles under the read lock (the source evaluates them later; see
  Left out). The snapshot holds each bundle's path and URL (external or
  generated), its asset links, its references and its size (-1 in debug mode
  or when the bundle has no assets). It also describes the source and cache
  directories. `AssetLinkCreator` is the visitor that turns a bundle's assets
  into links. It strips the bundle path, ignoring case, and adds URLs only in
  debug mode.

Shared values and the collection are in `cassette.dfy`. The library string
operations the handlers rely on are in `text.dfy`: ordinal `IndexOf`, the
ordinal ignore-case comparison, and `ToHexString`. `EqualsIgnoreCase` and
`StartsWithIgnoreCase` are the definitions that `IsPost` and
`StripBundlePath` are stated in; they carry no contract of their own, so
they have no row below.

The lock is modelled as a reader count on `BundleCollection`. Reading the
collection (`FindBundlesContainingPath`, `All`) requires a held read lock.
Both handlers are proved to leave the count as they found it on every exit.

In two places the model follows the code where a reader might expect otherwise:
- A request path with fewer than two `/` after its first character is not
  answered 404. `IndexOfOccurence` returns -1 and `path.Substring(-1)` throws
  `ArgumentOutOfRangeException`. An empty path already throws inside
  `IndexOf(…, 1)`. The model returns `Thrown(ArgumentOutOfRange)` in both
  cases, before the lock is taken.
- The lock does not cover opening the content stream. The 200 response carries
  the `OpenStream` delegate (`BundleStream(b)`), which the host calls after the
  `using` block has released the lock.

## Model

| member | source | states |
|---|---|---|
| `BundleRequests.IndexOfOccurrence` | src/Cassette.Nancy/BundleRequestHandler.cs:69-83 | throws exactly on an empty string with occurrence ≥ 1; returns -1 exactly when occurrence < 1 or `s[1..]` holds fewer than `occurrence` matches; otherwise returns an index `i ≥ 1` with `s[i] == c` and exactly `occurrence` matches in `s[1..i+1]`; its decreases clause bounds the loop by `occurrence` rounds |
| `BundleRequests.OccurrenceIndex` | src/Cassette.Nancy/BundleRequestHandler.cs:74-80 | the k-th match at or after `from`: -1 iff fewer than k matches remain, else an index holding the match with exactly k matches up to and including it |
| `BundleRequests.OccurrenceOutcome` | src/Cassette.Nancy/BundleRequestHandler.cs:69-83 | what `IndexOfOccurence` produces: it throws ArgumentOutOfRange exactly on an empty string with occurrence ≥ 1; otherwise -1 or an index ≥ 1 that holds the searched character |
| `Text.IndexOf` | src/Cassette.Nancy/BundleRequestHandler.cs:74 | `s.IndexOf(c, start)` is -1 or an index ≥ start holding `c`, with no `c` between `start` and it (none at all when -1) |
| `BundleRequests.Substring` | src/Cassette.Nancy/BundleRequestHandler.cs:25 | `Substring(start)` yields the suffix from `start` exactly when `0 ≤ start ≤ |s|`, and otherwise throws ArgumentOutOfRange |
| `BundleRequests.StrippedPath` | src/Cassette.Nancy/BundleRequestHandler.cs:24-25 | the path with the prefix and version removed: on success a proper suffix of the path that starts with `/`; on failure an ArgumentOutOfRange fault |
| `BundleRequests.StrippedPathMeaning` | src/Cassette.Nancy/BundleRequestHandler.cs:24-25 | stripping throws iff the path is empty or has fewer than two `/` after index 0; otherwise the result is a proper suffix that starts with `/`, at the second counted `/` |
| `BundleRequests.StripRoundTrip` | src/Cassette.Nancy/BundleRequestHandler.cs:24-25 | prefix + `/` + slash-free version + logical path (starting with `/`) strips back to the logical path |
| `BundleRequests.PathPrefix` | src/Cassette.Nancy/BundleRequestHandler.cs:54-66 | throws UnhandledBundleType exactly for a kind other than the three; each prefix is a single segment: `/` followed by no other `/` |
| `BundleRequests.PathPrefixesDisjoint` | src/Cassette.Nancy/BundleRequestHandler.cs:58-63 | no kind's prefix is a prefix of another kind's (so the three are pairwise distinct) |
| `Diagnostics.HudPathPrefixDisjoint` | src/Cassette.Nancy/DiagnosticRequestHandler.cs:14 | the `/_Cassette` prefix and each bundle kind's prefix are not prefixes of one another |
| `BundleRequests.FirstIndexOfKind` | src/Cassette.Nancy/BundleRequestHandler.cs:29 | -1 iff no candidate has the kind; otherwise the index of a candidate of the kind with none before it |
| `BundleRequests.FirstOfKind` | src/Cassette.Nancy/BundleRequestHandler.cs:29 | `OfType<TBundle>().FirstOrDefault()`: none iff no candidate has the kind, else the first candidate of the kind in sequence order |
| `Text.ToHexString` | src/Cassette.Nancy/BundleRequestHandler.cs:36 | two lower-case hex digits per hash byte |
| `Text.ToHexStringInjective` | src/Cassette.Nancy/BundleRequestHandler.cs:36 | hex strings are equal iff the byte sequences are |
| `BundleRequests.ETag` | src/Cassette.Nancy/BundleRequestHandler.cs:36 | the ETag starts and ends with `"`, has hex digits in between, and is 2·|hash|+2 long |
| `BundleRequests.ETagInjective` | src/Cassette.Nancy/BundleRequestHandler.cs:36 | two ETags are equal iff the hashes are |
| `BundleRequests.Respond` | src/Cassette.Nancy/BundleRequestHandler.cs:29-50 | 404 iff no candidate has the handler's kind; otherwise the first such bundle decides: 304, no headers and no body iff the header equals its ETag exactly, else 200 with `ETag` header and deferred stream; both carry its content type |
| `BundleRequests.RevalidationNotModified` | src/Cassette.Nancy/BundleRequestHandler.cs:36-50 | resending the ETag of a 200 response yields 304 with the same content type |
| `BundleRequests.StaleETagRefetches` | src/Cassette.Nancy/BundleRequestHandler.cs:36-45 | after a rebuild changes the first bundle's hash, the old ETag yields 200, not 304 |
| `BundleRequests.ScriptExample` | src/Cassette.Nancy/BundleRequestHandler.cs:24-50 | `/script/v1/app/main` strips to `/app/main`; hash AB CD 12 34 gives `"abcd1234"`, which yields 304 while `"ffffffff"` yields 200; a stylesheet handler answers 404 for a script bundle |
| `BundleRequests.BundleRequestHandler.constructor` | src/Cassette.Nancy/BundleRequestHandler.cs:16-20 | the handler keeps its kind and the shared collection |
| `BundleRequests.BundleRequestHandler.ProcessRequest` | src/Cassette.Nancy/BundleRequestHandler.cs:22-52 | the answer is the stripping fault, or `Respond` on the candidates for the stripped path; the collection is read only under the read lock, and the reader count after the call equals the count before it on every exit |
| `Cassette.BundleCollection.GetReadLock` | src/Cassette.Nancy/BundleRequestHandler.cs:27 | entering the `using` block adds one reader |
| `Cassette.BundleCollection.ReleaseReadLock` | src/Cassette.Nancy/BundleRequestHandler.cs:51 | leaving the `using` block removes one reader |
| `Cassette.BundleCollection.FindBundlesContainingPath` | src/Cassette.Nancy/BundleRequestHandler.cs:29 | callable only with the read lock held; gives the library's candidates for the path |
| `Cassette.BundleCollection.All` | src/Cassette.Nancy/DiagnosticRequestHandler.cs:64-66 | callable only with the read lock held; gives the current bundles |
| `Diagnostics.CanAccessHud` | src/Cassette.Nancy/DiagnosticRequestHandler.cs:57-60 | access is always granted |
| `Text.ToLower` | src/Cassette.Nancy/DiagnosticRequestHandler.cs:186 | the ASCII case fold: upper-case letters map to lower case, every other character is unchanged |
| `Diagnostics.IsPostMeaning` | src/Cassette.Nancy/DiagnosticRequestHandler.cs:33 | a method counts as a POST iff it is `post` in any mix of upper and lower case |
| `Diagnostics.IsPost` | src/Cassette.Nancy/DiagnosticRequestHandler.cs:33 | a method is a POST iff it has four characters that fold, ignoring case, to `post` |
| `Diagnostics.RequestsRebuild` | src/Cassette.Nancy/DiagnosticRequestHandler.cs:50 | a form asks for a rebuild only if it has an `action` field whose value is exactly `rebuild-cache`; a form without `action` never does |
| `Diagnostics.DiagnosticRequestHandler.ProcessRequest` | src/Cassette.Nancy/DiagnosticRequestHandler.cs:28-47 | always 200 (the 404 branch is unreachable); a POST gets no page data and rebuilds once iff `action == "rebuild-cache"`; any other method gets the page and the snapshot of the current collection, with nothing rebuilt; reader count unchanged |
| `Diagnostics.DiagnosticRequestHandler.ProcessPost` | src/Cassette.Nancy/DiagnosticRequestHandler.cs:49-55 | always 200 with no body; RebuildCache runs exactly once iff the form's `action` is `rebuild-cache`, else not at all |
| `Diagnostics.CacheRebuilder.RebuildCache` | src/Cassette.Nancy/DiagnosticRequestHandler.cs:51 | each call is one more rebuild |
| `Diagnostics.DiagnosticRequestHandler.PageData` | src/Cassette.Nancy/DiagnosticRequestHandler.cs:62-83 | the snapshot is of the collection's current bundles and settings, taken between acquiring and releasing the read lock; reader count unchanged |
| `Diagnostics.DescribeDirectory` | src/Cassette.Nancy/DiagnosticRequestHandler.cs:85-95 | `(none)` exactly when there is no directory; otherwise full path + ` (` + type name + `)` |
| `Diagnostics.SourceDirectoryDescription` | src/Cassette.Nancy/DiagnosticRequestHandler.cs:85-89 | describes the source directory; `(none)` iff it is absent |
| `Diagnostics.CacheDirectoryDescription` | src/Cassette.Nancy/DiagnosticRequestHandler.cs:91-95 | describes the cache directory; `(none)` iff it is absent |
| `Diagnostics.BundleUrl` | src/Cassette.Nancy/DiagnosticRequestHandler.cs:130-137 | an external bundle's URL is its ExternalUrl; any other bundle's is the generator's bundle URL |
| `Diagnostics.BundleSize` | src/Cassette.Nancy/DiagnosticRequestHandler.cs:139-151 | always -1 or ≥ 0; ≥ 0 iff not debugging and the bundle has assets, and then it is the content length |
| `Diagnostics.StripBundlePath` | src/Cassette.Nancy/DiagnosticRequestHandler.cs:184-188 | the result is always a suffix of the asset path (so `Substring` stays in range); it is shorter iff the asset path is strictly longer than the bundle path and starts with it ignoring case, and then exactly `|bundlePath|+1` characters are dropped |
| `Diagnostics.OfKind` | src/Cassette.Nancy/DiagnosticRequestHandler.cs:64-66 | `OfType<T>()` keeps exactly the bundles of the kind, and never more of them than the collection holds |
| `Diagnostics.OfKindAppend` | src/Cassette.Nancy/DiagnosticRequestHandler.cs:64-66 | filtering a concatenation is the concatenation of the filtered parts, so the result keeps collection order and multiplicity |
| `Diagnostics.OfKindSingle` | src/Cassette.Nancy/DiagnosticRequestHandler.cs:64-66 | a single bundle is kept exactly when it has the kind (together with `OfKindAppend`, this fixes `OfType<T>()` as the in-order subsequence of that kind) |
| `Diagnostics.BundleDataOf` | src/Cassette.Nancy/DiagnosticRequestHandler.cs:97-128 | a bundle's record has its path, references, `BundleUrl`, `BundleSize` and asset links; a script bundle gets a script record with its condition, a stylesheet bundle a stylesheet record with its media and condition, any other bundle a template record |
| `Diagnostics.HudDataOf` | src/Cassette.Nancy/DiagnosticRequestHandler.cs:68-80 | record i of each kind's list is `BundleDataOf` of the i-th bundle of that kind, in collection order, so there is one record of the right shape per such bundle; the directory descriptions and the HTML-rewriting and debugging flags come from the settings |
| `Diagnostics.HudDataComplete` | src/Cassette.Nancy/DiagnosticRequestHandler.cs:64-71 | every script, stylesheet and HTML-template bundle of the collection has an entry with its path among the records of its own kind |
| `Diagnostics.HudDataDebugMode` | src/Cassette.Nancy/DiagnosticRequestHandler.cs:97-128 | each snapshot entry describes a collection bundle with the entry's own kind: its path, URL, references, size and asset links; in debug mode every size is -1 and every link has a URL; otherwise no link has one |
| `Diagnostics.AssetLinkFor` | src/Cassette.Nancy/DiagnosticRequestHandler.cs:185-190 | one asset's link: its path is the stripped asset path; it has a URL exactly when a generator was supplied, and then the URL is the generator's asset URL |
| `Diagnostics.LinkUrlGenerator` | src/Cassette.Nancy/DiagnosticRequestHandler.cs:154-155 | the visitor is given the URL generator exactly when debugging is enabled |
| `Diagnostics.AssetLinkCreator.constructor` | src/Cassette.Nancy/DiagnosticRequestHandler.cs:169-174 | a new visitor has no links and no bundle path, and keeps the URL generator it was given, if any |
| `Diagnostics.AssetLinkCreator.VisitBundle` | src/Cassette.Nancy/DiagnosticRequestHandler.cs:180-182 | remembers the bundle path and leaves the links unchanged |
| `Diagnostics.AssetLinkCreator.VisitAsset` | src/Cassette.Nancy/DiagnosticRequestHandler.cs:184-191 | appends exactly one link (stripped path, URL iff a generator was given) and keeps the earlier links |
| `Diagnostics.DiagnosticRequestHandler.AssetPaths` | src/Cassette.Nancy/DiagnosticRequestHandler.cs:153-158 | one link per asset in visit order, each with the stripped asset path; a link has a URL iff debugging is enabled |
| `Diagnostics.DiagnosticRequestHandler.constructor` | src/Cassette.Nancy/DiagnosticRequestHandler.cs:21-26 | the handler keeps its collection, settings, URL generator and rebuilder |

## Left out

- Concurrency: readers-writer blocking, writer exclusivity and the atomicity of a rebuild are not modelled. Only the reader count is kept, to show that every acquire is matched by a release.
- Logging: the NLog `Info` records of `BundleRequestHandler.ProcessRequest` are dropped.
- The Nancy request is reduced to the values the handlers read: the path, the `If-None-Match` value, the HTTP method and the form. Nancy's header indexer type is not visible. The header is an optional string compared by exact equality, and an absent header never matches. If the indexer returned null, the source would throw at `Equals` instead.
- `FindBundlesContainingPath` lives in Cassette's library, so the lookup is a caller-supplied function of the current bundles and the path. `CreateBundleUrl` and `CreateAssetUrl` are supplied functions in the same way.
- `ToHexString` is also Cassette's library. It is modelled as two lower-case hex digits per byte.
- Subclassing: `OfType<T>` is modelled as equality of a kind tag. External bundles carry their base kind plus an external URL.
- `IndexOfOccurrence`: `match` is a single character, since the only caller passes `"/"`. `String.IndexOf` is taken as ordinal, while .NET's string overload is culture-sensitive.
- Case-insensitive comparison: `OrdinalIgnoreCase` is modelled by an ASCII case fold, not full Unicode case mapping.
- `Bundle.Accept` is not shown. The model assumes it visits the bundle and then each asset in order, which is why `VisitAsset` requires a remembered bundle path.
- Diagnostics rendering: `Bundles.AddPageData`, `Bundles.Reference`, the template substitution and the `StreamWriter` body are out. The page is the opaque `HudPage` body, and the assembly version from reflection is left out of the snapshot.
- `PageData`: LINQ's `Select` and `OfType` are lazy, so in the source the projections run when the page data is serialized, after the lock is released. The model evaluates the snapshot eagerly inside the lock.
- `BundleSize` opens the bundle's stream only to read its length. The stream's length is the bundle's `contentLength`, and disposal is not modelled.
- `src/Cassette.Nancy/IsolatedStorageContainer.cs` is a thin wrapper over `DisposableLazy` and `IsolatedStorageFile`, neither of which is part of this model.
- The bootstrappers (`OptimizingBootstrapper`, `NonOptimizingBootstrapper`, the TinyIoC demo `Bootstrapper`) only wire up dependency injection and conventions.
