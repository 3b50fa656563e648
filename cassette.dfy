/**
 * Values and state shared by the two request handlers of Cassette.Nancy:
 * bundles and their kinds, the bundle collection with its read lock,
 * the HTTP responses the handlers build, and the .NET exceptions the
 * handlers can raise instead of returning.
 */
module Cassette {

  newtype byte = x: int | 0 <= x < 256

  datatype Option<+T> = None | Some(value: T)

  /** The exceptions the modelled code raises. */
  datatype Fault =
    | ArgumentOutOfRange    // String.IndexOf or String.Substring given a start index outside the string
    | UnhandledBundleType   // the ApplicationException of BundleRequestHandler.PathPrefix

  /** What a .NET call produces: a value, or the exception thrown instead. */
  datatype Outcome<+T> = Value(value: T) | Thrown(fault: Fault)

  /**
   * The bundle classes a handler can be instantiated with. `OtherKind`
   * stands for any Bundle subclass besides the three Cassette ships.
   * External bundles (ExternalScriptBundle, ...) are subclasses of their
   * kind's class, so they carry that kind and an external URL.
   */
  datatype BundleKind = Script | Stylesheet | HtmlTemplate | OtherKind(typeName: string)

  datatype Asset = Asset(path: string)

  /**
   * A compiled bundle. `contentLength` is the length of the stream that
   * `OpenStream` returns; `condition` and `media` are the pass-through
   * attributes of script and stylesheet bundles.
   */
  datatype Bundle = Bundle(
    kind: BundleKind,
    path: string,
    contentType: string,
    hash: seq<byte>,
    assets: seq<Asset>,
    references: seq<string>,
    externalUrl: Option<string>,
    condition: string,
    media: string,
    contentLength: nat)

  datatype Status = OK | NotModified | NotFound

  /**
   * A response body. `BundleStream(b)` is the deferred `b.OpenStream`
   * delegate: the host opens it after the handler has returned.
   * `HudPage` is the rendered diagnostics page.
   */
  datatype Body = NoBody | BundleStream(bundle: Bundle) | HudPage

  /** `contentType == None` leaves the framework's default content type. */
  datatype Response = Response(status: Status, contentType: Option<string>, headers: seq<(string, string)>, body: Body)

  /**
   * The shared BundleCollection. Only its reader count is modelled of the
   * readers-writer lock; reading the bundles requires a held read lock.
   */
  class BundleCollection {
    var bundles: seq<Bundle>
    var readers: nat

    constructor (bundles: seq<Bundle>)
      ensures this.bundles == bundles && readers == 0
    {
      this.bundles := bundles;
      readers := 0;
    }

    /** Entering a `using (bundles.GetReadLock())` block. */
    method GetReadLock()
      modifies this`readers
      ensures readers == old(readers) + 1
    {
      readers := readers + 1;
    }

    /** Disposing the lock at the end of the `using` block. */
    method ReleaseReadLock()
      requires readers > 0
      modifies this`readers
      ensures readers == old(readers) - 1
    {
      readers := readers - 1;
    }

    /**
     * FindBundlesContainingPath: the path matching lives in Cassette's
     * library, so it is the caller-supplied `find` over the current bundles.
     */
    method FindBundlesContainingPath(path: string, find: (seq<Bundle>, string) -> seq<Bundle>) returns (candidates: seq<Bundle>)
      requires readers > 0
      ensures candidates == find(bundles, path)
    {
      candidates := find(bundles, path);
    }

    /** Enumerating the collection itself. */
    method All() returns (all: seq<Bundle>)
      requires readers > 0
      ensures all == bundles
    {
      all := bundles;
    }
  }
}
