/**
 * DiagnosticRequestHandler: the /_Cassette page. A POST whose form action
 * is "rebuild-cache" triggers the bundle cache rebuild; any other request
 * takes a snapshot of every script, stylesheet and HTML-template bundle
 * (path, URL, asset links, references, size) under the read lock and
 * hands it to the page renderer.
 */
module Diagnostics {
  import opened Cassette
  import opened Text
  import BundleRequests

  const HudPathPrefix := "/_Cassette"

  /**
   * The diagnostics route and the bundle routes do not overlap: neither
   * prefix is a prefix of the other, so no request path is claimed by both.
   */
  lemma HudPathPrefixDisjoint(kind: BundleKind)
    requires BundleRequests.PathPrefix(kind).Value?
    ensures !(HudPathPrefix <= BundleRequests.PathPrefix(kind).value)
    ensures !(BundleRequests.PathPrefix(kind).value <= HudPathPrefix)
  {
    var p := BundleRequests.PathPrefix(kind).value;
    // "/_Cassette" differs from "/script", "/stylesheet" and "/htmltemplate" at index 1
    assert HudPathPrefix[1] == '_' && p[1] != '_';
  }

  /** A configured directory: its full path and the name of its type. */
  datatype Directory = Directory(fullPath: string, typeName: string)

  /** The parts of CassetteSettings the handler reads. */
  datatype Settings = Settings(
    sourceDirectory: Option<Directory>,
    cacheDirectory: Option<Directory>,
    isHtmlRewritingEnabled: bool,
    isDebuggingEnabled: bool)

  /** IUrlGenerator: bundle and asset URLs come from Cassette's library. */
  datatype UrlGenerator = UrlGenerator(createBundleUrl: Bundle -> string, createAssetUrl: Asset -> string)

  datatype AssetLink = AssetLink(path: string, url: Option<string>)

  /** The per-bundle records of ScriptData, StylesheetData and HtmlTemplateData. */
  datatype BundleData =
    | ScriptData(path: string, url: string, condition: string, assets: seq<AssetLink>, references: seq<string>, size: int)
    | StylesheetData(path: string, url: string, media: string, condition: string, assets: seq<AssetLink>, references: seq<string>, size: int)
    | HtmlTemplateData(path: string, url: string, assets: seq<AssetLink>, references: seq<string>, size: int)

  /** The page data object PageData builds (without the assembly version). */
  datatype HudData = HudData(
    scripts: seq<BundleData>,
    stylesheets: seq<BundleData>,
    htmlTemplates: seq<BundleData>,
    cacheDirectory: string,
    sourceDirectory: string,
    isHtmlRewritingEnabled: bool,
    isDebuggingEnabled: bool)

  /** The external IBundleCacheRebuilder; it only counts its invocations here. */
  class CacheRebuilder {
    var rebuilds: nat

    constructor ()
      ensures rebuilds == 0
    {
      rebuilds := 0;
    }

    method RebuildCache()
      modifies this
      ensures rebuilds == old(rebuilds) + 1
    {
      rebuilds := rebuilds + 1;
    }
  }

  // ---------------------------------------------------------------------
  // Dispatch
  // ---------------------------------------------------------------------

  /** CanAccessHud: access control is a stub that admits every request. */
  function CanAccessHud(): (allowed: bool)
    ensures allowed
  {
    true
  }

  /** `method.Equals("post", StringComparison.OrdinalIgnoreCase)`. */
  predicate IsPost(httpMethod: string): (post: bool)
    ensures post <==> |httpMethod| == 4 && forall i :: 0 <= i < 4 ==> ToLower(httpMethod[i]) == "post"[i]
  {
    EqualsIgnoreCase(httpMethod, "post")
  }

  /** Exactly the four-letter spellings of "post", in any case, are POSTs. */
  lemma IsPostMeaning(httpMethod: string)
    ensures IsPost(httpMethod) <==>
              |httpMethod| == 4 &&
              httpMethod[0] in "pP" && httpMethod[1] in "oO" && httpMethod[2] in "sS" && httpMethod[3] in "tT"
  {
  }

  /** The form of a POST asks for a rebuild. */
  predicate RequestsRebuild(form: map<string, string>): (rebuild: bool)
    ensures "action" !in form ==> !rebuild
    ensures rebuild ==> form["action"] == "rebuild-cache"
  {
    "action" in form && form["action"] == "rebuild-cache"
  }

  // ---------------------------------------------------------------------
  // Settings, URLs and sizes
  // ---------------------------------------------------------------------

  /**
   * GetSourceDirectory / GetCacheDirectory: "(none)" without a directory,
   * otherwise its full path followed by its type name in parentheses. No
   * real directory is ever described as "(none)".
   */
  function DescribeDirectory(directory: Option<Directory>): (description: string)
    ensures directory.None? <==> description == "(none)"
    ensures directory.Some? ==>
              description == directory.value.fullPath + " (" + directory.value.typeName + ")"
  {
    match directory
    case None => "(none)"
    case Some(d) =>
      var description := d.fullPath + " (" + d.typeName + ")";
      assert description[|d.fullPath|] == ' ' && ' ' !in "(none)";
      description
  }

  function SourceDirectoryDescription(settings: Settings): (description: string)
    ensures description == DescribeDirectory(settings.sourceDirectory)
    ensures settings.sourceDirectory.None? <==> description == "(none)"
  {
    DescribeDirectory(settings.sourceDirectory)
  }

  function CacheDirectoryDescription(settings: Settings): (description: string)
    ensures description == DescribeDirectory(settings.cacheDirectory)
    ensures settings.cacheDirectory.None? <==> description == "(none)"
  {
    DescribeDirectory(settings.cacheDirectory)
  }

  /** BundleUrl: an external bundle's own URL, else the generated bundle URL. */
  function BundleUrl(bundle: Bundle, urlGenerator: UrlGenerator): (url: string)
    ensures bundle.externalUrl.Some? ==> url == bundle.externalUrl.value
    ensures bundle.externalUrl.None? ==> url == urlGenerator.createBundleUrl(bundle)
  {
    match bundle.externalUrl
    case Some(externalUrl) => externalUrl
    case None => urlGenerator.createBundleUrl(bundle)
  }

  /**
   * BundleSize: -1 ("unknown") in debug mode or for a bundle without
   * assets; otherwise the length of the bundle's content stream.
   */
  function BundleSize(bundle: Bundle, isDebuggingEnabled: bool): (size: int)
    ensures size == -1 || size >= 0
    ensures size >= 0 <==> !isDebuggingEnabled && |bundle.assets| > 0
    ensures size >= 0 ==> size == bundle.contentLength
  {
    if isDebuggingEnabled then -1
    else if |bundle.assets| > 0 then bundle.contentLength
    else -1
  }

  // ---------------------------------------------------------------------
  // Asset links
  // ---------------------------------------------------------------------

  /**
   * Visit(IAsset)'s path rule: an asset path strictly longer than the
   * bundle path that starts with it (ignoring case) loses the bundle path
   * and the one character after it; any other path is kept. The result is
   * always a suffix of the asset path.
   */
  function StripBundlePath(bundlePath: string, assetPath: string): (path: string)
    ensures |path| <= |assetPath| && path == assetPath[|assetPath| - |path|..]
    ensures |path| < |assetPath| <==> |assetPath| > |bundlePath| && StartsWithIgnoreCase(assetPath, bundlePath)
    ensures |path| < |assetPath| ==> |path| == |assetPath| - |bundlePath| - 1
  {
    if |assetPath| > |bundlePath| && StartsWithIgnoreCase(assetPath, bundlePath) then
      assetPath[|bundlePath| + 1..]
    else
      assetPath
  }

  /** The link one visited asset contributes. */
  function AssetLinkFor(bundlePath: string, asset: Asset, urlGenerator: Option<UrlGenerator>): (link: AssetLink)
    ensures link.path == StripBundlePath(bundlePath, asset.path)
    ensures link.url.Some? <==> urlGenerator.Some?
    ensures urlGenerator.Some? ==> link.url.value == urlGenerator.value.createAssetUrl(asset)
  {
    AssetLink(
      StripBundlePath(bundlePath, asset.path),
      match urlGenerator
      case Some(g) => Some(g.createAssetUrl(asset))
      case None => None)
  }

  /** The links a visit of the whole bundle produces, one per asset. */
  function AssetLinks(bundle: Bundle, urlGenerator: Option<UrlGenerator>): seq<AssetLink>
  {
    seq(|bundle.assets|, i requires 0 <= i < |bundle.assets| => AssetLinkFor(bundle.path, bundle.assets[i], urlGenerator))
  }

  /** AssetPaths' choice of visitor: URLs are generated only in debug mode. */
  function LinkUrlGenerator(settings: Settings, urlGenerator: UrlGenerator): (generator: Option<UrlGenerator>)
    ensures generator.Some? <==> settings.isDebuggingEnabled
    ensures generator.Some? ==> generator.value == urlGenerator
  {
    if settings.isDebuggingEnabled then Some(urlGenerator) else None
  }

  /**
   * AssetLinkCreator: Visit(Bundle) remembers the bundle's path and each
   * Visit(IAsset) appends one link.
   */
  class AssetLinkCreator {
    const urlGenerator: Option<UrlGenerator>
    var assetLinks: seq<AssetLink>
    var bundlePath: Option<string>

    /** Both constructors of the source: with a URL generator, or without one. */
    constructor (urlGenerator: Option<UrlGenerator>)
      ensures this.urlGenerator == urlGenerator
      ensures assetLinks == [] && bundlePath == None
    {
      this.urlGenerator := urlGenerator;
      assetLinks := [];
      bundlePath := None;
    }

    method VisitBundle(bundle: Bundle)
      modifies this`bundlePath
      ensures bundlePath == Some(bundle.path)
    {
      bundlePath := Some(bundle.path);
    }

    /** Bundle.Accept visits the bundle before its assets, so a path is set. */
    method VisitAsset(asset: Asset)
      requires bundlePath.Some?
      modifies this`assetLinks
      ensures assetLinks == old(assetLinks) + [AssetLinkFor(bundlePath.value, asset, urlGenerator)]
    {
      var path := asset.path;
      if |path| > |bundlePath.value| && StartsWithIgnoreCase(path, bundlePath.value) {
        path := path[|bundlePath.value| + 1..];
      }
      var url := match urlGenerator
        case Some(g) => Some(g.createAssetUrl(asset))
        case None => None;
      assetLinks := assetLinks + [AssetLink(path, url)];
    }
  }

  // ---------------------------------------------------------------------
  // Page data
  // ---------------------------------------------------------------------

  /** `bundles.OfType<T>()`: the bundles of one kind, in collection order. */
  function OfKind(bundles: seq<Bundle>, kind: BundleKind): (matching: seq<Bundle>)
    ensures |matching| <= |bundles|
    ensures forall b :: b in matching <==> b in bundles && b.kind == kind
  {
    if bundles == [] then []
    else if bundles[0].kind == kind then [bundles[0]] + OfKind(bundles[1..], kind)
    else OfKind(bundles[1..], kind)
  }

  /**
   * Filtering distributes over concatenation: the result keeps collection
   * order and each bundle of the kind as often as it occurs.
   */
  lemma {:induction false} OfKindAppend(xs: seq<Bundle>, ys: seq<Bundle>, kind: BundleKind)
    ensures OfKind(xs + ys, kind) == OfKind(xs, kind) + OfKind(ys, kind)
  {
    if xs != [] {
      assert (xs + ys)[1..] == xs[1..] + ys;
      OfKindAppend(xs[1..], ys, kind);
    } else {
      assert xs + ys == ys;
    }
  }

  /** A single bundle is kept exactly when it has the kind. */
  lemma OfKindSingle(b: Bundle, kind: BundleKind)
    ensures OfKind([b], kind) == if b.kind == kind then [b] else []
  {
    assert [b][1..] == [];
  }

  /** The record one bundle contributes to the snapshot. */
  function BundleDataOf(bundle: Bundle, settings: Settings, urlGenerator: UrlGenerator): (data: BundleData)
    ensures data.path == bundle.path && data.references == bundle.references
    ensures data.url == BundleUrl(bundle, urlGenerator)
    ensures data.size == BundleSize(bundle, settings.isDebuggingEnabled)
    ensures data.assets == AssetLinks(bundle, LinkUrlGenerator(settings, urlGenerator))
    ensures data.ScriptData? <==> bundle.kind == Script
    ensures data.StylesheetData? <==> bundle.kind == Stylesheet
    ensures data.ScriptData? ==> data.condition == bundle.condition
    ensures data.StylesheetData? ==> data.condition == bundle.condition && data.media == bundle.media
  {
    var url := BundleUrl(bundle, urlGenerator);
    var assets := AssetLinks(bundle, LinkUrlGenerator(settings, urlGenerator));
    var size := BundleSize(bundle, settings.isDebuggingEnabled);
    match bundle.kind
    case Script => ScriptData(bundle.path, url, bundle.condition, assets, bundle.references, size)
    case Stylesheet => StylesheetData(bundle.path, url, bundle.media, bundle.condition, assets, bundle.references, size)
    case _ => HtmlTemplateData(bundle.path, url, assets, bundle.references, size)
  }

  function DataOfKind(bundles: seq<Bundle>, kind: BundleKind, settings: Settings, urlGenerator: UrlGenerator): seq<BundleData>
  {
    var matching := OfKind(bundles, kind);
    seq(|matching|, i requires 0 <= i < |matching| => BundleDataOf(matching[i], settings, urlGenerator))
  }

  /** The snapshot PageData takes of the collection and the settings. */
  function HudDataOf(bundles: seq<Bundle>, settings: Settings, urlGenerator: UrlGenerator): (data: HudData)
    ensures |data.scripts| == |OfKind(bundles, Script)|
    ensures |data.stylesheets| == |OfKind(bundles, Stylesheet)|
    ensures |data.htmlTemplates| == |OfKind(bundles, HtmlTemplate)|
    ensures forall i :: 0 <= i < |data.scripts| ==> data.scripts[i].ScriptData?
    ensures forall i :: 0 <= i < |data.stylesheets| ==> data.stylesheets[i].StylesheetData?
    ensures forall i :: 0 <= i < |data.htmlTemplates| ==> data.htmlTemplates[i].HtmlTemplateData?
    ensures forall i :: 0 <= i < |data.scripts| ==>
              data.scripts[i] == BundleDataOf(OfKind(bundles, Script)[i], settings, urlGenerator)
    ensures forall i :: 0 <= i < |data.stylesheets| ==>
              data.stylesheets[i] == BundleDataOf(OfKind(bundles, Stylesheet)[i], settings, urlGenerator)
    ensures forall i :: 0 <= i < |data.htmlTemplates| ==>
              data.htmlTemplates[i] == BundleDataOf(OfKind(bundles, HtmlTemplate)[i], settings, urlGenerator)
    ensures data.cacheDirectory == DescribeDirectory(settings.cacheDirectory)
    ensures data.sourceDirectory == DescribeDirectory(settings.sourceDirectory)
    ensures data.isHtmlRewritingEnabled == settings.isHtmlRewritingEnabled
    ensures data.isDebuggingEnabled == settings.isDebuggingEnabled
  {
    HudData(
      DataOfKind(bundles, Script, settings, urlGenerator),
      DataOfKind(bundles, Stylesheet, settings, urlGenerator),
      DataOfKind(bundles, HtmlTemplate, settings, urlGenerator),
      CacheDirectoryDescription(settings),
      SourceDirectoryDescription(settings),
      settings.isHtmlRewritingEnabled,
      settings.isDebuggingEnabled)
  }

  /**
   * The snapshot is complete: every script, stylesheet and HTML-template
   * bundle of the collection has an entry of its own kind with its path.
   */
  lemma HudDataComplete(bundles: seq<Bundle>, settings: Settings, urlGenerator: UrlGenerator, b: Bundle)
    requires b in bundles
    ensures var data := HudDataOf(bundles, settings, urlGenerator);
            (b.kind == Script ==> exists e :: e in data.scripts && e.path == b.path) &&
            (b.kind == Stylesheet ==> exists e :: e in data.stylesheets && e.path == b.path) &&
            (b.kind == HtmlTemplate ==> exists e :: e in data.htmlTemplates && e.path == b.path)
  {
    var data := HudDataOf(bundles, settings, urlGenerator);
    if b.kind in {Script, Stylesheet, HtmlTemplate} {
      var matching := OfKind(bundles, b.kind);
      assert b in matching;
      var i :| 0 <= i < |matching| && matching[i] == b;
      var e := BundleDataOf(b, settings, urlGenerator);
      if b.kind == Script {
        assert data.scripts[i] == e;
      } else if b.kind == Stylesheet {
        assert data.stylesheets[i] == e;
      } else {
        assert data.htmlTemplates[i] == e;
      }
    }
  }

  /** Every entry of the snapshot, whatever its kind. */
  function AllData(data: HudData): seq<BundleData>
  {
    data.scripts + data.stylesheets + data.htmlTemplates
  }

  /**
   * Debug mode shows in every entry of the snapshot: every size is the
   * "unknown" -1 and every asset link carries a URL; outside debug mode no
   * asset link carries a URL and a size is unknown only for a bundle
   * without assets. Each entry describes a bundle of the collection of
   * the entry's own kind.
   */
  lemma {:induction false} HudDataDebugMode(bundles: seq<Bundle>, settings: Settings, urlGenerator: UrlGenerator, k: nat)
    requires k < |AllData(HudDataOf(bundles, settings, urlGenerator))|
    ensures var entry := AllData(HudDataOf(bundles, settings, urlGenerator))[k];
            exists b :: b in bundles && b.path == entry.path && b.kind in {Script, Stylesheet, HtmlTemplate} &&
                        (entry.ScriptData? <==> b.kind == Script) &&
                        (entry.StylesheetData? <==> b.kind == Stylesheet) &&
                        entry.url == BundleUrl(b, urlGenerator) &&
                        entry.references == b.references &&
                        entry.size == BundleSize(b, settings.isDebuggingEnabled) &&
                        entry.assets == AssetLinks(b, LinkUrlGenerator(settings, urlGenerator)) &&
                        |entry.assets| == |b.assets|
    ensures var entry := AllData(HudDataOf(bundles, settings, urlGenerator))[k];
            (settings.isDebuggingEnabled ==> entry.size == -1) &&
            forall j :: 0 <= j < |entry.assets| ==> (entry.assets[j].url.Some? <==> settings.isDebuggingEnabled)
  {
  }

  // ---------------------------------------------------------------------
  // The handler
  // ---------------------------------------------------------------------

  class DiagnosticRequestHandler {
    const bundles: BundleCollection
    const settings: Settings
    const urlGenerator: UrlGenerator
    const bundleCacheRebuilder: CacheRebuilder

    constructor (bundles: BundleCollection, settings: Settings, urlGenerator: UrlGenerator, bundleCacheRebuilder: CacheRebuilder)
      ensures this.bundles == bundles && this.settings == settings
      ensures this.urlGenerator == urlGenerator && this.bundleCacheRebuilder == bundleCacheRebuilder
    {
      this.bundles := bundles;
      this.settings := settings;
      this.urlGenerator := urlGenerator;
      this.bundleCacheRebuilder := bundleCacheRebuilder;
    }

    /**
     * ProcessRequest: every request is admitted and answered 200. A POST
     * (method compared ignoring case) goes to ProcessPost; anything else
     * renders the page from the snapshot `data`, which is taken with the
     * read lock held and released again.
     */
    method ProcessRequest(httpMethod: string, form: map<string, string>) returns (r: Response, data: Option<HudData>)
      modifies bundleCacheRebuilder, bundles`readers
      ensures r.status == OK
      ensures r.body == if IsPost(httpMethod) then NoBody else HudPage
      ensures data == if IsPost(httpMethod) then None else Some(HudDataOf(bundles.bundles, settings, urlGenerator))
      ensures bundleCacheRebuilder.rebuilds ==
                old(bundleCacheRebuilder.rebuilds) + if IsPost(httpMethod) && RequestsRebuild(form) then 1 else 0
      ensures bundles.readers == old(bundles.readers)
    {
      if !CanAccessHud() {
        return Response(NotFound, None, [], NoBody), None;
      }
      if IsPost(httpMethod) {
        r := ProcessPost(form);
        return r, None;
      }
      var snapshot := PageData();
      return Response(OK, None, [], HudPage), Some(snapshot);
    }

    /** ProcessPost: RebuildCache runs once when asked for, and the answer is 200. */
    method ProcessPost(form: map<string, string>) returns (r: Response)
      modifies bundleCacheRebuilder
      ensures r == Response(OK, None, [], NoBody)
      ensures bundleCacheRebuilder.rebuilds == old(bundleCacheRebuilder.rebuilds) + if RequestsRebuild(form) then 1 else 0
    {
      if RequestsRebuild(form) {
        bundleCacheRebuilder.RebuildCache();
      }
      return Response(OK, None, [], NoBody);
    }

    /** PageData: the snapshot is taken between acquiring and releasing the read lock. */
    method PageData() returns (data: HudData)
      modifies bundles`readers
      ensures data == HudDataOf(bundles.bundles, settings, urlGenerator)
      ensures bundles.readers == old(bundles.readers)
    {
      bundles.GetReadLock();
      var all := bundles.All();
      data := HudDataOf(all, settings, urlGenerator);
      bundles.ReleaseReadLock();
    }

    /**
     * AssetPaths: a visitor (with a URL generator only in debug mode) walks
     * the bundle and then its assets in order, leaving one link per asset.
     */
    method AssetPaths(bundle: Bundle) returns (links: seq<AssetLink>)
      ensures links == AssetLinks(bundle, LinkUrlGenerator(settings, urlGenerator))
      ensures |links| == |bundle.assets|
      ensures forall i :: 0 <= i < |links| ==>
                links[i].path == StripBundlePath(bundle.path, bundle.assets[i].path) &&
                (links[i].url.Some? <==> settings.isDebuggingEnabled)
    {
      var generateUrls := settings.isDebuggingEnabled;
      var visitor := new AssetLinkCreator(if generateUrls then Some(urlGenerator) else None);
      // bundle.Accept(visitor): the bundle first, then each asset in order
      visitor.VisitBundle(bundle);
      var i := 0;
      while i < |bundle.assets|
        invariant 0 <= i <= |bundle.assets|
        invariant visitor.bundlePath == Some(bundle.path)
        invariant visitor.assetLinks == AssetLinks(bundle, LinkUrlGenerator(settings, urlGenerator))[..i]
      {
        visitor.VisitAsset(bundle.assets[i]);
        i := i + 1;
      }
      links := visitor.assetLinks;
    }
  }
}
