/** Normalisation of a marketplace extension record into a marketplace
    extension: the unique id, the current version's fields and five
    first-match-or-None extractors over the version's `files` and `properties`. */
module Marketplace {
  import opened Wrappers
  import opened Json
  import opened Lookup
  import opened Extensions

  const ManifestAssetType: string := "Microsoft.VisualStudio.Code.Manifest"
  const VsixPackageAssetType: string := "Microsoft.VisualStudio.Services.VSIXPackage"
  const CodeEngineKey: string := "Microsoft.VisualStudio.Code.Engine"
  const ExtensionPackKey: string := "Microsoft.VisualStudio.Code.ExtensionPack"
  const ExtensionDependenciesKey: string := "Microsoft.VisualStudio.Code.ExtensionDependencies"

  /** `r` is the `source` of the first file whose `assetType` is `t`, and
      `None` exactly when no file has that type. */
  ghost predicate IsFirstSource(files: seq<FileEntry>, t: string, r: Option<string>) {
    && (r.None? <==> forall i :: 0 <= i < |files| ==> files[i].assetType != t)
    && (r.Some? ==> exists i :: IsFirstMatch(files, AssetType, t, i) && r.value == files[i].source)
  }

  /** `r` is the `value` of the first property whose `key` is `k`, and `None`
      exactly when no property has that key. */
  ghost predicate IsFirstValue(properties: seq<PropertyEntry>, k: string, r: Option<string>) {
    && (r.None? <==> forall i :: 0 <= i < |properties| ==> properties[i].key != k)
    && (r.Some? ==> exists i :: IsFirstMatch(properties, PropertyKey, k, i) && r.value == properties[i].value)
  }

  /** The `source` of the first file of asset type `t`. */
  function FileSource(files: seq<FileEntry>, t: string): (r: Option<string>)
    ensures IsFirstSource(files, t, r)
  {
    match FirstMatch(files, AssetType, t)
    case None =>
      assert forall i :: 0 <= i < |files| ==> AssetType(files[i]) != t;
      None
    case Some(f) => Some(f.source)
  }

  /** The `value` of the first property with key `k`. */
  function PropertyValue(properties: seq<PropertyEntry>, k: string): (r: Option<string>)
    ensures IsFirstValue(properties, k, r)
  {
    match FirstMatch(properties, PropertyKey, k)
    case None =>
      assert forall i :: 0 <= i < |properties| ==> PropertyKey(properties[i]) != k;
      None
    case Some(p) => Some(p.value)
  }

  function ManifestUrl(files: seq<FileEntry>): (r: Option<string>)
    ensures IsFirstSource(files, "Microsoft.VisualStudio.Code.Manifest", r)
  {
    FileSource(files, ManifestAssetType)
  }

  function VsixPackageUri(files: seq<FileEntry>): (r: Option<string>)
    ensures IsFirstSource(files, "Microsoft.VisualStudio.Services.VSIXPackage", r)
  {
    FileSource(files, VsixPackageAssetType)
  }

  function CodeEngine(properties: seq<PropertyEntry>): (r: Option<string>)
    ensures IsFirstValue(properties, "Microsoft.VisualStudio.Code.Engine", r)
  {
    PropertyValue(properties, CodeEngineKey)
  }

  function ExtensionPack(properties: seq<PropertyEntry>): (r: Option<string>)
    ensures IsFirstValue(properties, "Microsoft.VisualStudio.Code.ExtensionPack", r)
  {
    PropertyValue(properties, ExtensionPackKey)
  }

  function ExtensionDependencies(properties: seq<PropertyEntry>): (r: Option<string>)
    ensures IsFirstValue(properties, "Microsoft.VisualStudio.Code.ExtensionDependencies", r)
  {
    PropertyValue(properties, ExtensionDependenciesKey)
  }

  /** The unique id `publisher.name`. */
  function ComposeUniqueId(publisherName: string, extensionName: string): string {
    publisherName + "." + extensionName
  }

  /** The text before the first `.` (all of it when there is none). */
  function BeforeDot(s: string): (r: string)
    ensures |r| <= |s| && r == s[..|r|] && '.' !in r
    ensures |r| == |s| || s[|r|] == '.'
  {
    if |s| == 0 || s[0] == '.' then "" else [s[0]] + BeforeDot(s[1..])
  }

  /** Splits a unique id at its first `.` into publisher and extension name. */
  function SplitUniqueId(uniqueId: string): Option<(string, string)> {
    var publisher := BeforeDot(uniqueId);
    if |publisher| < |uniqueId| then Some((publisher, uniqueId[|publisher| + 1..])) else None
  }

  lemma {:induction false} BeforeDotOfComposed(publisherName: string, rest: string)
    requires '.' !in publisherName
    ensures BeforeDot(publisherName + "." + rest) == publisherName
    decreases |publisherName|
  {
    if |publisherName| > 0 {
      var s := publisherName + "." + rest;
      assert s[0] == publisherName[0];
      assert s[1..] == publisherName[1..] + "." + rest;
      BeforeDotOfComposed(publisherName[1..], rest);
    }
  }

  /** For a publisher name without `.`, the unique id splits back into the
      publisher and extension names it was composed of. */
  lemma UniqueIdRoundTrip(publisherName: string, extensionName: string)
    requires '.' !in publisherName
    ensures SplitUniqueId(ComposeUniqueId(publisherName, extensionName)) == Some((publisherName, extensionName))
  {
    var id := ComposeUniqueId(publisherName, extensionName);
    BeforeDotOfComposed(publisherName, extensionName);
    assert id[|publisherName| + 1..] == extensionName;
  }

  /** Normalises a marketplace record; only `versions[0]` is read, and an empty
      version list raises. */
  function NewMarketplaceExtension(p: MarketplaceRecord): (r: Result<Extension, ResolveError>)
    ensures r.Err? <==> |p.versions| == 0
    ensures r.Err? ==> r.error == NoVersions
    ensures r.Ok? ==>
      var current := p.versions[0];
      && r.value.MarketplaceExtension?
      && r.value.Source().Code() == 1
      && r.value.uniqueId == p.publisher.publisherName + "." + p.extensionName
      && r.value.downloadUrl == r.value.uri.vsixPackage
      && r.value.version == current.version
      && r.value.uri.asset == current.assetUri
      && r.value.uri.assetFallback == current.fallbackAssetUri
      && IsFirstSource(current.files, "Microsoft.VisualStudio.Code.Manifest", r.value.uri.manifest)
      && IsFirstSource(current.files, "Microsoft.VisualStudio.Services.VSIXPackage", r.value.downloadUrl)
      && IsFirstValue(current.properties, "Microsoft.VisualStudio.Code.Engine", r.value.codeEngine)
      && IsFirstValue(current.properties, "Microsoft.VisualStudio.Code.ExtensionPack", r.value.extensionPack)
      && IsFirstValue(current.properties, "Microsoft.VisualStudio.Code.ExtensionDependencies",
                      r.value.extensionDependencies)
      && r.value.extensionId == p.extensionId
      && r.value.extensionName == p.extensionName
      && r.value.displayName == p.displayName
      && r.value.publisherName == p.publisher.publisherName
      && r.value.description == p.shortDescription
      && r.value.stats == p.statistics
  {
    if |p.versions| == 0 then Err(NoVersions)
    else
      var current := p.versions[0];
      var uri := Uris(current.assetUri, current.fallbackAssetUri,
                      ManifestUrl(current.files), VsixPackageUri(current.files));
      Ok(MarketplaceExtension(
        ComposeUniqueId(p.publisher.publisherName, p.extensionName),
        uri.vsixPackage,
        p.extensionId,
        p.extensionName,
        p.displayName,
        p.publisher.publisherName,
        p.shortDescription,
        p.statistics,
        uri,
        current.version,
        CodeEngine(current.properties),
        ExtensionPack(current.properties),
        ExtensionDependencies(current.properties)))
  }

  /** Versions after the first are ignored. */
  lemma OnlyCurrentVersionRead(p: MarketplaceRecord, older: seq<VersionRecord>)
    requires |p.versions| > 0
    ensures NewMarketplaceExtension(p) == NewMarketplaceExtension(p.(versions := [p.versions[0]] + older))
  {
  }
}
