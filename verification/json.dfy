/** The already-parsed JSON documents the resolution code reads: GitHub release
    responses and marketplace extension records. Only the fields the code
    touches are kept. */
module Json {
  import opened Wrappers

  /** An entry of a GitHub release's `assets` array. */
  datatype Asset = Asset(name: string, browserDownloadUrl: string)

  /** The body of a GitHub releases API response: a release object (whose
      `assets` key may be missing, as in an error document) or an array of such
      values (the list endpoint). */
  datatype ReleaseJson =
    | ReleaseObject(assets: Option<seq<Asset>>)
    | ReleaseArray(items: seq<ReleaseJson>)

  /** An entry of a marketplace version's `files` list. */
  datatype FileEntry = FileEntry(assetType: string, source: string)

  /** An entry of a marketplace version's `properties` list. */
  datatype PropertyEntry = PropertyEntry(key: string, value: string)

  /** An entry of a marketplace record's `versions` list. */
  datatype VersionRecord = VersionRecord(
    version: string,
    files: seq<FileEntry>,
    properties: seq<PropertyEntry>,
    assetUri: string,
    fallbackAssetUri: string)

  /** An entry of a marketplace record's `statistics` list. */
  datatype Statistic = Statistic(statisticName: string, value: real)

  /** The `publisher` object of a marketplace record. */
  datatype Publisher = Publisher(publisherName: string)

  /** A marketplace extension record, as returned by the marketplace query. */
  datatype MarketplaceRecord = MarketplaceRecord(
    extensionId: string,
    extensionName: string,
    displayName: string,
    publisher: Publisher,
    shortDescription: string,
    statistics: seq<Statistic>,
    versions: seq<VersionRecord>)

  /** Projections used as lookup keys. */
  function AssetName(a: Asset): string { a.name }
  function AssetType(f: FileEntry): string { f.assetType }
  function PropertyKey(p: PropertyEntry): string { p.key }
}
