/** The extension entity: the registry of extensions that are not fetched from
    the marketplace, the source-type tags, the two extension variants, and the
    download step they share. */
module Extensions {
  import opened Wrappers
  import opened Json
  import opened Machine
  import opened Tunnel

  /** Where a non-marketplace extension is published on GitHub; the asset name
      depends on the platform. */
  datatype GithubSource = GithubSource(owner: string, repo: string, assetName: PerPlatform<string>)

  const CppToolsId: string := "ms-vscode.cpptools"

  /** The static registry of extensions fetched from GitHub releases instead of
      the marketplace. */
  const NonMarketplace: map<string, GithubSource> := map[
    CppToolsId := GithubSource(
      "Microsoft",
      "vscode-cpptools",
      PerPlatform(
        "cpptools-win32.vsix",
        "cpptools-osx.vsix",
        "cpptools-linux.vsix",
        "cpptools-linux32.vsix"))
  ]

  /** The source-type tag of an extension, with its numeric constant. */
  datatype SourceType = UndefinedSource | MarketplaceSource | GitHubSource {
    function Code(): nat {
      match this
      case UndefinedSource => 0
      case MarketplaceSource => 1
      case GitHubSource => 2
    }
  }

  /** Why a resolution raised instead of producing an extension. */
  datatype ResolveError =
    | NotFound(uniqueId: string)          // the marketplace has no record for the id
    | NoVersions                          // `versions[0]` of an empty list
    | EmptyReleaseList                    // `response[0]` of an empty list
    | MalformedRelease                    // a release response of the wrong shape
    | InvalidJson                         // `json.loads` rejected the response
    | AssetNotFound(assetName: string)    // no release asset carries the name

  /** The download URLs a marketplace version advertises. */
  datatype Uris = Uris(
    asset: string,
    assetFallback: string,
    manifest: Option<string>,
    vsixPackage: Option<string>)

  /** An extension, tagged by where it is downloaded from. `downloadUrl` is
      `None` when the GitHub query failed or the marketplace version has no
      VSIX package. */
  datatype Extension =
    | GithubExtension(
        uniqueId: string,
        downloadUrl: Option<string>,
        owner: string,
        repo: string,
        assetName: string,
        release: string,
        prerelease: bool)
    | MarketplaceExtension(
        uniqueId: string,
        downloadUrl: Option<string>,
        extensionId: string,
        extensionName: string,
        displayName: string,
        publisherName: string,
        description: string,
        stats: seq<Statistic>,
        uri: Uris,
        version: string,
        codeEngine: Option<string>,
        extensionPack: Option<string>,
        extensionDependencies: Option<string>)
  {
    /** The source-type tag set by each variant's constructor. */
    function Source(): SourceType {
      if GithubExtension? then GitHubSource else MarketplaceSource
    }

    /** Set from the unique id alone: false exactly for ids in the registry. */
    predicate DownloadFromMarketplace() {
      uniqueId !in NonMarketplace
    }

    /** Only the marketplace variant carries a version. */
    function Version(): Option<string> {
      if MarketplaceExtension? then Some(version) else None
    }
  }

  /** The archive name without extension: the unique id, followed by
      `-version` when the extension has a version. */
  function ArchiveName(e: Extension): string {
    match e.Version()
    case None => e.uniqueId
    case Some(v) => e.uniqueId + "-" + v
  }

  /** The file the download writes. */
  function DownloadPath(directory: string, e: Extension): string {
    directory + "/" + ArchiveName(e) + ".vsix"
  }

  /** The fetch command the download issues through the tunnel. */
  function DownloadRequest(e: Extension, directory: string): Command {
    Fetch(e.downloadUrl, Some(DownloadPath(directory, e)))
  }

  /** Runs the download command and logs its stdout on success or its stderr
      on failure; success is decided by the exit status alone. `run` is the
      tunnel the extension was resolved through (`env.run`): an extension
      value does not keep its tunnel. */
  function Download(e: Extension, directory: string, run: Command -> Response): (log: LogLine)
    ensures log.Info? <==> run(Fetch(e.downloadUrl, Some(DownloadPath(directory, e)))).exited == 0
    ensures log.Info? ==> log.text == run(Fetch(e.downloadUrl, Some(DownloadPath(directory, e)))).stdout
    ensures log.Error? ==> log.text == run(Fetch(e.downloadUrl, Some(DownloadPath(directory, e)))).stderr
  {
    var response := run(DownloadRequest(e, directory));
    if response.exited == 0 then Info(response.stdout) else Error(response.stderr)
  }

  /** The archive name a download path was composed from, if the path has the
      shape `directory/NAME.vsix`. */
  function ArchiveNameIn(directory: string, path: string): Option<string> {
    var head := directory + "/";
    if |path| >= |head| + 5 && path[..|head|] == head && path[|path| - 5..] == ".vsix"
    then Some(path[|head|..|path| - 5])
    else None
  }

  /** The download path is `directory/unique_id.vsix` for the GitHub variant
      and `directory/unique_id-version.vsix` for the marketplace variant. */
  lemma DownloadPathShape(directory: string, e: Extension)
    ensures e.GithubExtension? ==> DownloadPath(directory, e) == directory + "/" + e.uniqueId + ".vsix"
    ensures e.MarketplaceExtension? ==>
      DownloadPath(directory, e) == directory + "/" + e.uniqueId + "-" + e.version + ".vsix"
  {
  }

  /** The archive name can be read back from the download path. */
  lemma ArchiveNameRoundTrip(directory: string, e: Extension)
    ensures ArchiveNameIn(directory, DownloadPath(directory, e)) == Some(ArchiveName(e))
  {
  }

  /** Two extensions downloaded into the same directory collide exactly when
      their archive names agree. */
  lemma DownloadPathInjective(directory: string, e1: Extension, e2: Extension)
    ensures DownloadPath(directory, e1) == DownloadPath(directory, e2) <==> ArchiveName(e1) == ArchiveName(e2)
  {
    ArchiveNameRoundTrip(directory, e1);
    ArchiveNameRoundTrip(directory, e2);
  }

  /** A failed download yields an error log line carrying the tunnel's stderr. */
  lemma FailedDownloadLogsError(e: Extension, directory: string, run: Command -> Response)
    requires run(DownloadRequest(e, directory)) == Response(1, "", "not found")
    ensures Download(e, directory, run) == Error("not found")
  {
  }
}
