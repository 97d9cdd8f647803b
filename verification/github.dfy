/** Resolution of a GitHub-hosted extension's download URL: either a query of
    the releases API through the tunnel (release `latest`) or a URL composed
    from the release tag without any query. */
module Github {
  import opened Wrappers
  import opened Json
  import opened Lookup
  import opened Tunnel
  import opened Extensions

  const GithubApiRoot: string := "https://api.github.com"
  const GithubRoot: string := "https://github.com"
  const Latest: string := "latest"

  /** The releases API URL queried for `release`: the single-release endpoint
      when prereleases are excluded, the one-item list endpoint otherwise. */
  function ReleaseQueryUrl(owner: string, repo: string, release: string, prerelease: bool): string {
    var endpoint :=
      if !prerelease then "/repos/" + owner + "/" + repo + "/releases/" + release + "?per_page=1"
      else "/repos/" + owner + "/" + repo + "/releases?per_page=1";
    GithubApiRoot + endpoint
  }

  /** The releases query command sent through the tunnel. */
  function ReleaseQuery(owner: string, repo: string, release: string, prerelease: bool): Command {
    Fetch(Some(ReleaseQueryUrl(owner, repo, release, prerelease)), None)
  }

  /** The asset list of the release the response designates: the response
      object itself, or element 0 of the list when prereleases are allowed. */
  function ReleaseAssets(body: ReleaseJson, prerelease: bool): (r: Result<seq<Asset>, ResolveError>)
    ensures !prerelease ==> (r.Ok? <==> body.ReleaseObject? && body.assets.Some?)
    ensures !prerelease && r.Ok? ==> r.value == body.assets.value
    ensures prerelease ==>
      (r.Ok? <==> body.ReleaseArray? && |body.items| > 0
                  && body.items[0].ReleaseObject? && body.items[0].assets.Some?)
    ensures prerelease && r.Ok? ==> r.value == body.items[0].assets.value
    ensures prerelease && body == ReleaseArray([]) ==> r == Err(EmptyReleaseList)
  {
    var release :-
      if !prerelease then Ok(body)
      else if !body.ReleaseArray? then Err(MalformedRelease)
      else if |body.items| == 0 then Err(EmptyReleaseList)
      else Ok(body.items[0]);
    if release.ReleaseObject? && release.assets.Some? then Ok(release.assets.value)
    else Err(MalformedRelease)
  }

  /** The `browser_download_url` of the first asset named `assetName`; a
      missing asset is an error, never some other asset's URL. */
  function AssetDownloadUrl(assets: seq<Asset>, assetName: string): (r: Result<string, ResolveError>)
    ensures r.Ok? <==> exists i :: 0 <= i < |assets| && assets[i].name == assetName
    ensures r.Ok? ==> exists i :: IsFirstMatch(assets, AssetName, assetName, i)
                                  && r.value == assets[i].browserDownloadUrl
    ensures r.Err? ==> r.error == AssetNotFound(assetName)
  {
    match FirstMatch(assets, AssetName, assetName)
    case None =>
      assert forall i :: 0 <= i < |assets| ==> AssetName(assets[i]) != assetName;
      Err(AssetNotFound(assetName))
    case Some(a) => Ok(a.browserDownloadUrl)
  }

  /** Resolution through the releases API. A failed query is logged by the
      source and yields no URL rather than an error. */
  function FromLatest(owner: string, repo: string, assetName: string, release: string,
                      prerelease: bool, env: Collaborators): (r: Result<Option<string>, ResolveError>)
    ensures r == Ok(None) <==> env.run(ReleaseQuery(owner, repo, release, prerelease)).exited != 0
    ensures r.Ok? && r.value.Some? ==>
      var response := env.run(ReleaseQuery(owner, repo, release, prerelease));
      && response.exited == 0
      && env.loads(response.stdout).Some?
      && ReleaseAssets(env.loads(response.stdout).value, prerelease).Ok?
      && AssetDownloadUrl(ReleaseAssets(env.loads(response.stdout).value, prerelease).value, assetName)
         == Ok(r.value.value)
  {
    var response := env.run(ReleaseQuery(owner, repo, release, prerelease));
    if response.exited == 0 then
      match env.loads(response.stdout)
      case None => Err(InvalidJson)
      case Some(body) =>
        var assets :- ReleaseAssets(body, prerelease);
        var url :- AssetDownloadUrl(assets, assetName);
        Ok(Some(url))
    else
      Ok(None)
  }

  /** The direct download URL composed from the release tag. */
  function FromArgs(owner: string, repo: string, release: string, assetName: string): string {
    GithubRoot + "/" + owner + "/" + repo + "/releases/download/" + release + "/" + assetName
  }

  /** The download URL of a GitHub extension, chosen by the release spec. */
  function ResolveDownloadUrl(owner: string, repo: string, assetName: string, release: string,
                              prerelease: bool, env: Collaborators): Result<Option<string>, ResolveError>
  {
    if release == Latest then FromLatest(owner, repo, assetName, release, prerelease, env)
    else Ok(Some(FromArgs(owner, repo, release, assetName)))
  }

  /** Construction of a GitHub extension; raises when URL resolution raises. */
  function NewGithubExtension(owner: string, repo: string, assetName: string, release: string,
                              prerelease: bool, uniqueId: string, env: Collaborators)
    : (r: Result<Extension, ResolveError>)
    ensures r.Ok? <==> ResolveDownloadUrl(owner, repo, assetName, release, prerelease, env).Ok?
    ensures r.Ok? ==>
      && r.value.GithubExtension?
      && r.value.Source().Code() == 2
      && r.value.uniqueId == uniqueId
      && r.value.owner == owner && r.value.repo == repo && r.value.assetName == assetName
      && r.value.release == release && r.value.prerelease == prerelease
      && r.value.downloadUrl == ResolveDownloadUrl(owner, repo, assetName, release, prerelease, env).value
  {
    match ResolveDownloadUrl(owner, repo, assetName, release, prerelease, env)
    case Err(e) => Err(e)
    case Ok(url) => Ok(GithubExtension(uniqueId, url, owner, repo, assetName, release, prerelease))
  }

  /** An explicit release tag gives the composed releases/download URL, and the
      tunnel is never consulted: any two collaborator sets agree. */
  lemma ExplicitTagUrl(owner: string, repo: string, assetName: string, release: string,
                       prerelease: bool, env1: Collaborators, env2: Collaborators)
    requires release != "latest"
    ensures ResolveDownloadUrl(owner, repo, assetName, release, prerelease, env1)
         == ResolveDownloadUrl(owner, repo, assetName, release, prerelease, env2)
         == Ok(Some("https://github.com/" + owner + "/" + repo + "/releases/download/"
                    + release + "/" + assetName))
  {
    assert GithubRoot + "/" == "https://github.com/";
  }

  /** The query URLs used for `latest`. */
  lemma LatestQueryEndpoint(owner: string, repo: string, prerelease: bool)
    ensures !prerelease ==>
      ReleaseQueryUrl(owner, repo, "latest", prerelease)
        == "https://api.github.com/repos/" + owner + "/" + repo + "/releases/latest?per_page=1"
    ensures prerelease ==>
      ReleaseQueryUrl(owner, repo, "latest", prerelease)
        == "https://api.github.com/repos/" + owner + "/" + repo + "/releases?per_page=1"
  {
  }

  /** A failed releases query degrades to a missing URL instead of an error. */
  lemma FailedQueryGivesNoUrl(owner: string, repo: string, assetName: string, prerelease: bool,
                              env: Collaborators)
    requires env.run(ReleaseQuery(owner, repo, Latest, prerelease)).exited != 0
    ensures ResolveDownloadUrl(owner, repo, assetName, Latest, prerelease, env) == Ok(None)
  {
  }

  /** A URL resolved for `latest` is the first asset named `assetName` in the
      release the query designates: the response object itself without
      prereleases, element 0 of the list with them. */
  lemma LatestUrlIsFirstNamedAsset(owner: string, repo: string, assetName: string, prerelease: bool,
                                   env: Collaborators, url: string)
    requires ResolveDownloadUrl(owner, repo, assetName, Latest, prerelease, env) == Ok(Some(url))
    ensures env.run(ReleaseQuery(owner, repo, Latest, prerelease)).exited == 0
    ensures exists body: ReleaseJson, assets: seq<Asset> ::
              && env.loads(env.run(ReleaseQuery(owner, repo, Latest, prerelease)).stdout) == Some(body)
              && ReleaseAssets(body, prerelease) == Ok(assets)
              && (exists i :: IsFirstMatch(assets, AssetName, assetName, i) && url == assets[i].browserDownloadUrl)
  {
  }

  /** A missing URL for `latest` means the releases query failed: a
      successful query never degrades to `None`. */
  lemma NoUrlOnlyOnFailedQuery(owner: string, repo: string, assetName: string, prerelease: bool,
                               env: Collaborators)
    requires ResolveDownloadUrl(owner, repo, assetName, Latest, prerelease, env) == Ok(None)
    ensures env.run(ReleaseQuery(owner, repo, Latest, prerelease)).exited != 0
  {
  }

  /** With a successful query of a well-shaped response, resolution succeeds
      exactly when the designated release has an asset named `assetName`, and
      then yields the first such asset's URL. */
  lemma LatestResolvesIffAssetPresent(owner: string, repo: string, assetName: string, prerelease: bool,
                                      env: Collaborators, assets: seq<Asset>)
    requires env.run(ReleaseQuery(owner, repo, Latest, prerelease)).exited == 0
    requires !prerelease ==> env.loads(env.run(ReleaseQuery(owner, repo, Latest, prerelease)).stdout)
                             == Some(ReleaseObject(Some(assets)))
    requires prerelease ==> exists rest :: env.loads(env.run(ReleaseQuery(owner, repo, Latest, prerelease)).stdout)
                             == Some(ReleaseArray([ReleaseObject(Some(assets))] + rest))
    ensures ResolveDownloadUrl(owner, repo, assetName, Latest, prerelease, env).Ok?
            <==> exists i :: 0 <= i < |assets| && assets[i].name == assetName
    ensures forall i :: IsFirstMatch(assets, AssetName, assetName, i) ==>
              ResolveDownloadUrl(owner, repo, assetName, Latest, prerelease, env)
              == Ok(Some(assets[i].browserDownloadUrl))
    ensures ResolveDownloadUrl(owner, repo, assetName, Latest, prerelease, env).Err?
            ==> ResolveDownloadUrl(owner, repo, assetName, Latest, prerelease, env).error == AssetNotFound(assetName)
  {
    forall i | IsFirstMatch(assets, AssetName, assetName, i)
      ensures ResolveDownloadUrl(owner, repo, assetName, Latest, prerelease, env)
              == Ok(Some(assets[i].browserDownloadUrl))
    {
      FirstMatchAt(assets, AssetName, assetName, i);
    }
  }
}
