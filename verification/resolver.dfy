/** Source selection: `get_extension` builds a GitHub extension for ids in the
    non-marketplace registry and a marketplace extension for all others. */
module Resolver {
  import opened Wrappers
  import opened Machine
  import opened Tunnel
  import opened Extensions
  import Github
  import Marketplace

  /** Resolves `uniqueId` on the given platform. The registry's asset name is
      the one for `platform`; a marketplace id the marketplace does not know
      raises `NotFound`. */
  function GetExtension(uniqueId: string, release: string, platform: Platform, env: Collaborators)
    : (r: Result<Extension, ResolveError>)
    ensures r.Ok? ==> (r.value.GithubExtension? <==> uniqueId in NonMarketplace)
    ensures r.Ok? ==> (r.value.Source().Code() == 2 <==> uniqueId in NonMarketplace)
    ensures r.Ok? ==> (r.value.Source().Code() == 1 <==> uniqueId !in NonMarketplace)
    ensures r.Ok? && r.value.GithubExtension? ==>
      && r.value.uniqueId == uniqueId
      && !r.value.DownloadFromMarketplace()
      && r.value.owner == NonMarketplace[uniqueId].owner
      && r.value.repo == NonMarketplace[uniqueId].repo
      && r.value.assetName == PlatformQuery(platform, NonMarketplace[uniqueId].assetName)
      && r.value.release == release
      && !r.value.prerelease
    ensures uniqueId !in NonMarketplace && env.marketplace(uniqueId).None? ==> r == Err(NotFound(uniqueId))
    ensures uniqueId !in NonMarketplace && env.marketplace(uniqueId).Some? ==>
      r == Marketplace.NewMarketplaceExtension(env.marketplace(uniqueId).value)
    ensures uniqueId in NonMarketplace ==>
      var url := Github.ResolveDownloadUrl(NonMarketplace[uniqueId].owner, NonMarketplace[uniqueId].repo,
                                           PlatformQuery(platform, NonMarketplace[uniqueId].assetName),
                                           release, false, env);
      && (r.Ok? <==> url.Ok?)
      && (r.Ok? ==> r.value.downloadUrl == url.value)
      && (r.Err? ==> r.error == url.error)
    ensures uniqueId in NonMarketplace ==> !r.Err? || r.error != NotFound(uniqueId)
  {
    if uniqueId !in NonMarketplace then
      match env.marketplace(uniqueId)
      case None => Err(NotFound(uniqueId))
      case Some(record) => Marketplace.NewMarketplaceExtension(record)
    else
      var e := NonMarketplace[uniqueId];
      Github.NewGithubExtension(e.owner, e.repo, PlatformQuery(platform, e.assetName),
                                release, false, uniqueId, env)
  }

  /** `download_from_marketplace` agrees with the source chosen whenever the
      marketplace returns the record of the id that was asked for. */
  lemma DownloadFlagMatchesSource(uniqueId: string, release: string, platform: Platform, env: Collaborators)
    requires GetExtension(uniqueId, release, platform, env).Ok?
    requires GetExtension(uniqueId, release, platform, env).value.uniqueId == uniqueId
    ensures GetExtension(uniqueId, release, platform, env).value.DownloadFromMarketplace()
            <==> GetExtension(uniqueId, release, platform, env).value.MarketplaceExtension?
  {
  }

  /** `ms-vscode.cpptools` on 64-bit Linux is the GitHub extension published by
      Microsoft in vscode-cpptools, with the Linux asset; with an explicit
      release tag it resolves without a query. */
  lemma CppToolsOnLinux64(release: string, env: Collaborators)
    requires release != "latest"
    ensures GetExtension("ms-vscode.cpptools", release, Linux64, env)
         == Ok(GithubExtension(
              "ms-vscode.cpptools",
              Some("https://github.com/Microsoft/vscode-cpptools/releases/download/" + release
                   + "/cpptools-linux.vsix"),
              "Microsoft", "vscode-cpptools", "cpptools-linux.vsix", release, false))
  {
    var url := "https://github.com/Microsoft/vscode-cpptools/releases/download/" + release
                + "/cpptools-linux.vsix";
    CppToolsExplicitUrl(release, env);
    var e := NonMarketplace["ms-vscode.cpptools"];
    assert e.owner == "Microsoft" && e.repo == "vscode-cpptools";
    assert PlatformQuery(Linux64, e.assetName) == "cpptools-linux.vsix";
    assert Github.NewGithubExtension("Microsoft", "vscode-cpptools", "cpptools-linux.vsix",
                                     release, false, "ms-vscode.cpptools", env)
        == Ok(GithubExtension("ms-vscode.cpptools", Some(url),
                              "Microsoft", "vscode-cpptools", "cpptools-linux.vsix", release, false));
  }

  /** The composed cpptools release URL, one join at a time. */
  lemma CppToolsExplicitUrl(release: string, env: Collaborators)
    requires release != "latest"
    ensures Github.ResolveDownloadUrl("Microsoft", "vscode-cpptools", "cpptools-linux.vsix", release, false, env)
         == Ok(Some("https://github.com/Microsoft/vscode-cpptools/releases/download/" + release
                    + "/cpptools-linux.vsix"))
  {
    var head := Github.GithubRoot + "/" + "Microsoft" + "/" + "vscode-cpptools" + "/releases/download/";
    CppToolsReleasesRoot();
    var tail := "/" + "cpptools-linux.vsix";
    assert tail == "/cpptools-linux.vsix";
    assert Github.FromArgs("Microsoft", "vscode-cpptools", release, "cpptools-linux.vsix")
        == head + release + tail;
  }

  /** The releases/download prefix of the cpptools repository. */
  lemma CppToolsReleasesRoot()
    ensures Github.GithubRoot + "/" + "Microsoft" + "/" + "vscode-cpptools" + "/releases/download/"
         == "https://github.com/Microsoft/vscode-cpptools/releases/download/"
  {
    var root := Github.GithubRoot + "/";
    assert root == "https://github.com/";
    root := root + "Microsoft";
    assert root == "https://github.com/Microsoft";
    root := root + "/";
    assert root == "https://github.com/Microsoft/";
    root := root + "vscode-cpptools";
    assert root == "https://github.com/Microsoft/vscode-cpptools";
    root := root + "/releases/download/";
    assert root == "https://github.com/Microsoft/vscode-cpptools/releases/download/";
  }
}
