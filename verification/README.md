# pyvsc extension-source resolution, modelled in Dafny

pyvsc installs code-editor extensions from the VS Code Marketplace or from GitHub
releases, optionally through an SSH tunnel. This project models the part of
`pyvsc/_extension.py` that decides where an extension comes from and what URL
and file it is downloaded to:

- **source selection** (`get_extension`): ids in the static non-marketplace
  registry (`ms-vscode.cpptools`) become GitHub extensions, every other id a
  marketplace extension;
- **GitHub URL resolution**: an explicit release tag gives the composed
  `https://github.com/{owner}/{repo}/releases/download/{release}/{asset}` URL
  with no query; `latest` queries the releases API (the `latest` endpoint, or the
  one-item list endpoint when prereleases are allowed), takes the designated
  release and returns the `browser_download_url` of the first asset with the
  wanted name; a failed query yields no URL;
- **marketplace normalisation**: the unique id `publisher.name`, the fields of
  `versions[0]` and five first-match-or-None extractors over its `files` and
  `properties`;
- **download**: the output path `{dir}/{unique_id}[-{version}].vsix`, with
  success decided by the tunnel's exit status alone.

Modules: `Wrappers` (Option, Result), `Lookup` (first-match lookup, the
behaviour of `dict_from_list_key`), `Machine` (the platform choice of
`platform_query`), `Json` (parsed release and marketplace records), `Tunnel`
(commands, responses, log lines and the external collaborators), `Extensions`
(registry, source types, the extension sum type, download), `Github`,
`Marketplace`, `Resolver` (`get_extension`).

Python exceptions are `Err` values of `ResolveError`: `versions[0]` or
`response[0]` of an empty list, a release response of the wrong shape, text
that is not JSON, and `None['browser_download_url']` when no asset has the
wanted name (`AssetNotFound`). The tunnel, `json.loads` and the marketplace
query are function parameters bundled in `Tunnel.Collaborators`; the platform
is a `Machine.Platform` argument.

`download` returns nothing and only logs the tunnel's stdout (exit status 0)
or stderr (otherwise); an empty prerelease list raises (`EmptyReleaseList`);
`get_extension` never passes `prerelease`, so GitHub extensions it builds
always exclude prereleases.

## Model

| member | source | states |
|---|---|---|
| Lookup.FirstIndex | pyvsc/_extension.py:124 | the index returned holds the wanted value and no earlier record does; `None` means no record holds it |
| Lookup.FirstMatch | pyvsc/_extension.py:124 | the record returned is the first one carrying the value, in list order; `None` exactly when none carries it |
| Lookup.FirstMatchAppend | pyvsc/_extension.py:124 | a match in an earlier part of a list shadows everything after it; the later part is consulted only when the earlier has no match |
| Lookup.FirstMatchAt | pyvsc/_extension.py:124 | whenever an index holds the first match, the lookup returns that record |
| Machine.PlatformQuery | pyvsc/_extension.py:29-34 | each platform gets the value given for its own keyword (`windows`, `darwin`, `linux64`, `linux32`) |
| Machine.PlatformQueryByKeyword | pyvsc/_extension.py:29-34 | for any per-platform function, querying its four values at a platform gives the function's value at that platform |
| Machine.PlatformQueryDistinguishes | pyvsc/_extension.py:29-34 | with four distinct values, different platforms get different values (exactly one branch per platform) |
| Extensions.Download | pyvsc/_extension.py:64-76 | the fetch targets the extension's download URL and its download path; the log line is info with stdout exactly when the exit status is 0, otherwise error with stderr |
| Extensions.DownloadPathShape | pyvsc/_extension.py:64-70 | the path is `dir/unique_id.vsix` for the GitHub variant (no version) and `dir/unique_id-version.vsix` for the marketplace variant |
| Extensions.ArchiveNameRoundTrip | pyvsc/_extension.py:65-70 | the archive name is recovered from the download path by stripping `dir/` and `.vsix` |
| Extensions.DownloadPathInjective | pyvsc/_extension.py:65-70 | two extensions get the same download path in a directory exactly when their archive names agree |
| Extensions.FailedDownloadLogsError | pyvsc/_extension.py:73-76 | a download answered with exit 1 and stderr `not found` logs an error line `not found` |
| Github.ReleaseAssets | pyvsc/_extension.py:157-160 | without prereleases the response object's assets are used; with them, element 0 of the list; an empty list raises `EmptyReleaseList`, any other shape raises |
| Github.AssetDownloadUrl | pyvsc/_extension.py:113-125 | the URL is the `browser_download_url` of the first asset named `asset_name`; it succeeds exactly when some asset has that name and otherwise raises `AssetNotFound` |
| Github.NewGithubExtension | pyvsc/_extension.py:85-110 | the extension is tagged GitHub (2), keeps owner, repo, asset, release, prerelease and unique id, and carries the resolved URL; it raises exactly when resolution raises |
| Github.ExplicitTagUrl | pyvsc/_extension.py:167-176 | for a release other than `latest` the URL is `https://github.com/owner/repo/releases/download/release/asset`, the same for any tunnel |
| Github.LatestQueryEndpoint | pyvsc/_extension.py:136-153 | `latest` queries `.../releases/latest?per_page=1` without prereleases and `.../releases?per_page=1` with them |
| Github.FromLatest | pyvsc/_extension.py:128-164 | no URL is returned exactly when the releases query exits nonzero; a returned URL comes from a successful query, parsed, of the designated release, and is the first asset with the name |
| Github.NoUrlOnlyOnFailedQuery | pyvsc/_extension.py:157-164 | a missing URL for `latest` implies the releases query exited nonzero |
| Github.FailedQueryGivesNoUrl | pyvsc/_extension.py:157-164 | a releases query with nonzero exit status yields no URL rather than an error |
| Github.LatestUrlIsFirstNamedAsset | pyvsc/_extension.py:153-161 | a URL resolved for `latest` comes from a successful query and is the first asset named `asset_name` in the designated release |
| Github.LatestResolvesIffAssetPresent | pyvsc/_extension.py:157-161 | after a successful query of a well-shaped response, resolution succeeds exactly when the release has an asset with the name, then yields `Some` of the first such asset's `browser_download_url`, and otherwise raises `AssetNotFound` |
| Marketplace.FileSource | pyvsc/_extension.py:223-233 | the `source` of the first file with the asset type, `None` exactly when there is none |
| Marketplace.PropertyValue | pyvsc/_extension.py:235-251 | the `value` of the first property with the key, `None` exactly when there is none |
| Marketplace.ManifestUrl | pyvsc/_extension.py:223-227 | first-match source for `Microsoft.VisualStudio.Code.Manifest`, or `None` |
| Marketplace.VsixPackageUri | pyvsc/_extension.py:229-233 | first-match source for `Microsoft.VisualStudio.Services.VSIXPackage`, or `None` |
| Marketplace.CodeEngine | pyvsc/_extension.py:235-239 | first-match value for `Microsoft.VisualStudio.Code.Engine`, or `None` |
| Marketplace.ExtensionPack | pyvsc/_extension.py:241-245 | first-match value for `Microsoft.VisualStudio.Code.ExtensionPack`, or `None` |
| Marketplace.ExtensionDependencies | pyvsc/_extension.py:247-251 | first-match value for `Microsoft.VisualStudio.Code.ExtensionDependencies`, or `None` |
| Marketplace.UniqueIdRoundTrip | pyvsc/_extension.py:192-194 | for a dot-free publisher name, the unique id `publisher.name` splits back into publisher and extension name |
| Marketplace.NewMarketplaceExtension | pyvsc/_extension.py:185-219 | tagged marketplace (1); unique id `publisherName.extensionName`; download URL is the VSIX package URI; version, asset URIs and all five extractors read `versions[0]` only; an empty version list raises |
| Marketplace.OnlyCurrentVersionRead | pyvsc/_extension.py:198-200 | versions after the first do not affect the extension |
| Resolver.GetExtension | pyvsc/_extension.py:255-284 | GitHub-sourced (2) exactly when the id is a registry key, marketplace-sourced (1) otherwise; a GitHub result keeps the id, registry owner/repo, platform asset and release, is not flagged for the marketplace, succeeds exactly when its URL resolution does and carries that URL; a marketplace id yields the normalisation of exactly the record the marketplace query returned, and an unknown one raises `NotFound` |
| Resolver.DownloadFlagMatchesSource | pyvsc/_extension.py:57-62 | `download_from_marketplace` holds exactly for marketplace extensions whenever the resolved id is the requested one |
| Resolver.CppToolsOnLinux64 | pyvsc/_extension.py:25-36 | `ms-vscode.cpptools` on 64-bit Linux with an explicit tag is the Microsoft/vscode-cpptools GitHub extension with asset `cpptools-linux.vsix` and the composed URL |

## Left out

- Running commands through the tunnel and the curl helper: a command is an opaque `Fetch(url, output)` and the tunnel a function from commands to `(exited, stdout, stderr)`.
- `json.loads`: a function parameter giving the parsed release document, or `None` for text that is not JSON of that shape.
- `Marketplace.get_extension`, `platform_query` and `dict_from_list_key` are not part of this model; the marketplace query is a function parameter, the platform a four-valued argument, and the lookup a first-match search.
- Unsupported platforms: `platform_query` runs when the module loads and is not part of this model, so only the four known platforms are represented.
- An extension does not keep the tunnel it was resolved through; `Extensions.Download` takes the tunnel's `run` as an argument, meant to be the same `Collaborators.run` used for resolution.
- Logging inside `_from_latest` on a failed query: the model returns no URL and drops the log line.
- Records with missing keys: marketplace `files`/`properties` entries and release assets are typed records that always carry the fields the code reads.
- `statistics` values are carried through unchanged as name/real pairs.
- Idempotence of resolution is immediate in this model, since every operation is a pure function of its inputs.
- The `Undefined` source type is only a default of the base class and is never produced.
- The command-line layer (install, config and info commands) and the test helpers: argument parsing, fuzzy name matching, configuration files and network probing.
