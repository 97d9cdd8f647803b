/** The remote execution channel and the other collaborators the resolution
    code calls but does not define. Each is a pure function parameter: the
    tunnel's `run`, `json.loads` of a GitHub response, and the marketplace
    query `Marketplace(tunnel).get_extension`. */
module Tunnel {
  import opened Wrappers
  import opened Json

  /** An opaque fetch command built by the curl helper: the URL to fetch and
      the output file, if any. The core never looks inside it. */
  datatype Command = Fetch(url: Option<string>, output: Option<string>)

  /** What the tunnel reports after running a command. */
  datatype Response = Response(exited: int, stdout: string, stderr: string)

  /** A line written to the module's logger. */
  datatype LogLine = Info(text: string) | Error(text: string)

  /** The collaborators reached through the tunnel. `loads` is `None` when the
      text is not valid JSON of the release shape; `marketplace` is `None` when
      the marketplace has no record for the unique id. */
  datatype Collaborators = Collaborators(
    run: Command -> Response,
    loads: string -> Option<ReleaseJson>,
    marketplace: string -> Option<MarketplaceRecord>)
}
