/** The two deployed page variants' hard-coded repository lists: `js/script.js`
    (three repositories) and `script.js` (two). The behaviour is the same in
    both; only these lists differ. */
module Config {
  import Stats
  import Download
  import Http

  const MainStatsRepos: seq<Stats.RepoInfo> := [
    Stats.RepoInfo("VENOM-XMD", "gifteddevsmd/VENOM-XMD", "venomxmd-stars", "venomxmd-forks"),
    Stats.RepoInfo("DAVE-MD", "gifteddevsmd/DAVE-MD2", "davemd-stars", "davemd-forks"),
    Stats.RepoInfo("Dave-Ai", "gifteddevsmd/Dave-Ai", "daveai-stars", "daveai-forks")
  ]

  const MainDownloadRepos: seq<Download.DownloadInfo> := [
    Download.DownloadInfo("venom-xmd", "gifteddevsmd/VENOM-XMD", "venom-xmd-download-zip",
      "https://github.com/gifteddevsmd/VENOM-XMD/archive/refs/heads/main.zip", true, "Latest Release"),
    Download.DownloadInfo("dave-md", "gifteddevsmd/DAVE-MD2", "davemd-download-zip",
      "https://github.com/gifteddevsmd/DAVE-MD2/archive/refs/heads/main.zip", false, "Source Code"),
    Download.DownloadInfo("dave-ai", "gifteddevsmd/Dave-Ai", "daveai-download-zip",
      "https://github.com/gifteddevsmd/Dave-Ai/archive/refs/heads/main.zip", false, "Source Code")
  ]

  const RootStatsRepos: seq<Stats.RepoInfo> := [
    Stats.RepoInfo("VENOM-XMD", "gifteddevsmd/CypherX", "venomxmd-stars", "venomxmd-forks"),
    Stats.RepoInfo("DAVE-MD", "gifteddevsmd/DAVE-MD2", "Davemd-stars", "Davemd-forks")
  ]

  const RootDownloadRepos: seq<Download.DownloadInfo> := [
    Download.DownloadInfo("venom-xmd", "gifteddevsmd/VENOM-XMD", "venom-xmd-download-zip",
      "https://github.com/gifteddevsmd/VENOM-XMD/archive/refs/heads/main.zip", true, "Latest Release"),
    Download.DownloadInfo("DAVE-MD", "gifteddevsmd/DAVE-MD2", "Davemd-download-zip",
      "https://github.com/gifteddevsmd/DAVE-MD2/archive/refs/heads/main.zip", false, "Source Code")
  ]

  /** Both variants' lists name each repository, sink and anchor once, so the
      per-repository independence lemmas apply to them. */
  lemma ConfigurationsWellFormed()
    ensures Stats.WellFormed(MainStatsRepos) && Stats.WellFormed(RootStatsRepos)
    ensures Download.WellFormed(MainDownloadRepos) && Download.WellFormed(RootDownloadRepos)
  {
  }

  /** In both variants only the first link asks for the latest release, and
      every fallback URL is non-empty, so no anchor is left without a target. */
  lemma FallbacksNonEmpty(k: nat, reply: Http.Reply<Download.Release>)
    requires k < |MainDownloadRepos|
    ensures Download.ZipUrl(MainDownloadRepos[k], reply) != ""
    ensures k < |RootDownloadRepos| ==> Download.ZipUrl(RootDownloadRepos[k], reply) != ""
    ensures k > 0 ==> Download.ZipUrl(MainDownloadRepos[k], reply) == MainDownloadRepos[k].fallbackUrl
  {
  }
}
