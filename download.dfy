/** `DownloadManager`: each configured download link gets its label and a URL,
    the latest release's archive when one is asked for and available, the
    fixed fallback archive otherwise. */
module Download {
  import opened Wrappers
  import opened Http
  import opened Dom

  const TargetBlank: string := "_blank"
  const NoOpener: string := "noopener noreferrer"

  /** One configured link: the repository, the id of its anchor, the fixed
      archive URL, whether to ask for the latest release, and the label. */
  datatype DownloadInfo = DownloadInfo(name: string, repo: string, downloadElement: string,
                                       fallbackUrl: string, isRelease: bool, btnText: string)

  /** The parsed body of `GET /repos/{repo}/releases/latest`: JSON `null`, or
      any other value, of which only `zipball_url` is read (`None` when absent
      or `null`). */
  datatype Release = NullRelease | ReleaseJson(zipballUrl: Option<string>)

  /** The release archive is used: a release link, an ok reply whose body
      parsed and carries a non-empty `zipball_url`. */
  predicate HasReleaseArchive(info: DownloadInfo, reply: Reply<Release>) {
    && info.isRelease
    && Parsed(reply)
    && reply.json.value.ReleaseJson?
    && reply.json.value.zipballUrl.Some?
    && reply.json.value.zipballUrl.value != ""
  }

  /** The URL `setupDownloadLink` ends with, on the normal path or the `catch`
      path: `data.zipball_url || fallbackUrl` for an ok release reply, the
      fallback for a non-release link, a non-ok status, a rejected request, an
      unparsable body or a `null` body. */
  function ZipUrl(info: DownloadInfo, reply: Reply<Release>): (url: string)
    ensures HasReleaseArchive(info, reply) ==> url == reply.json.value.zipballUrl.value
    ensures !HasReleaseArchive(info, reply) ==> url == info.fallbackUrl
    ensures url == "" ==> info.fallbackUrl == ""
  {
    if !info.isRelease then info.fallbackUrl
    else match reply
      case NetworkError => info.fallbackUrl
      case Response(status, json) =>
        if !IsOk(status) then info.fallbackUrl
        else match json
          case None => info.fallbackUrl
          case Some(NullRelease) => info.fallbackUrl
          case Some(ReleaseJson(zipball)) =>
            if zipball.Some? && zipball.value != "" then zipball.value else info.fallbackUrl
  }

  /** A link that does not ask for the latest release never looks at a reply:
      no request is made and the fallback is used. */
  lemma NonReleaseMakesNoRequest(info: DownloadInfo, r1: Reply<Release>, r2: Reply<Release>)
    requires !info.isRelease
    ensures ZipUrl(info, r1) == ZipUrl(info, r2) == info.fallbackUrl
  {
  }

  /** A release link whose reply is not ok (a 404, say) falls back. */
  lemma NotOkFallsBack(info: DownloadInfo, status: int, json: Option<Release>)
    requires !IsOk(status)
    ensures ZipUrl(info, Response(status, json)) == info.fallbackUrl
  {
  }

  /** An anchor after setup: its label, its URL and the two fixed attributes. */
  predicate Linked(e: Element, info: DownloadInfo, url: string) {
    && e.text == info.btnText
    && "href" in e.attrs && e.attrs["href"] == url
    && "target" in e.attrs && e.attrs["target"] == TargetBlank
    && "rel" in e.attrs && e.attrs["rel"] == NoOpener
  }

  /** `href`, `target` and `rel` set on an anchor. */
  function WithLink(e: Element, url: string): Element {
    e.(attrs := e.attrs["href" := url]["target" := TargetBlank]["rel" := NoOpener])
  }

  /** `setupDownloadLink(info)` with the given release reply: nothing when the
      page has no anchor with that id; otherwise the label, the URL and the
      two fixed attributes, with every other attribute and element unchanged. */
  function SetupLink(elements: map<string, Element>, info: DownloadInfo, reply: Reply<Release>)
    : (r: map<string, Element>)
    ensures r.Keys == elements.Keys
    ensures info.downloadElement !in elements ==> r == elements
    ensures info.downloadElement in elements ==>
      var before := elements[info.downloadElement];
      var after := r[info.downloadElement];
      && Linked(after, info, ZipUrl(info, reply))
      && after.attrs.Keys == before.attrs.Keys + {"href", "target", "rel"}
      && forall k :: k in before.attrs && k != "href" && k != "target" && k != "rel" ==>
           after.attrs[k] == before.attrs[k]
    ensures forall id :: id in elements && id != info.downloadElement ==> r[id] == elements[id]
  {
    var id := info.downloadElement;
    if id !in elements then elements
    else elements[id := WithLink(elements[id].(text := info.btnText), ZipUrl(info, reply))]
  }

  /** `init()`: every configured link in turn, each with its own reply. */
  function SetupAll(elements: map<string, Element>, repos: seq<DownloadInfo>, replies: seq<Reply<Release>>)
    : (r: map<string, Element>)
    requires |replies| == |repos|
    ensures r.Keys == elements.Keys
    ensures forall id :: id in elements && (forall i :: 0 <= i < |repos| ==> repos[i].downloadElement != id) ==>
      r[id] == elements[id]
    decreases |repos|
  {
    if repos == [] then elements
    else SetupAll(SetupLink(elements, repos[0], replies[0]), repos[1..], replies[1..])
  }

  /** No two configured links share an anchor. */
  predicate WellFormed(repos: seq<DownloadInfo>) {
    forall i, j :: 0 <= i < j < |repos| ==> repos[i].downloadElement != repos[j].downloadElement
  }

  lemma {:induction false} SetupAllFrame(elements: map<string, Element>, repos: seq<DownloadInfo>,
                                         replies: seq<Reply<Release>>, id: string)
    requires |replies| == |repos|
    requires forall i :: 0 <= i < |repos| ==> repos[i].downloadElement != id
    ensures SetupAll(elements, repos, replies).Keys == elements.Keys
    ensures id in elements ==> SetupAll(elements, repos, replies)[id] == elements[id]
    decreases |repos|
  {
    if repos != [] {
      SetupAllFrame(SetupLink(elements, repos[0], replies[0]), repos[1..], replies[1..], id);
    }
  }

  /** After `init()` every configured anchor present on the page carries its
      own label and the URL its own reply decides, and keeps every other
      attribute it had; absent anchors stay absent. */
  lemma {:induction false} SetupAllLinksEach(elements: map<string, Element>, repos: seq<DownloadInfo>,
                                             replies: seq<Reply<Release>>, k: nat)
    requires |replies| == |repos| && WellFormed(repos) && k < |repos|
    ensures var r := SetupAll(elements, repos, replies);
      && (repos[k].downloadElement in r <==> repos[k].downloadElement in elements)
      && (repos[k].downloadElement in elements ==>
            var before := elements[repos[k].downloadElement];
            var after := r[repos[k].downloadElement];
            && Linked(after, repos[k], ZipUrl(repos[k], replies[k]))
            && after.attrs.Keys == before.attrs.Keys + {"href", "target", "rel"}
            && forall a :: a in before.attrs && a != "href" && a != "target" && a != "rel" ==>
                 after.attrs[a] == before.attrs[a])
    decreases |repos|
  {
    var e1 := SetupLink(elements, repos[0], replies[0]);
    if k == 0 {
      SetupAllFrame(e1, repos[1..], replies[1..], repos[0].downloadElement);
    } else {
      assert repos[1..][k - 1] == repos[k];
      SetupAllLinksEach(e1, repos[1..], replies[1..], k - 1);
    }
  }

  class DownloadManager {
    const repos: seq<DownloadInfo>
    const browser: Browser

    /** `new DownloadManager()`: the configured list, then `init()` with one
        release reply per configured link. */
    constructor (repos: seq<DownloadInfo>, browser: Browser, replies: seq<Reply<Release>>)
      requires |replies| == |repos|
      modifies browser`elements
      ensures this.repos == repos && this.browser == browser
      ensures browser.elements == SetupAll(old(browser.elements), repos, replies)
    {
      this.repos := repos;
      this.browser := browser;
      new;
      Init(replies);
    }

    /** `downloadLink.href = url` and the two `setAttribute` calls. */
    method SetLink(id: string, url: string)
      requires id in browser.elements
      modifies browser`elements
      ensures browser.elements == old(browser.elements)[id := WithLink(old(browser.elements)[id], url)]
    {
      browser.elements := browser.elements[id := WithLink(browser.elements[id], url)];
    }

    /** `setupDownloadLink(info)` with the given outcome of the release request
        (not consulted for a non-release link). */
    method SetupDownloadLink(info: DownloadInfo, reply: Reply<Release>)
      modifies browser`elements
      ensures browser.elements == SetupLink(old(browser.elements), info, reply)
    {
      var id := info.downloadElement;
      if id !in browser.elements {
        return;
      }
      browser.elements := SetText(browser.elements, id, info.btnText);
      var zipUrl := info.fallbackUrl;
      var threw := false;
      if info.isRelease {
        match reply
        case NetworkError =>
          threw := true;
        case Response(status, json) =>
          if IsOk(status) {
            match json
            case None =>
              threw := true;
            case Some(body) =>
              match body
              case NullRelease =>
                threw := true;
              case ReleaseJson(zipball) =>
                zipUrl := if zipball.Some? && zipball.value != "" then zipball.value else info.fallbackUrl;
          }
      }
      if threw {
        SetLink(id, info.fallbackUrl);
      } else {
        SetLink(id, zipUrl);
      }
    }

    /** `init()`: one setup per configured link, in order. */
    method Init(replies: seq<Reply<Release>>)
      requires |replies| == |repos|
      modifies browser`elements
      ensures browser.elements == SetupAll(old(browser.elements), repos, replies)
    {
      var i := 0;
      while i < |repos|
        invariant 0 <= i <= |repos|
        invariant SetupAll(browser.elements, repos[i..], replies[i..]) ==
                  SetupAll(old(browser.elements), repos, replies)
      {
        assert repos[i..][1..] == repos[i + 1..] && replies[i..][1..] == replies[i + 1..];
        SetupDownloadLink(repos[i], replies[i]);
        i := i + 1;
      }
    }
  }
}
