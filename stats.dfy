/** `GitHubStatsManager`: star and fork counts of a fixed list of repositories,
    cached per repository for five minutes and written into the page. */
module Stats {
  import opened Wrappers
  import opened Decimal
  import opened Http
  import opened Dom

  /** How long a cache entry stays fresh, in milliseconds (`5 * 60 * 1000`). */
  const CacheTtl: int := 5 * 60 * 1000

  /** What a sink shows while a lookup is under way. */
  const Loading: string := "..."
  /** What both sinks show after a failed lookup. */
  const ErrorText: string := "Error"
  /** What a sink shows for a count that is absent or falsy. */
  const NotAvailable: string := "N/A"

  /** One configured repository: its `owner/name` and the ids of its two sinks. */
  datatype RepoInfo = RepoInfo(name: string, repo: string, starsElement: string, forksElement: string)

  /** The parsed body of `GET /repos/{repo}`: JSON `null`, or any other value,
      of which only `stargazers_count` and `forks_count` are read (`None` when
      the field is absent or `null`). */
  datatype Body = NullBody | Json(stargazersCount: Option<int>, forksCount: Option<int>)

  /** A cache entry: the body as received and `Date.now()` when it was stored. */
  datatype Entry = Entry(data: Body, timestamp: int)

  /** The outcome of the request for one repository and `Date.now()` once it settled. */
  datatype Attempt = Attempt(reply: Reply<Body>, doneAt: int)

  /** The state one lookup reads and writes: the cache and the page's elements. */
  datatype Snapshot = Snapshot(cache: map<string, Entry>, elements: map<string, Element>)

  // ---------------------------------------------------------------------------
  // Rendering

  /** `formatNumber(num)`: M above a million, checked first, then K above a
      thousand, else the plain integer. */
  function FormatNumber(n: int): (r: string)
    ensures |r| >= 1
    ensures n >= 1000000 ==> r[|r| - 1] == 'M' && IsCanonicalFixed1(r[..|r| - 1])
    ensures 1000 <= n < 1000000 ==> r[|r| - 1] == 'K' && IsCanonicalFixed1(r[..|r| - 1])
    ensures n < 1000 ==> IsCanonicalInt(r) && IsIntNumeral(r) && ParseInt(r) == n
  {
    if n >= 1000000 then
      var m := ToFixed1(n, 1000000);
      assert (m + "M")[..|m|] == m;
      m + "M"
    else if n >= 1000 then
      var m := ToFixed1(n, 1000);
      assert (m + "K")[..|m|] == m;
      m + "K"
    else
      ParseIntToString(n);
      IntToString(n)
  }

  /** A count `c` with the suffix stripped shows `c / unit` to the nearest
      tenth (an exact half is shown rounded up). */
  lemma FormatNumberScaled(n: int)
    requires n >= 1000
    ensures var r := FormatNumber(n);
      var unit := if n >= 1000000 then 1000000 else 1000;
      var t := ParseFixed1(r[..|r| - 1]);
      t * unit <= 10 * n + unit / 2 < t * unit + unit
  {
    var unit := if n >= 1000000 then 1000000 else 1000;
    var m := ToFixed1(n, unit);
    assert (m + (if n >= 1000000 then "M" else "K"))[..|m|] == m;
    ToFixed1Value(n, unit);
  }

  /** The worked examples: 950, 1500 and 2500000. */
  lemma FormatNumberExamples()
    ensures FormatNumber(950) == "950"
    ensures FormatNumber(1500) == "1.5K"
    ensures FormatNumber(2500000) == "2.5M"
  {
  }

  /** At the top of the K range rounding to one decimal reaches a thousand:
      999999 shows as "1000.0K", not as "1.0M". */
  lemma FormatNumberTopOfKRange()
    ensures FormatNumber(999999) == "1000.0K"
  {
  }

  /** JavaScript truthiness of a count: present and not zero. */
  predicate Truthy(count: Option<int>) {
    count.Some? && count.value != 0
  }

  /** `count ? formatNumber(count) : 'N/A'` */
  function RenderCount(count: Option<int>): (r: string)
    ensures r == NotAvailable <==> !Truthy(count)
    ensures Truthy(count) ==> r == FormatNumber(count.value)
  {
    if Truthy(count) then FormatNumber(count.value) else NotAvailable
  }

  /** Both texts a lookup ends with for a body: the rendered counts, or, for a
      `null` body (whose fields cannot be read), the error text. */
  function RenderedTexts(data: Body): (string, string) {
    match data
    case NullBody => (ErrorText, ErrorText)
    case Json(stars, forks) => (RenderCount(stars), RenderCount(forks))
  }

  /** The present sinks of `info` show `texts` (stars, forks); when both ids
      name one element it shows what was written last, the forks text. */
  predicate Shows(elements: map<string, Element>, info: RepoInfo, texts: (string, string)) {
    && (info.forksElement in elements ==> elements[info.forksElement].text == texts.1)
    && (info.starsElement in elements && info.starsElement != info.forksElement ==>
          elements[info.starsElement].text == texts.0)
  }

  /** Only the texts of the elements with these two ids may differ. */
  predicate OnlySinksChanged(before: map<string, Element>, after: map<string, Element>, info: RepoInfo) {
    && after.Keys == before.Keys
    && (forall id :: id in before ==> after[id].attrs == before[id].attrs)
    && (forall id :: id in before && id != info.starsElement && id != info.forksElement ==>
          after[id] == before[id])
  }

  /** Both present sinks of `info` set to `text`. */
  function PaintAll(elements: map<string, Element>, info: RepoInfo, text: string): (r: map<string, Element>)
    ensures Shows(r, info, (text, text)) && OnlySinksChanged(elements, r, info)
  {
    SetText(SetText(elements, info.starsElement, text), info.forksElement, text)
  }

  /** `updateElements(data, starsEl, forksEl)`: `None` when it throws, which
      happens when the body is `null` and at least one sink is present. */
  function Updated(data: Body, info: RepoInfo, elements: map<string, Element>): (r: Option<map<string, Element>>)
    ensures r.None? <==> data.NullBody? && (info.starsElement in elements || info.forksElement in elements)
    ensures r.Some? ==> OnlySinksChanged(elements, r.value, info)
    ensures r.Some? ==> Shows(r.value, info, RenderedTexts(data))
  {
    match data
    case NullBody =>
      if info.starsElement in elements || info.forksElement in elements then None else Some(elements)
    case Json(stars, forks) =>
      Some(SetText(SetText(elements, info.starsElement, RenderCount(stars)), info.forksElement, RenderCount(forks)))
  }

  /** What the sinks show once `updateElements` has run inside the `try`:
      its writes, or the error text when it threw. */
  function Rendered(data: Body, info: RepoInfo, elements: map<string, Element>): (r: map<string, Element>)
    ensures OnlySinksChanged(elements, r, info)
    ensures Shows(r, info, RenderedTexts(data))
  {
    match Updated(data, info, elements)
    case Some(e) => e
    case None => PaintAll(elements, info, ErrorText)
  }

  // ---------------------------------------------------------------------------
  // One lookup

  /** The cache holds an entry for `repo` younger than `CacheTtl`. */
  predicate IsFresh(cache: map<string, Entry>, repo: string, now: int) {
    repo in cache && now - cache[repo].timestamp < CacheTtl
  }

  /** The synchronous part of `fetchRepoStats(info)`, up to the `await` on
      the request: placeholders in both present sinks, then, for a fresh
      entry, the cached data rendered. With no fresh entry the sinks show
      `...` while the request is pending. The cache is not touched. */
  function BeginLookup(s: Snapshot, info: RepoInfo, now: int): (r: Snapshot)
    ensures r.cache == s.cache
    ensures OnlySinksChanged(s.elements, r.elements, info)
    ensures IsFresh(s.cache, info.repo, now) ==>
      Shows(r.elements, info, RenderedTexts(s.cache[info.repo].data))
    ensures !IsFresh(s.cache, info.repo, now) ==> Shows(r.elements, info, (Loading, Loading))
  {
    var shown := PaintAll(s.elements, info, Loading);
    if IsFresh(s.cache, info.repo, now) then
      Snapshot(s.cache, Rendered(s.cache[info.repo].data, info, shown))
    else
      Snapshot(s.cache, shown)
  }

  /** The part of `fetchRepoStats(info)` after the request settled: a parsed
      ok reply overwrites the entry and is rendered; any failure shows the
      error text and leaves the cache alone. */
  function CompleteLookup(s: Snapshot, info: RepoInfo, attempt: Attempt): (r: Snapshot)
    ensures OnlySinksChanged(s.elements, r.elements, info)
    ensures !Parsed(attempt.reply) ==>
      r.cache == s.cache && Shows(r.elements, info, (ErrorText, ErrorText))
    ensures Parsed(attempt.reply) ==>
      r.cache == s.cache[info.repo := Entry(attempt.reply.json.value, attempt.doneAt)] &&
      Shows(r.elements, info, RenderedTexts(attempt.reply.json.value))
  {
    if Parsed(attempt.reply) then
      var data := attempt.reply.json.value;
      Snapshot(s.cache[info.repo := Entry(data, attempt.doneAt)], Rendered(data, info, s.elements))
    else
      Snapshot(s.cache, PaintAll(s.elements, info, ErrorText))
  }

  /** `fetchRepoStats(info)` at time `now`, once settled: a fresh entry is
      rendered without a request; otherwise the attempt decides. */
  function FetchOne(s: Snapshot, info: RepoInfo, now: int, attempt: Attempt): (r: Snapshot)
    ensures OnlySinksChanged(s.elements, r.elements, info)
    ensures IsFresh(s.cache, info.repo, now) ==>
      r.cache == s.cache && Shows(r.elements, info, RenderedTexts(s.cache[info.repo].data))
    ensures !IsFresh(s.cache, info.repo, now) && !Parsed(attempt.reply) ==>
      r.cache == s.cache && Shows(r.elements, info, (ErrorText, ErrorText))
    ensures !IsFresh(s.cache, info.repo, now) && Parsed(attempt.reply) ==>
      r.cache == s.cache[info.repo := Entry(attempt.reply.json.value, attempt.doneAt)] &&
      Shows(r.elements, info, RenderedTexts(attempt.reply.json.value))
  {
    var begun := BeginLookup(s, info, now);
    if IsFresh(s.cache, info.repo, now) then begun else CompleteLookup(begun, info, attempt)
  }

  /** A fresh entry is served without a request: the attempt is never looked at. */
  lemma FreshEntryIgnoresAttempt(s: Snapshot, info: RepoInfo, now: int, a1: Attempt, a2: Attempt)
    requires IsFresh(s.cache, info.repo, now)
    ensures FetchOne(s, info, now, a1) == FetchOne(s, info, now, a2)
  {
  }

  /** After a successful request that settled at `doneAt`, a second lookup
      less than `CacheTtl` later makes no request and shows the same texts. */
  lemma SecondLookupWithinTtlIsServedFromCache(s: Snapshot, info: RepoInfo, now: int, a: Attempt,
                                                later: int, b: Attempt)
    requires !IsFresh(s.cache, info.repo, now) && Parsed(a.reply)
    requires later - a.doneAt < CacheTtl
    ensures var first := FetchOne(s, info, now, a);
      && IsFresh(first.cache, info.repo, later)
      && var second := FetchOne(first, info, later, b);
      && second.cache == first.cache
      && Shows(second.elements, info, RenderedTexts(a.reply.json.value))
  {
  }

  /** An entry `CacheTtl` old or older is not fresh: the lookup makes a request. */
  lemma ExpiredEntryIsRefetched(s: Snapshot, info: RepoInfo, now: int, a: Attempt)
    requires info.repo in s.cache && now - s.cache[info.repo].timestamp >= CacheTtl
    ensures !IsFresh(s.cache, info.repo, now)
    ensures Parsed(a.reply) ==> FetchOne(s, info, now, a).cache[info.repo].timestamp == a.doneAt
  {
  }

  // ---------------------------------------------------------------------------
  // The batch

  /** `fetchAllStats()`: every configured repository in turn, each with its
      own attempt. Entries are never evicted, only configured repositories
      gain or change an entry, and the page keeps its elements. */
  function FetchAll(s: Snapshot, repos: seq<RepoInfo>, now: int, attempts: seq<Attempt>): (r: Snapshot)
    requires |attempts| == |repos|
    ensures r.elements.Keys == s.elements.Keys
    ensures s.cache.Keys <= r.cache.Keys
    ensures r.cache.Keys <= s.cache.Keys + set i | 0 <= i < |repos| :: repos[i].repo
    ensures forall key :: key in s.cache && (forall i :: 0 <= i < |repos| ==> repos[i].repo != key) ==>
      r.cache[key] == s.cache[key]
    decreases |repos|
  {
    if repos == [] then s
    else FetchAll(FetchOne(s, repos[0], now, attempts[0]), repos[1..], now, attempts[1..])
  }

  /** Two repositories share neither their name nor any sink. */
  predicate Disjoint(a: RepoInfo, b: RepoInfo) {
    && a.repo != b.repo
    && a.starsElement != b.starsElement && a.starsElement != b.forksElement
    && a.forksElement != b.starsElement && a.forksElement != b.forksElement
  }

  /** A configuration in which no two repositories share a name or a sink. */
  predicate WellFormed(repos: seq<RepoInfo>) {
    forall i, j :: 0 <= i < j < |repos| ==> Disjoint(repos[i], repos[j])
  }

  function Get<K, V>(m: map<K, V>, k: K): Option<V> {
    if k in m then Some(m[k]) else None
  }

  /** Everything of a snapshot that belongs to one repository: its cache entry
      and its two sinks. */
  function View(s: Snapshot, info: RepoInfo): (Option<Entry>, Option<Element>, Option<Element>) {
    (Get(s.cache, info.repo), Get(s.elements, info.starsElement), Get(s.elements, info.forksElement))
  }

  /** A lookup touches nothing of a disjoint repository. */
  lemma FetchOneFrame(s: Snapshot, info: RepoInfo, now: int, a: Attempt, other: RepoInfo)
    requires Disjoint(info, other)
    ensures View(FetchOne(s, info, now, a), other) == View(s, other)
  {
  }

  /** What a lookup leaves for its own repository depends only on what that
      repository had before. */
  lemma FetchOneLocal(s1: Snapshot, s2: Snapshot, info: RepoInfo, now: int, a: Attempt)
    requires View(s1, info) == View(s2, info)
    ensures View(FetchOne(s1, info, now, a), info) == View(FetchOne(s2, info, now, a), info)
  {
  }

  lemma {:induction false} FetchAllFrame(s: Snapshot, repos: seq<RepoInfo>, now: int, attempts: seq<Attempt>,
                                         other: RepoInfo)
    requires |attempts| == |repos|
    requires forall i :: 0 <= i < |repos| ==> Disjoint(repos[i], other)
    ensures View(FetchAll(s, repos, now, attempts), other) == View(s, other)
    decreases |repos|
  {
    if repos != [] {
      FetchOneFrame(s, repos[0], now, attempts[0], other);
      FetchAllFrame(FetchOne(s, repos[0], now, attempts[0]), repos[1..], now, attempts[1..], other);
    }
  }

  /** Per-repository independence of the batch: what repository `k` ends with
      is what a lookup of that repository alone, from the same start, yields. */
  lemma {:induction false} FetchAllIndependent(s: Snapshot, repos: seq<RepoInfo>, now: int,
                                               attempts: seq<Attempt>, k: nat)
    requires |attempts| == |repos| && WellFormed(repos) && k < |repos|
    ensures View(FetchAll(s, repos, now, attempts), repos[k]) ==
            View(FetchOne(s, repos[k], now, attempts[k]), repos[k])
    decreases |repos|
  {
    var s1 := FetchOne(s, repos[0], now, attempts[0]);
    if k == 0 {
      FetchAllFrame(s1, repos[1..], now, attempts[1..], repos[0]);
    } else {
      assert repos[1..][k - 1] == repos[k];
      FetchAllIndependent(s1, repos[1..], now, attempts[1..], k - 1);
      FetchOneFrame(s, repos[0], now, attempts[0], repos[k]);
      FetchOneLocal(s1, s, repos[k], now, attempts[k]);
    }
  }

  /** `Shows` only looks at the two sinks. */
  lemma ShowsOnView(s1: Snapshot, s2: Snapshot, info: RepoInfo, texts: (string, string))
    requires View(s1, info) == View(s2, info)
    ensures Shows(s1.elements, info, texts) == Shows(s2.elements, info, texts)
  {
  }

  /** Isolation within a batch: repository `k` shows its own outcome, whatever
      the other repositories' attempts were. */
  lemma FetchAllIsolation(s: Snapshot, repos: seq<RepoInfo>, now: int, attempts: seq<Attempt>, k: nat)
    requires |attempts| == |repos| && WellFormed(repos) && k < |repos|
    ensures var r := FetchAll(s, repos, now, attempts);
      var info := repos[k];
      var a := attempts[k];
      && (IsFresh(s.cache, info.repo, now) ==>
            Get(r.cache, info.repo) == Get(s.cache, info.repo) &&
            Shows(r.elements, info, RenderedTexts(s.cache[info.repo].data)))
      && (!IsFresh(s.cache, info.repo, now) && !Parsed(a.reply) ==>
            Get(r.cache, info.repo) == Get(s.cache, info.repo) &&
            Shows(r.elements, info, (ErrorText, ErrorText)))
      && (!IsFresh(s.cache, info.repo, now) && Parsed(a.reply) ==>
            Get(r.cache, info.repo) == Some(Entry(a.reply.json.value, a.doneAt)) &&
            Shows(r.elements, info, RenderedTexts(a.reply.json.value)))
  {
    var r := FetchAll(s, repos, now, attempts);
    var one := FetchOne(s, repos[k], now, attempts[k]);
    FetchAllIndependent(s, repos, now, attempts, k);
    assert Get(r.cache, repos[k].repo) == Get(one.cache, repos[k].repo);
    forall texts: (string, string)
      ensures Shows(r.elements, repos[k], texts) == Shows(one.elements, repos[k], texts)
    {
      ShowsOnView(r, one, repos[k], texts);
    }
  }

  // ---------------------------------------------------------------------------
  // The manager object

  class GitHubStatsManager {
    const repos: seq<RepoInfo>
    var cache: map<string, Entry>
    const browser: Browser

    /** `new GitHubStatsManager()`: an empty cache, then the first batch at
        time `now` with one attempt per configured repository. */
    constructor (repos: seq<RepoInfo>, browser: Browser, now: int, attempts: seq<Attempt>)
      requires |attempts| == |repos|
      modifies browser`elements
      ensures this.repos == repos && this.browser == browser
      ensures Snapshot(cache, browser.elements) ==
              FetchAll(Snapshot(map[], old(browser.elements)), repos, now, attempts)
    {
      this.repos := repos;
      this.browser := browser;
      cache := map[];
      new;
      FetchAllStats(now, attempts);
    }

    /** `if (starsEl) starsEl.textContent = text; if (forksEl) forksEl.textContent = text;` */
    method PaintSinks(info: RepoInfo, text: string)
      modifies browser`elements
      ensures browser.elements == PaintAll(old(browser.elements), info, text)
    {
      browser.elements := SetText(browser.elements, info.starsElement, text);
      browser.elements := SetText(browser.elements, info.forksElement, text);
    }

    /** `updateElements(data, starsEl, forksEl)`; `threw` when reading a field
        of a `null` body raised, before anything was written. */
    method UpdateElements(data: Body, info: RepoInfo) returns (threw: bool)
      modifies browser`elements
      ensures threw == Updated(data, info, old(browser.elements)).None?
      ensures browser.elements ==
        if threw then old(browser.elements) else Updated(data, info, old(browser.elements)).value
    {
      threw := false;
      if info.starsElement in browser.elements {
        if data.NullBody? {
          threw := true;
          return;
        }
        browser.elements := SetText(browser.elements, info.starsElement, RenderCount(data.stargazersCount));
      }
      if info.forksElement in browser.elements {
        if data.NullBody? {
          threw := true;
          return;
        }
        browser.elements := SetText(browser.elements, info.forksElement, RenderCount(data.forksCount));
      }
    }

    /** `fetchRepoStats(info)` up to its `await`: placeholders, and for a fresh
        entry the cached data; `fetched` says whether a request is now pending. */
    method BeginFetchRepoStats(info: RepoInfo, now: int) returns (fetched: bool)
      modifies browser`elements
      ensures fetched == !IsFresh(cache, info.repo, now)
      ensures Snapshot(cache, browser.elements) == BeginLookup(Snapshot(cache, old(browser.elements)), info, now)
    {
      PaintSinks(info, Loading);
      fetched := true;
      if info.repo in cache && now - cache[info.repo].timestamp < CacheTtl {
        var threw := UpdateElements(cache[info.repo].data, info);
        if threw {
          PaintSinks(info, ErrorText);
        }
        fetched := false;
      }
    }

    /** `fetchRepoStats(info)` after the request settled with `attempt`. */
    method CompleteFetchRepoStats(info: RepoInfo, attempt: Attempt)
      modifies this`cache, browser`elements
      ensures Snapshot(cache, browser.elements) ==
              CompleteLookup(Snapshot(old(cache), old(browser.elements)), info, attempt)
    {
      match attempt.reply
      case NetworkError =>
        PaintSinks(info, ErrorText);
      case Response(status, json) =>
        if !IsOk(status) || json.None? {
          PaintSinks(info, ErrorText);
        } else {
          cache := cache[info.repo := Entry(json.value, attempt.doneAt)];
          var threw := UpdateElements(json.value, info);
          if threw {
            PaintSinks(info, ErrorText);
          }
        }
    }

    /** `fetchRepoStats(info)` at time `now` with the given request outcome;
        `fetched` says whether the request was made at all. */
    method FetchRepoStats(info: RepoInfo, now: int, attempt: Attempt) returns (fetched: bool)
      modifies this`cache, browser`elements
      ensures fetched == !IsFresh(old(cache), info.repo, now)
      ensures Snapshot(cache, browser.elements) ==
              FetchOne(Snapshot(old(cache), old(browser.elements)), info, now, attempt)
    {
      fetched := BeginFetchRepoStats(info, now);
      if fetched {
        CompleteFetchRepoStats(info, attempt);
      }
    }

    /** `fetchAllStats()`: one lookup per configured repository, in order. */
    method FetchAllStats(now: int, attempts: seq<Attempt>)
      requires |attempts| == |repos|
      modifies this`cache, browser`elements
      ensures Snapshot(cache, browser.elements) ==
              FetchAll(Snapshot(old(cache), old(browser.elements)), repos, now, attempts)
    {
      var i := 0;
      while i < |repos|
        invariant 0 <= i <= |repos|
        invariant FetchAll(Snapshot(cache, browser.elements), repos[i..], now, attempts[i..]) ==
                  FetchAll(Snapshot(old(cache), old(browser.elements)), repos, now, attempts)
      {
        assert repos[i..][1..] == repos[i + 1..] && attempts[i..][1..] == attempts[i + 1..];
        var _ := FetchRepoStats(repos[i], now, attempts[i]);
        i := i + 1;
      }
    }
  }
}
