/**
 * Platform recognition for account import, and the mock that stands in for
 * scraping an account page. All recognition is by plain substring tests
 * (`String.prototype.includes`).
 */
module Scraper {
  import opened Wrappers

  /** What a scrape returns. */
  datatype ScrapedAccountData = ScrapedAccountData(
    name: string,
    followerCount: int,
    totalPosts: int,
    platformUrl: string)

  /** `part` occurs in `s` starting at position `i`. */
  predicate OccursAt(s: string, part: string, i: int) {
    0 <= i && i + |part| <= |s| && s[i..i + |part|] == part
  }

  /**
   * `s.includes(part)`: `part` occurs in `s` at some position. The empty
   * string is in every string, and a string as long as `s` only if it is `s`.
   */
  predicate Includes(s: string, part: string): (r: bool)
    ensures r ==> |part| <= |s|
    ensures part == [] ==> r
    ensures |part| == |s| ==> (r <==> s == part)
  {
    assert OccursAt(s, [], 0);
    assert s == part ==> OccursAt(s, part, 0);
    exists i :: 0 <= i <= |s| - |part| && OccursAt(s, part, i)
  }

  /** The keys of the mock record table; `detectPlatform` returns one of them. */
  datatype Platform = Douyin | Bilibili | Xiaohongshu | Default

  /**
   * `detectPlatform`: tests the whole URL in the order douyin/tiktok,
   * bilibili, xiaohongshu/xhs; the first test that passes decides.
   */
  function DetectPlatform(url: string): (p: Platform)
    ensures p == Douyin <==> Includes(url, "douyin.com") || Includes(url, "tiktok.com")
    ensures p == Bilibili <==>
      !(Includes(url, "douyin.com") || Includes(url, "tiktok.com")) && Includes(url, "bilibili.com")
    ensures p == Xiaohongshu <==>
      !(Includes(url, "douyin.com") || Includes(url, "tiktok.com") || Includes(url, "bilibili.com")) &&
      (Includes(url, "xiaohongshu.com") || Includes(url, "xhs.com"))
  {
    if Includes(url, "douyin.com") || Includes(url, "tiktok.com") then Douyin
    else if Includes(url, "bilibili.com") then Bilibili
    else if Includes(url, "xiaohongshu.com") || Includes(url, "xhs.com") then Xiaohongshu
    else Default
  }

  /** The allow-list of `isSupportedPlatform`, in its order. */
  const SupportedDomains: seq<string> :=
    ["douyin.com", "tiktok.com", "bilibili.com", "xiaohongshu.com", "xhs.com", "kuaishou.com", "weibo.com"]

  /** `domains.some(d => host.includes(d))`. */
  function SomeIncluded(host: string, domains: seq<string>): (r: bool)
    ensures r <==> exists i :: 0 <= i < |domains| && Includes(host, domains[i])
  {
    if domains == [] then false
    else if Includes(host, domains[0]) then true
    else
      var r := SomeIncluded(host, domains[1..]);
      assert forall i :: 1 <= i < |domains| ==> domains[i] == domains[1..][i - 1];
      r
  }

  /**
   * `isSupportedPlatform`: the URL parser (`parseHost`, the built-in `URL`
   * constructor reduced to the hostname it yields, `None` where it throws)
   * must accept the string, and the hostname must contain a listed domain.
   */
  function IsSupportedPlatform(url: string, parseHost: string -> Option<string>): (r: bool)
    ensures parseHost(url).None? ==> !r
    ensures r <==> parseHost(url).Some? &&
                   exists i :: 0 <= i < |SupportedDomains| && Includes(parseHost(url).value, SupportedDomains[i])
  {
    match parseHost(url)
    case None => false
    case Some(host) => SomeIncluded(host, SupportedDomains)
  }

  /** The allow-list test spelled out domain by domain. */
  lemma SupportedDomainsUnfolded(host: string)
    ensures SomeIncluded(host, SupportedDomains) <==>
      Includes(host, "douyin.com") || Includes(host, "tiktok.com") || Includes(host, "bilibili.com") ||
      Includes(host, "xiaohongshu.com") || Includes(host, "xhs.com") || Includes(host, "kuaishou.com") ||
      Includes(host, "weibo.com")
  {
    var d := SupportedDomains;
    if SomeIncluded(host, d) {
      var i :| 0 <= i < |d| && Includes(host, d[i]);
      assert i in {0, 1, 2, 3, 4, 5, 6};
    } else {
      assert forall i :: 0 <= i < 7 ==> !Includes(host, d[i]);
      assert !Includes(host, d[0]) && !Includes(host, d[1]) && !Includes(host, d[2]) && !Includes(host, d[3]);
      assert !Includes(host, d[4]) && !Includes(host, d[5]) && !Includes(host, d[6]);
    }
  }

  const UnknownPlatform := "未知平台"

  /**
   * `getPlatformName`: the display name of the first platform whose domain
   * the URL contains, tested in the order douyin, tiktok, bilibili,
   * xiaohongshu/xhs, kuaishou, weibo.
   */
  function GetPlatformName(url: string): (name: string)
    ensures name == "抖音" <==> Includes(url, "douyin.com")
    ensures name == "TikTok" <==> !Includes(url, "douyin.com") && Includes(url, "tiktok.com")
    ensures name == "哔哩哔哩" <==>
      !(Includes(url, "douyin.com") || Includes(url, "tiktok.com")) && Includes(url, "bilibili.com")
    ensures name == "小红书" <==>
      !(Includes(url, "douyin.com") || Includes(url, "tiktok.com") || Includes(url, "bilibili.com")) &&
      (Includes(url, "xiaohongshu.com") || Includes(url, "xhs.com"))
    ensures name == "快手" <==>
      !(Includes(url, "douyin.com") || Includes(url, "tiktok.com") || Includes(url, "bilibili.com") ||
        Includes(url, "xiaohongshu.com") || Includes(url, "xhs.com")) &&
      Includes(url, "kuaishou.com")
    ensures name == "微博" <==>
      !(Includes(url, "douyin.com") || Includes(url, "tiktok.com") || Includes(url, "bilibili.com") ||
        Includes(url, "xiaohongshu.com") || Includes(url, "xhs.com") || Includes(url, "kuaishou.com")) &&
      Includes(url, "weibo.com")
    ensures name == UnknownPlatform <==> !SomeIncluded(url, SupportedDomains)
  {
    SupportedDomainsUnfolded(url);
    if Includes(url, "douyin.com") then "抖音"
    else if Includes(url, "tiktok.com") then "TikTok"
    else if Includes(url, "bilibili.com") then "哔哩哔哩"
    else if Includes(url, "xiaohongshu.com") || Includes(url, "xhs.com") then "小红书"
    else if Includes(url, "kuaishou.com") then "快手"
    else if Includes(url, "weibo.com") then "微博"
    else UnknownPlatform
  }

  /**
   * The fixed name of each mock record: the three recognised platforms get an
   * "account example" name (ending in 账号示例), the default record does not.
   */
  function MockName(p: Platform): (r: string)
    ensures p != Default <==> |r| >= 4 && r[|r| - 4..] == "账号示例"
  {
    match p
    case Douyin => "抖音账号示例"
    case Bilibili => "B站账号示例"
    case Xiaohongshu => "小红书账号示例"
    case Default => "导入的账号"
  }

  /** `Math.floor(Math.random() * span) + base` yields `base`, …, `base + span - 1`. */
  datatype Draw = Draw(span: nat, base: int) {
    predicate Holds(x: int) { base <= x < base + span }
  }

  /**
   * The follower draw of each mock record: never empty, at least 10000, and
   * always from `base` up to eleven times `base` (exclusive).
   */
  function FollowerDraw(p: Platform): (d: Draw)
    ensures d.span > 0 && d.base >= 10000
    ensures d.span == 10 * d.base
    ensures p == Default <==> d.base == 10000
  {
    match p
    case Douyin => Draw(500000, 50000)
    case Bilibili => Draw(300000, 30000)
    case Xiaohongshu => Draw(200000, 20000)
    case Default => Draw(100000, 10000)
  }

  /** The post-count draw of each mock record: never empty and at least 10. */
  function PostDraw(p: Platform): (d: Draw)
    ensures d.span > 0 && d.base >= 10
    ensures p == Default <==> d.base == 10
  {
    match p
    case Douyin => Draw(200, 50)
    case Bilibili => Draw(150, 30)
    case Xiaohongshu => Draw(100, 20)
    case Default => Draw(80, 10)
  }

  /** What a scrape of `url` may return: the platform's fixed name, the URL itself, counts in the platform's ranges. */
  predicate ScrapedFor(url: string, data: ScrapedAccountData) {
    var p := DetectPlatform(url);
    && data.name == MockName(p)
    && data.platformUrl == url
    && FollowerDraw(p).Holds(data.followerCount)
    && PostDraw(p).Holds(data.totalPosts)
  }

  /**
   * `scrapeAccountData`: picks the record of the detected platform; the two
   * random draws are free choices within their ranges. The artificial delay
   * is not modelled.
   */
  method ScrapeAccountData(url: string) returns (data: ScrapedAccountData)
    ensures ScrapedFor(url, data)
    ensures data.platformUrl == url
  {
    var platform := DetectPlatform(url);
    var followers := FollowerDraw(platform);
    var posts := PostDraw(platform);
    assert followers.Holds(followers.base) && posts.Holds(posts.base);
    var followerCount :| followers.Holds(followerCount);
    var totalPosts :| posts.Holds(totalPosts);
    data := ScrapedAccountData(MockName(platform), followerCount, totalPosts, url);
  }

  // ---------------------------------------------------------------------

  /** A substring of a substring is a substring. */
  lemma IncludesTransitive(a: string, b: string, c: string)
    requires Includes(a, b) && Includes(b, c)
    ensures Includes(a, c)
  {
    var i :| 0 <= i <= |a| - |b| && OccursAt(a, b, i);
    var j :| 0 <= j <= |b| - |c| && OccursAt(b, c, j);
    forall k | 0 <= k < |c|
      ensures a[i + j + k] == c[k]
    {
      assert a[i + j + k] == a[i..i + |b|][j + k] == b[j + k] == b[j..j + |c|][k];
    }
    assert a[i + j..i + j + |c|] == c;
    assert OccursAt(a, c, i + j);
  }

  /**
   * When the parsed hostname occurs verbatim in the URL, every URL the import
   * accepts has a known platform name.
   */
  lemma SupportedHasKnownName(url: string, parseHost: string -> Option<string>)
    requires parseHost(url).Some? ==> Includes(url, parseHost(url).value)
    ensures IsSupportedPlatform(url, parseHost) ==> GetPlatformName(url) != UnknownPlatform
  {
    if IsSupportedPlatform(url, parseHost) {
      var host := parseHost(url).value;
      var i :| 0 <= i < |SupportedDomains| && Includes(host, SupportedDomains[i]);
      IncludesTransitive(url, host, SupportedDomains[i]);
    }
  }

  /** The platform chosen for mock data and the displayed platform name agree. */
  lemma DetectAgreesWithName(url: string)
    ensures DetectPlatform(url) == Douyin <==> GetPlatformName(url) in {"抖音", "TikTok"}
    ensures DetectPlatform(url) == Bilibili <==> GetPlatformName(url) == "哔哩哔哩"
    ensures DetectPlatform(url) == Xiaohongshu <==> GetPlatformName(url) == "小红书"
    ensures DetectPlatform(url) == Default <==> GetPlatformName(url) in {"快手", "微博", UnknownPlatform}
  {
  }

  /** A kuaishou or weibo URL is supported by the allow-list but gets the default mock record. */
  lemma KuaishouWeiboGetDefault(url: string)
    requires Includes(url, "kuaishou.com") || Includes(url, "weibo.com")
    requires !Includes(url, "douyin.com") && !Includes(url, "tiktok.com") && !Includes(url, "bilibili.com")
    requires !Includes(url, "xiaohongshu.com") && !Includes(url, "xhs.com")
    ensures DetectPlatform(url) == Default
    ensures MockName(DetectPlatform(url)) == "导入的账号"
  {
  }

  /** A douyin profile URL whose parsed host is "www.douyin.com" is accepted. */
  lemma DouyinProfileSupported(parseHost: string -> Option<string>)
    requires parseHost("https://www.douyin.com/user/1") == Some("www.douyin.com")
    ensures IsSupportedPlatform("https://www.douyin.com/user/1", parseHost)
  {
    assert OccursAt("www.douyin.com", "douyin.com", 4);
    assert Includes("www.douyin.com", SupportedDomains[0]);
  }
}
