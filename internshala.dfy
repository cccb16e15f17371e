/**
 * The Internshala fetcher of the job aggregator backend: the search URL, the two result
 * pages it requests and the record it builds from each listing card, plus the stub
 * fetchers of the other boards. The HTTP request and the HTML parsing are an input
 * `get`: for a URL it gives the parsed cards of a 200 response, or nothing when the
 * status is not 200 or the request raises. Python's `None` and `""` are both falsy in
 * every test here, so an absent role, location or type is the empty string.
 */
module Internshala {
  import opened Wrappers
  import opened Text

  const BaseUrl := "https://internshala.com/internships/"
  const SiteUrl := "https://internshala.com"

  /** The path after the base URL for each combination of location and role. */
  function SearchPath(role: string, location: string): string {
    if location != "" && role != "" then location + "-internship/jobs/" + role
    else if location != "" then location + "-internship"
    else if role != "" then "work-from-home-" + role + "-internship"
    else "work-from-home-internship"
  }

  function SearchUrl(role: string, location: string): string {
    BaseUrl + SearchPath(role, location)
  }

  /** Every search URL is on the internships listing, and the four cases give the four documented shapes. */
  lemma SearchUrlCases(role: string, location: string)
    ensures StartsWith(SearchUrl(role, location), BaseUrl)
    ensures location != "" && role != "" ==> SearchUrl(role, location) == BaseUrl + (location + "-internship/jobs/" + role)
    ensures location != "" && role == "" ==> SearchUrl(role, location) == BaseUrl + (location + "-internship")
    ensures location == "" && role != "" ==> SearchUrl(role, location) == BaseUrl + ("work-from-home-" + role + "-internship")
    ensures location == "" && role == "" ==> SearchUrl(role, location) == BaseUrl + "work-from-home-internship"
  {
    assert (BaseUrl + SearchPath(role, location))[..|BaseUrl|] == BaseUrl;
  }

  /** Page 1 is the search URL itself; later pages append `/page-<n>`. */
  function PageUrl(url: string, page: nat): string {
    url + (if page > 1 then "/page-" + Decimal(page) else "")
  }

  /** The two URLs requested. */
  lemma PageUrls(url: string)
    ensures PageUrl(url, 1) == url
    ensures PageUrl(url, 2) == url + "/page-2"
  {
    assert Decimal(2) == "2";
  }

  /**
   * The tags of one listing card: the raw text of each tag that is present, and the
   * `href` of the detail link when the tag is present and has one.
   */
  datatype Card = Card(
    title: Option<string>, company: Option<string>, href: Option<string>,
    description: Option<string>, stipend: Option<string>, startDate: Option<string>,
    duration: Option<string>)

  datatype Record = Record(
    title: string, company: string, location: string, jobType: string, link: string,
    description: string, stipend: string, startDate: string, duration: string)

  /** The stripped tag text, or the default when the tag is missing. */
  function TagText(tag: Option<string>, default: string): string {
    match tag
    case Some(text) => Trim(text)
    case None => default
  }

  /** The record appended for one card. */
  function FromCard(card: Card, location: string, jobType: string): Record {
    Record(
      TagText(card.title, "N/A"),
      TagText(card.company, "N/A"),
      if location != "" then location else "N/A",
      if jobType != "" then jobType else "Internship",
      match card.href case Some(h) => SiteUrl + h case None => "",
      TagText(card.description, ""),
      TagText(card.stipend, ""),
      TagText(card.startDate, ""),
      TagText(card.duration, ""))
  }

  /**
   * A missing title or company becomes "N/A", any other missing tag the empty string;
   * the link is built only from an `href`; the location and type fall back to "N/A"
   * and "Internship".
   */
  lemma CardDefaults(card: Card, location: string, jobType: string)
    ensures var r := FromCard(card, location, jobType);
      (card.title.None? ==> r.title == "N/A")
      && (card.company.None? ==> r.company == "N/A")
      && (card.title.Some? ==> r.title == Trim(card.title.value))
      && (card.description.None? ==> r.description == "")
      && (card.stipend.None? ==> r.stipend == "")
      && (card.startDate.None? ==> r.startDate == "")
      && (card.duration.None? ==> r.duration == "")
      && (card.href.None? <==> r.link == "")
      && (card.href.Some? ==> r.link == SiteUrl + card.href.value)
      && r.location == (if location != "" then location else "N/A")
      && r.jobType == (if jobType != "" then jobType else "Internship")
  {
  }

  /** The records of a list of cards, in card order. */
  function Records(cards: seq<Card>, location: string, jobType: string): (rs: seq<Record>)
    ensures |rs| == |cards|
    decreases |cards|
  {
    if cards == [] then []
    else Records(cards[..|cards| - 1], location, jobType) + [FromCard(cards[|cards| - 1], location, jobType)]
  }

  /** Extending the cards by one extends the records by that card's record. */
  lemma RecordsSnoc(cards: seq<Card>, i: nat, location: string, jobType: string)
    requires i < |cards|
    ensures Records(cards[..i + 1], location, jobType) == Records(cards[..i], location, jobType) + [FromCard(cards[i], location, jobType)]
  {
    assert cards[..i + 1][..i] == cards[..i];
  }

  /** The records of each card, one for one. */
  lemma {:induction false} RecordsAreFromCards(cards: seq<Card>, location: string, jobType: string)
    ensures forall k :: 0 <= k < |cards| ==> Records(cards, location, jobType)[k] == FromCard(cards[k], location, jobType)
    decreases |cards|
  {
    if cards != [] {
      RecordsAreFromCards(cards[..|cards| - 1], location, jobType);
      assert forall k :: 0 <= k < |cards| - 1 ==> cards[..|cards| - 1][k] == cards[k];
    }
  }

  /** The records the page at `url` contributes: none when it fails. */
  function RecordsAt(get: string -> Option<seq<Card>>, url: string, location: string, jobType: string): seq<Record> {
    match get(url)
    case None => []
    case Some(cards) => Records(cards, location, jobType)
  }

  /** The records of the pages at `urls`, in order. */
  function RecordsFrom(get: string -> Option<seq<Card>>, urls: seq<string>, location: string, jobType: string): seq<Record>
    decreases |urls|
  {
    if urls == [] then []
    else RecordsFrom(get, urls[..|urls| - 1], location, jobType) + RecordsAt(get, urls[|urls| - 1], location, jobType)
  }

  /** What `fetch_internshala` returns: the records of page 1, then those of page 2. */
  function Fetched(get: string -> Option<seq<Card>>, role: string, location: string, jobType: string): seq<Record> {
    var url := SearchUrl(role, location);
    RecordsAt(get, PageUrl(url, 1), location, jobType) + RecordsAt(get, PageUrl(url, 2), location, jobType)
  }

  /** The search URL, built with `+=` across the branches as the source does. */
  method BuildSearchUrl(role: string, location: string) returns (url: string)
    ensures url == SearchUrl(role, location)
  {
    url := BaseUrl;
    if location != "" && role != "" {
      url := url + (location + "-internship/jobs/" + role);
    } else if location != "" {
      url := url + (location + "-internship");
    } else if role != "" {
      url := url + ("work-from-home-" + role + "-internship");
    } else {
      url := url + "work-from-home-internship";
    }
  }

  /** The inner loop: one record appended per card, in order. */
  method AppendCards(jobs: seq<Record>, cards: seq<Card>, location: string, jobType: string)
    returns (result: seq<Record>)
    ensures result == jobs + Records(cards, location, jobType)
  {
    result := jobs;
    var i := 0;
    while i < |cards|
      invariant 0 <= i <= |cards|
      invariant result == jobs + Records(cards[..i], location, jobType)
    {
      RecordsSnoc(cards, i, location, jobType);
      result := result + [FromCard(cards[i], location, jobType)];
      i := i + 1;
    }
    assert cards[..|cards|] == cards;
  }

  /** The page loop: pages 1 and 2 of `url` requested in order, each card of a successful page appended. */
  method FetchPages(url: string, location: string, jobType: string, get: string -> Option<seq<Card>>)
    returns (jobs: seq<Record>, requested: seq<string>)
    ensures requested == [PageUrl(url, 1), PageUrl(url, 2)]
    ensures jobs == RecordsFrom(get, requested, location, jobType)
  {
    ghost var pages := [PageUrl(url, 1), PageUrl(url, 2)];
    jobs, requested := [], [];
    var page := 1;
    while page < 3
      invariant 1 <= page <= 3
      invariant requested == pages[..page - 1]
      invariant jobs == RecordsFrom(get, requested, location, jobType)
    {
      var pagedUrl := url + (if page > 1 then "/page-" + Decimal(page) else "");
      assert pagedUrl == pages[page - 1];
      assert pages[..page] == pages[..page - 1] + [pagedUrl];
      requested := requested + [pagedUrl];
      var response := get(pagedUrl);
      if response.Some? {
        jobs := AppendCards(jobs, response.value, location, jobType);
      }
      assert requested[..|requested| - 1] == pages[..page - 1];
      page := page + 1;
    }
    assert pages[..2] == pages;
  }

  /** `fetch_internshala`: the search URL, then its two pages. */
  method FetchInternshala(role: string, location: string, jobType: string, get: string -> Option<seq<Card>>)
    returns (jobs: seq<Record>, requested: seq<string>)
    ensures jobs == Fetched(get, role, location, jobType)
    ensures requested == [SearchUrl(role, location), SearchUrl(role, location) + "/page-2"]
  {
    var url := BuildSearchUrl(role, location);
    jobs, requested := FetchPages(url, location, jobType, get);
    PageUrls(url);
    assert requested[..1] == [requested[0]] && requested[..1][..0] == [];
    assert RecordsFrom(get, requested[..1], location, jobType) == RecordsAt(get, requested[0], location, jobType);
  }

  /**
   * Every fetched record carries the requested location (or "N/A") and type (or
   * "Internship"), and a link that is empty or on the Internshala site.
   */
  lemma {:induction false} FetchedRecordsShape(get: string -> Option<seq<Card>>, role: string, location: string, jobType: string)
    ensures forall r :: r in Fetched(get, role, location, jobType) ==>
      r.location == (if location != "" then location else "N/A")
      && r.jobType == (if jobType != "" then jobType else "Internship")
      && (r.link == "" || StartsWith(r.link, SiteUrl))
  {
    var url := SearchUrl(role, location);
    forall page: nat | page == 1 || page == 2
      ensures forall r :: r in RecordsAt(get, PageUrl(url, page), location, jobType) ==>
        r.location == (if location != "" then location else "N/A")
        && r.jobType == (if jobType != "" then jobType else "Internship")
        && (r.link == "" || StartsWith(r.link, SiteUrl))
    {
      var response := get(PageUrl(url, page));
      if response.Some? {
        RecordsAreFromCards(response.value, location, jobType);
        forall r | r in RecordsAt(get, PageUrl(url, page), location, jobType)
          ensures r.link == "" || StartsWith(r.link, SiteUrl)
        {
          var k :| 0 <= k < |response.value| && Records(response.value, location, jobType)[k] == r;
          var card := response.value[k];
          CardDefaults(card, location, jobType);
          if card.href.Some? {
            assert (SiteUrl + card.href.value)[..|SiteUrl|] == SiteUrl;
          }
        }
      }
    }
  }

  /** One record per card of each page that answered, and none when both fail. */
  lemma FetchedCount(get: string -> Option<seq<Card>>, role: string, location: string, jobType: string)
    ensures var url := SearchUrl(role, location);
      |Fetched(get, role, location, jobType)|
        == (match get(PageUrl(url, 1)) case None => 0 case Some(c) => |c|)
         + (match get(PageUrl(url, 2)) case None => 0 case Some(c) => |c|)
  {
  }

  /** `fetch_glassdoor`, `fetch_linkedin`, `fetch_indeed`: not implemented, no records. */
  function FetchGlassdoor(role: string, location: string, jobType: string): (r: seq<Record>)
    ensures r == []
  {
    []
  }

  function FetchLinkedin(role: string, location: string, jobType: string): (r: seq<Record>)
    ensures r == []
  {
    []
  }

  function FetchIndeed(role: string, location: string, jobType: string): (r: seq<Record>)
    ensures r == []
  {
    []
  }
}
