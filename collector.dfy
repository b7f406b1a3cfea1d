/** The news collector (app/predictor/collector.py): RSS feeds and vacancy searches are turned into
    uniform items, concatenated in source order and kept in a time-limited cache under one key.
    Each HTTP fetch is an input: None when the source failed (a non-200 status, a timeout, a
    parse error or any other exception), otherwise the parsed document. */
module Collector {
  import opened Wrappers
  import opened Seqs

  /** A collected item. `title`, `description` and `pubdate` are always present and may hold
      Python's None (None here); `employer` is a key only vacancies have (None here for an RSS
      item, and for a vacancy whose employer name is a JSON null). */
  datatype Item = Item(
    title: Option<string>, description: Option<string>, pubdate: Option<string>,
    employer: Option<string>, source: string)

  /** An XML child element; its text is None when the element is empty. */
  datatype Element = Element(text: Option<string>)

  /** An `<item>` of an RSS document with its `<title>`, `<pubDate>` and `<description>`
      children, each None when missing. */
  datatype XmlItem = XmlItem(title: Option<Element>, pubDate: Option<Element>, description: Option<Element>)

  /** A field of the vacancy JSON: a missing key, a null, or a string. */
  datatype Field = Missing | Null | Text(s: string)

  /** A vacancy of the hh.ru answer: name, snippet.requirement, employer.name, published_at. */
  datatype Vacancy = Vacancy(name: Field, requirement: Field, employerName: Field, publishedAt: Field)

  const CacheKey: string := "all_news"
  const VacancySource: string := "hh.ru"
  const DefaultCacheTtl: int := 3600

  /** `element.text if element is not None else ''`. */
  function TextOr(e: Option<Element>): Option<string> {
    if e.Some? then e.value.text else Some("")
  }

  /** One RSS item: an empty title becomes '', a missing description or date becomes ''; the
      source is the feed URL. */
  function RssItem(url: string, x: XmlItem): (it: Item)
    requires x.title.Some?
    ensures it.title == Some(x.title.value.text.GetOr(""))
    ensures it.description == TextOr(x.description) && it.pubdate == TextOr(x.pubDate)
    ensures it.employer.None? && it.source == url
  {
    Item(Some(x.title.value.text.GetOr("")), TextOr(x.description), TextOr(x.pubDate), None, url)
  }

  /** _fetch_rss: the items that have a title, in document order; a failed fetch gives []. */
  function FetchRss(url: string, response: Option<seq<XmlItem>>): (r: seq<Item>) {
    if response.None? then []
    else FilterMap(response.value, (x: XmlItem) => x.title.Some?,
                   (x: XmlItem) => if x.title.Some? then RssItem(url, x) else Item(None, None, None, None, url))
  }

  /** Every RSS item comes from an `<item>` of the answer that has a title, and every such
      `<item>` yields one; a failed fetch yields nothing. */
  lemma FetchRssMembers(url: string, response: Option<seq<XmlItem>>, it: Item)
    ensures response.None? ==> FetchRss(url, response) == []
    ensures response.Some? ==>
              (it in FetchRss(url, response) <==>
               exists i :: 0 <= i < |response.value| && response.value[i].title.Some?
                           && it == RssItem(url, response.value[i]))
  {
    if response.Some? {
      FilterMapMembers(response.value, (x: XmlItem) => x.title.Some?,
                       (x: XmlItem) => if x.title.Some? then RssItem(url, x) else Item(None, None, None, None, url), it);
    }
  }

  /** `d.get(key, '')` on the vacancy JSON. */
  function FieldOr(f: Field): Option<string> {
    match f
    case Missing => Some("")
    case Null => None
    case Text(s) => Some(s)
  }

  /** One vacancy as an item with source 'hh.ru'. */
  function VacancyItem(v: Vacancy): (it: Item)
    ensures it.source == VacancySource && it.employer == FieldOr(v.employerName)
    ensures it.title == FieldOr(v.name) && it.description == FieldOr(v.requirement)
    ensures it.pubdate == FieldOr(v.publishedAt)
  {
    Item(FieldOr(v.name), FieldOr(v.requirement), FieldOr(v.publishedAt), FieldOr(v.employerName), VacancySource)
  }

  /** _fetch_hh_vacancies: one item per vacancy, in answer order; a failed fetch gives []. */
  function FetchVacancies(response: Option<seq<Vacancy>>): (r: seq<Item>)
    ensures response.None? ==> r == []
    ensures response.Some? ==> |r| == |response.value|
    ensures response.Some? ==> forall i :: 0 <= i < |r| ==> r[i] == VacancyItem(response.value[i])
  {
    if response.None? then [] else seq(|response.value|, i requires 0 <= i < |response.value| => VacancyItem(response.value[i]))
  }

  /** The RSS part of collect_all: every feed's items, feeds in configured order. */
  function RssPart(sources: seq<string>, rss: string -> Option<seq<XmlItem>>): seq<Item> {
    ConcatMap(sources, (u: string) => FetchRss(u, rss(u)))
  }

  /** The vacancy part: every query's items in query order, or nothing when no queries are given. */
  function VacancyPart(queries: Option<seq<string>>, vacancies: string -> Option<seq<Vacancy>>): seq<Item> {
    if queries.Some? && queries.value != [] then ConcatMap(queries.value, (q: string) => FetchVacancies(vacancies(q)))
    else []
  }

  /** What a cache miss collects: the RSS items followed by the vacancy items. */
  function Collected(sources: seq<string>, rss: string -> Option<seq<XmlItem>>,
                     queries: Option<seq<string>>, vacancies: string -> Option<seq<Vacancy>>): seq<Item>
  {
    RssPart(sources, rss) + VacancyPart(queries, vacancies)
  }

  /** An item is collected exactly when one feed or one vacancy search returned it. */
  lemma CollectedMembers(sources: seq<string>, rss: string -> Option<seq<XmlItem>>,
                         queries: Option<seq<string>>, vacancies: string -> Option<seq<Vacancy>>, it: Item)
    ensures it in Collected(sources, rss, queries, vacancies) <==>
              (exists i :: 0 <= i < |sources| && it in FetchRss(sources[i], rss(sources[i])))
              || (queries.Some? && exists j :: 0 <= j < |queries.value| && it in FetchVacancies(vacancies(queries.value[j])))
  {
    ConcatMapMembers(sources, (u: string) => FetchRss(u, rss(u)), it);
    if queries.Some? && queries.value != [] {
      ConcatMapMembers(queries.value, (q: string) => FetchVacancies(vacancies(q)), it);
    }
  }

  /** The cache test on a cache value: the key is present and younger than the TTL, strictly. */
  predicate CacheValid(cache: map<string, (real, seq<Item>)>, ttl: int, key: string, now: real) {
    key in cache && now - cache[key].0 < ttl as real
  }

  class NewsCollector {
    var sources: seq<string>
    var cacheTtl: int
    var cache: map<string, (real, seq<Item>)>

    constructor (sources: seq<string>, cacheTtl: int)
      ensures this.sources == sources && this.cacheTtl == cacheTtl && cache == map[]
    {
      this.sources := sources;
      this.cacheTtl := cacheTtl;
      cache := map[];
    }

    /** _is_cache_valid at time `now` (seconds). */
    predicate IsCacheValid(key: string, now: real)
      reads this
    {
      CacheValid(cache, cacheTtl, key, now)
    }

    /** collect_all: the cached list while it is fresh at `checkTime`; otherwise every source is
        fetched, and the result is stored under "all_news" with `storeTime`, even when empty. */
    method CollectAll(checkTime: real, storeTime: real, rss: string -> Option<seq<XmlItem>>,
                      vacancyQueries: Option<seq<string>>, vacancies: string -> Option<seq<Vacancy>>)
      returns (items: seq<Item>)
      modifies this
      ensures sources == old(sources) && cacheTtl == old(cacheTtl)
      ensures old(IsCacheValid(CacheKey, checkTime)) ==> items == old(cache)[CacheKey].1 && cache == old(cache)
      ensures !old(IsCacheValid(CacheKey, checkTime)) ==>
                items == Collected(sources, rss, vacancyQueries, vacancies)
                && cache == old(cache)[CacheKey := (storeTime, items)]
    {
      if IsCacheValid(CacheKey, checkTime) {
        items := cache[CacheKey].1;
        return;
      }
      var allItems: seq<Item> := [];
      var i := 0;
      while i < |sources|
        invariant 0 <= i <= |sources|
        invariant allItems == RssPart(sources[..i], rss)
        invariant unchanged(this)
      {
        ConcatMapAppend(sources[..i], sources[i], (u: string) => FetchRss(u, rss(u)));
        assert sources[..i + 1] == sources[..i] + [sources[i]];
        allItems := allItems + FetchRss(sources[i], rss(sources[i]));
        i := i + 1;
      }
      assert sources[..i] == sources;
      if vacancyQueries.Some? && vacancyQueries.value != [] {
        var queries := vacancyQueries.value;
        var rssItems := allItems;
        var j := 0;
        while j < |queries|
          invariant 0 <= j <= |queries|
          invariant allItems == rssItems + ConcatMap(queries[..j], (q: string) => FetchVacancies(vacancies(q)))
          invariant unchanged(this)
        {
          ConcatMapAppend(queries[..j], queries[j], (q: string) => FetchVacancies(vacancies(q)));
          assert queries[..j + 1] == queries[..j] + [queries[j]];
          allItems := allItems + FetchVacancies(vacancies(queries[j]));
          j := j + 1;
        }
        assert queries[..j] == queries;
      }
      cache := cache[CacheKey := (storeTime, allItems)];
      items := allItems;
    }
  }
}
