/** The feed spiders of the crawler: their presets and the ingest of one fetched feed.
    What the network and the text-analysis libraries give back is an input: each item's
    fetched page (or None when fetching it failed), and a function giving the keyword list
    and the top-ranked sentences of a body text. One clock reading stands for every time.Now. */
module Crawler {
  import opened Wrappers
  import opened Strings
  import Utils
  import Models

  const TopStories := "Top stories"
  const PoliticsCategory := "Politics"
  const WorldCategory := "World"
  const SportsCategory := "Sports"
  const BusinessCategory := "Business"
  const LifestyleCategory := "Lifestyle"
  const EntertainmentCategory := "Entertainment"
  const TechCategory := "Tech"
  const AfricaCategory := "Africa"

  /** A feed URL and the category its articles are filed under. */
  datatype Link = Link(category: string, url: string)

  /** link.String */
  function LinkString(l: Link): string {
    l.category + ": " + l.url
  }

  /** The category and the URL can be read back from a link's String when the category has no ':'. */
  lemma LinkStringSplit(l: Link)
    requires ':' !in l.category
    ensures Split(LinkString(l), ':')[0] == l.category
  {
    assert LinkString(l) == l.category + [':'] + (" " + l.url);
    SplitAfter(l.category, ':', " " + l.url);
  }

  /** A feed item as the feed parser gives it; `author` is the author's name when the feed has one. */
  datatype FeedItem = FeedItem(title: string, guid: string, description: string, link: string,
                               published: Option<Models.Time>, author: Option<string>)

  /** A fetched page: its <meta> elements, and the text of the elements a selector picks. */
  datatype Page = Page(tags: seq<Utils.MetaTag>, select: string -> string)

  /** The ranked sentences asked for number at most three. */
  type Ranked = r: seq<string> | |r| <= 3

  /** What the text analysis of a body finds: the keywords and the top-ranked sentences. */
  datatype Analysis = Analysis(words: seq<string>, ranked: Ranked)

  /** TextAnalysis.Tags: the keywords without repeats. */
  function Tags(ta: Analysis): seq<string> {
    Utils.Distinct(ta.words)
  }

  /** Sentences(3): three slots filled with the ranked sentences, then trimmed, empty ones dropped. */
  function Sentences(ta: Analysis): seq<string> {
    Utils.TrimmedNonEmpty(ta.ranked + seq(3 - |ta.ranked|, _ => ""))
  }

  /** At most three summary sentences, none empty. */
  lemma SentencesSpec(ta: Analysis)
    ensures |Sentences(ta)| <= 3
    ensures forall i :: 0 <= i < |Sentences(ta)| ==> Sentences(ta)[i] != "" && Trimmed(Sentences(ta)[i])
  {
    Utils.TrimmedNonEmptyClean(ta.ranked + seq(3 - |ta.ranked|, _ => ""));
  }

  /** The spider settings the ingest reads: the domain, the UseMetaDesc value and the body selector. */
  datatype Settings = Settings(domain: string, useMetaDesc: Utils.Value, selector: string)

  /** The og: metadata of a page. */
  function Meta(p: Page): map<string, Utils.Value> {
    Utils.MetaTags(p.tags, "og:")
  }

  /** The article an item becomes, before its topic is set, or None when the item is skipped:
      the page did not load, it has no og:image, UseMetaDesc is true and it has no og:description,
      or the selected body text is empty. */
  function Draft(c: Settings, item: FeedItem, page: Option<Page>, analyze: (string, string) -> Analysis,
                 now: Models.Time): Option<Models.Article>
  {
    if page.None? then None
    else
      var meta := Meta(page.value);
      Utils.MetaTagsClean(page.value.tags, "og:");
      var img := Utils.Lookup(meta, "image", Utils.Nil);
      if img == Utils.Nil then None
      else if c.useMetaDesc == Utils.Bool(true) && Utils.Lookup(meta, "description", Utils.Nil) == Utils.Nil then None
      else
        var desc := if c.useMetaDesc == Utils.Bool(true) then Utils.Lookup(meta, "description", Utils.Nil).s else item.description;
        var body := page.value.select(c.selector);
        if body == "" then None
        else
          var ta := analyze(body, desc);
          var a := Models.NewArticle(item.title, item.guid, desc, item.link, c.domain, img.s, item.published, Tags(ta), now);
          Some(a.(author := if item.author.Some? then item.author.value else a.author, summary := Sentences(ta)))
  }

  /** The four skips, as reasons: nothing else stops an item. */
  lemma DraftSkips(c: Settings, item: FeedItem, page: Option<Page>, analyze: (string, string) -> Analysis, now: Models.Time)
    ensures Draft(c, item, page, analyze, now).None? <==>
      page.None? || "image" !in Meta(page.value) ||
      (c.useMetaDesc == Utils.Bool(true) && "description" !in Meta(page.value)) ||
      page.value.select(c.selector) == ""
  {
    if page.Some? {
      Utils.MetaTagsClean(page.value.tags, "og:");
    }
  }

  /** A drafted article: ID = GUID, the spider's domain, a non-empty image from og:image, the
      description from og:description when UseMetaDesc is true and the feed's otherwise, the
      author only when the feed names one, distinct tags and at most three summary sentences. */
  lemma DraftSpec(c: Settings, item: FeedItem, page: Option<Page>, analyze: (string, string) -> Analysis, now: Models.Time)
    requires Draft(c, item, page, analyze, now).Some?
    ensures var a := Draft(c, item, page, analyze, now).value; var meta := Meta(page.value);
      a.id == item.guid && a.title == item.title && a.link == item.link && a.domain == c.domain &&
      "image" in meta && meta["image"].Str? && a.image == meta["image"].s && a.image != "" &&
      (c.useMetaDesc == Utils.Bool(true) ==> "description" in meta && meta["description"].Str? && a.description == meta["description"].s) &&
      (c.useMetaDesc != Utils.Bool(true) ==> a.description == item.description) &&
      a.author == (if item.author.Some? then item.author.value else "") &&
      a.published == item.published && a.topicKey == None &&
      |a.summary| <= 3 && Utils.NoDuplicates(a.tags)
  {
    Utils.MetaTagsClean(page.value.tags, "og:");
    var meta := Meta(page.value);
    var desc := if c.useMetaDesc == Utils.Bool(true) then meta["description"].s else item.description;
    var ta := analyze(page.value.select(c.selector), desc);
    SentencesSpec(ta);
    Utils.DistinctSpec(ta.words);
  }

  /** The drafted article with its topic set: the topic of the link's category, created when missing. */
  function Filed(s: Models.Store, l: Link, a: Models.Article, now: Models.Time): (r: (Models.Store, Models.Article))
    requires Models.Valid(s)
    ensures Models.Valid(r.0)
  {
    var (s1, t) := Models.GetOrCreate(s, l.category, [], now);
    (s1, a.(topicKey := Some(Models.TopicKey(t))))
  }

  /** One item of the loop in process: a skipped item changes nothing; otherwise the counter
      rises when the lookup of its GUID fails, and the article is saved either way. */
  function Step(c: Settings, l: Link, item: FeedItem, page: Option<Page>, analyze: (string, string) -> Analysis,
                s: Models.Store, ops: nat, now: Models.Time): (r: (Models.Store, nat))
    requires Models.Valid(s)
    ensures Models.Valid(r.0)
  {
    match Draft(c, item, page, analyze, now)
    case None => (s, ops)
    case Some(a) =>
      var (s1, art) := Filed(s, l, a, now);
      var ops1 := if Models.GetArticle(s1, art.id).Failure? then ops + 1 else ops;
      (Models.Saved(s1, Models.ArticleEntity(art), now).0, ops1)
  }

  /** The items of a feed processed in feed order. */
  function ProcessAll(c: Settings, l: Link, items: seq<FeedItem>, pages: seq<Option<Page>>,
                      analyze: (string, string) -> Analysis, s: Models.Store, ops: nat, now: Models.Time): (r: (Models.Store, nat))
    requires |pages| == |items| && Models.Valid(s)
    ensures Models.Valid(r.0)
    decreases |items|
  {
    if items == [] then (s, ops)
    else
      var n := |items| - 1;
      var (s', ops') := ProcessAll(c, l, items[..n], pages[..n], analyze, s, ops, now);
      Step(c, l, items[n], pages[n], analyze, s', ops', now)
  }

  /** The store holds an article under the key. */
  predicate HasArticle(s: Models.Store, k: Models.Key) {
    k in s.rows && s.rows[k].ArticleEntity?
  }

  /** A published item is filed under the topic of the link's category, the counter rises exactly
      when no article was stored under its GUID, and afterwards its article is stored under the
      GUID's key with Updated set. */
  lemma StepSpec(c: Settings, l: Link, item: FeedItem, page: Option<Page>, analyze: (string, string) -> Analysis,
                 s: Models.Store, ops: nat, now: Models.Time)
    requires Models.Valid(s) && item.guid != ""
    ensures var (s', ops') := Step(c, l, item, page, analyze, s, ops, now);
      var k := Models.NameKey(Models.ArticleKind, item.guid);
      if Draft(c, item, page, analyze, now).None? then s' == s && ops' == ops
      else
        ops' == (if HasArticle(s, k) then ops else ops + 1) && HasArticle(s', k) &&
        s'.rows[k].article.topicKey == Some(Models.GetTopicKey(l.category)) &&
        s'.rows[k].article.updated == Some(now) &&
        s'.rows[k].article.(topicKey := None, created := Some(now), updated := None) == Draft(c, item, page, analyze, now).value
  {
    match Draft(c, item, page, analyze, now)
    case None =>
    case Some(a) =>
      var k := Models.NameKey(Models.ArticleKind, item.guid);
      DraftSpec(c, item, page, analyze, now);
      Models.GetOrCreateTouchesTopicsOnly(s, l.category, [], now);
      var (s1, art) := Filed(s, l, a, now);
      assert HasArticle(s1, k) == HasArticle(s, k);
      Models.ArticleKeySpec(art);
      Models.SavedSpec(s1, Models.ArticleEntity(art), now);
  }

  /** Saving an article of another GUID, or filing a topic, leaves a stored article stored. */
  lemma StepKeepsArticles(c: Settings, l: Link, item: FeedItem, page: Option<Page>, analyze: (string, string) -> Analysis,
                          s: Models.Store, ops: nat, now: Models.Time, k: Models.Key)
    requires Models.Valid(s) && HasArticle(s, k) && k.kind == Models.ArticleKind
    ensures HasArticle(Step(c, l, item, page, analyze, s, ops, now).0, k)
  {
    match Draft(c, item, page, analyze, now)
    case None =>
    case Some(a) =>
      Models.GetOrCreateTouchesTopicsOnly(s, l.category, [], now);
      var (s1, art) := Filed(s, l, a, now);
      Models.SavedSpec(s1, Models.ArticleEntity(art), now);
  }

  lemma {:induction false} ProcessAllKeepsArticles(c: Settings, l: Link, items: seq<FeedItem>, pages: seq<Option<Page>>,
                                                   analyze: (string, string) -> Analysis, s: Models.Store, ops: nat,
                                                   now: Models.Time, k: Models.Key)
    requires |pages| == |items| && Models.Valid(s) && HasArticle(s, k) && k.kind == Models.ArticleKind
    ensures HasArticle(ProcessAll(c, l, items, pages, analyze, s, ops, now).0, k)
    decreases |items|
  {
    if items != [] {
      var n := |items| - 1;
      ProcessAllKeepsArticles(c, l, items[..n], pages[..n], analyze, s, ops, now, k);
      var (s', ops') := ProcessAll(c, l, items[..n], pages[..n], analyze, s, ops, now);
      StepKeepsArticles(c, l, items[n], pages[n], analyze, s', ops', now, k);
    }
  }

  /** Every item that is not skipped ends up stored under its GUID. */
  lemma {:induction false} ProcessAllStores(c: Settings, l: Link, items: seq<FeedItem>, pages: seq<Option<Page>>,
                                            analyze: (string, string) -> Analysis, s: Models.Store, ops: nat,
                                            now: Models.Time, i: int)
    requires |pages| == |items| && Models.Valid(s) && 0 <= i < |items| && items[i].guid != ""
    requires Draft(c, items[i], pages[i], analyze, now).Some?
    ensures HasArticle(ProcessAll(c, l, items, pages, analyze, s, ops, now).0, Models.NameKey(Models.ArticleKind, items[i].guid))
    decreases |items|
  {
    var n := |items| - 1;
    var (s', ops') := ProcessAll(c, l, items[..n], pages[..n], analyze, s, ops, now);
    if i == n {
      StepSpec(c, l, items[n], pages[n], analyze, s', ops', now);
    } else {
      assert items[..n][i] == items[i] && pages[..n][i] == pages[i];
      ProcessAllStores(c, l, items[..n], pages[..n], analyze, s, ops, now, i);
      StepKeepsArticles(c, l, items[n], pages[n], analyze, s', ops', now, Models.NameKey(Models.ArticleKind, items[i].guid));
    }
  }

  /** When every item that is not skipped already has its article stored, the counter does not move. */
  lemma {:induction false} ProcessAllKnown(c: Settings, l: Link, items: seq<FeedItem>, pages: seq<Option<Page>>,
                                           analyze: (string, string) -> Analysis, s: Models.Store, ops: nat, now: Models.Time)
    requires |pages| == |items| && Models.Valid(s)
    requires forall i :: 0 <= i < |items| ==> items[i].guid != ""
    requires forall i :: 0 <= i < |items| && Draft(c, items[i], pages[i], analyze, now).Some? ==>
      HasArticle(s, Models.NameKey(Models.ArticleKind, items[i].guid))
    ensures ProcessAll(c, l, items, pages, analyze, s, ops, now).1 == ops
    decreases |items|
  {
    if items != [] {
      var n := |items| - 1;
      assert forall i :: 0 <= i < n ==> items[..n][i] == items[i] && pages[..n][i] == pages[i];
      ProcessAllKnown(c, l, items[..n], pages[..n], analyze, s, ops, now);
      var (s', ops') := ProcessAll(c, l, items[..n], pages[..n], analyze, s, ops, now);
      StepSpec(c, l, items[n], pages[n], analyze, s', ops', now);
      if Draft(c, items[n], pages[n], analyze, now).Some? {
        ProcessAllKeepsArticles(c, l, items[..n], pages[..n], analyze, s, ops, now, Models.NameKey(Models.ArticleKind, items[n].guid));
      }
    }
  }

  /** Deduplication is by GUID: processing the same feed again against the updated store
      counts no new article. */
  lemma ReprocessCountsNothing(c: Settings, l: Link, items: seq<FeedItem>, pages: seq<Option<Page>>,
                               analyze: (string, string) -> Analysis, s: Models.Store, ops: nat, now: Models.Time, later: nat)
    requires |pages| == |items| && Models.Valid(s)
    requires forall i :: 0 <= i < |items| ==> items[i].guid != ""
    ensures var (s', _) := ProcessAll(c, l, items, pages, analyze, s, ops, now);
      ProcessAll(c, l, items, pages, analyze, s', later, now).1 == later
  {
    var (s', _) := ProcessAll(c, l, items, pages, analyze, s, ops, now);
    forall i | 0 <= i < |items| && Draft(c, items[i], pages[i], analyze, now).Some?
      ensures HasArticle(s', Models.NameKey(Models.ArticleKind, items[i].guid))
    {
      ProcessAllStores(c, l, items, pages, analyze, s, ops, now, i);
    }
    ProcessAllKnown(c, l, items, pages, analyze, s', later, now);
  }

  /** Processing a feed in two parts is processing the first part and then the second. */
  lemma {:induction false} ProcessAllAppend(c: Settings, l: Link, items: seq<FeedItem>, pages: seq<Option<Page>>,
                                            more: seq<FeedItem>, morePages: seq<Option<Page>>,
                                            analyze: (string, string) -> Analysis, s: Models.Store, ops: nat, now: Models.Time)
    requires |pages| == |items| && |morePages| == |more| && Models.Valid(s)
    ensures var p := ProcessAll(c, l, items, pages, analyze, s, ops, now);
      ProcessAll(c, l, items + more, pages + morePages, analyze, s, ops, now) == ProcessAll(c, l, more, morePages, analyze, p.0, p.1, now)
    decreases |more|
  {
    if more == [] {
      assert items + more == items && pages + morePages == pages;
    } else {
      var n := |more| - 1;
      var all, allPages := items + more, pages + morePages;
      ProcessAllAppend(c, l, items, pages, more[..n], morePages[..n], analyze, s, ops, now);
      assert all[..|all| - 1] == items + more[..n];
      assert allPages[..|all| - 1] == pages + morePages[..n];
      assert all[|all| - 1] == more[n] && allPages[|all| - 1] == morePages[n];
      var q := ProcessAll(c, l, items + more[..n], pages + morePages[..n], analyze, s, ops, now);
      assert ProcessAll(c, l, all, allPages, analyze, s, ops, now) == Step(c, l, more[n], morePages[n], analyze, q.0, q.1, now);
    }
  }

  /** An item whose page did not load is skipped alone: the rest of the feed is processed as if it were absent. */
  lemma FailedFetchSkipsOnlyIt(c: Settings, l: Link, items: seq<FeedItem>, pages: seq<Option<Page>>,
                               analyze: (string, string) -> Analysis, s: Models.Store, ops: nat, now: Models.Time, i: int)
    requires |pages| == |items| && Models.Valid(s) && 0 <= i < |items| && pages[i].None?
    ensures ProcessAll(c, l, items, pages, analyze, s, ops, now) ==
      ProcessAll(c, l, items[..i] + items[i + 1..], pages[..i] + pages[i + 1..], analyze, s, ops, now)
  {
    var head, tail := items[..i], items[i + 1..];
    var hp, tp := pages[..i], pages[i + 1..];
    assert items == (head + [items[i]]) + tail && pages == (hp + [pages[i]]) + tp;
    ProcessAllAppend(c, l, head + [items[i]], hp + [pages[i]], tail, tp, analyze, s, ops, now);
    ProcessAllAppend(c, l, head, hp, [items[i]], [pages[i]], analyze, s, ops, now);
    ProcessAllAppend(c, l, head, hp, tail, tp, analyze, s, ops, now);
    var (s1, o1) := ProcessAll(c, l, head, hp, analyze, s, ops, now);
    assert ProcessAll(c, l, [items[i]], [pages[i]], analyze, s1, o1, now) == (s1, o1) by {
      assert [items[i]][..0] == [] && [pages[i]][..0] == [];
    }
  }

  /** A spider preset: name, domain, feeds and the two settings. */
  datatype Preset = Preset(name: string, domain: string, links: seq<Link>, useMetaDesc: bool, bodySelector: string)

  const BBC := Preset("bbc", "bbc.com",
    [Link(AfricaCategory, "http://feeds.bbci.co.uk/news/world/africa/rss.xml"),
     Link(WorldCategory, "http://feeds.bbci.co.uk/news/world/rss.xml")], false, ".story-body__inner p")

  const Citinews := Preset("citinewsroom", "citinewsroom.com",
    [Link(TopStories, "https://citinewsroom.com/ghana-news/top-stories/feed/"),
     Link(PoliticsCategory, "https://citinewsroom.com/ghana-news/politics/feed/"),
     Link(SportsCategory, "https://citinewsroom.com/ghana-news/sports/feed/"),
     Link(BusinessCategory, "https://citinewsroom.com/ghana-news/business/feed/"),
     Link(EntertainmentCategory, "https://citinewsroom.com/ghana-news/showbiz/feed/")], true, ".entry-content p")

  const Ghanaweb := Preset("ghanaweb", "ghanaweb.com",
    [Link(TopStories, "https://cdn.ghanaweb.com/feed/newsfeed.xml"),
     Link(SportsCategory, "https://cdn.ghanaweb.com/feed/soccerfeed.xml"),
     Link(SportsCategory, "https://cdn.ghanaweb.com/feed/other_sportsfeed.xml"),
     Link(EntertainmentCategory, "https://cdn.ghanaweb.com/feed/entertainmentfeed.xml")], false, "#medsection1 > p:nth-child(8)")

  const Modernghana := Preset("modernghana", "modernghana.com",
    [Link(TopStories, "https://rss.modernghana.com/news.xml?cat_id=1&group_id=1"),
     Link(PoliticsCategory, "https://rss.modernghana.com/news.xml?cat_id=1&group_id=5"),
     Link(SportsCategory, "https://rss.modernghana.com/news.xml?cat_id=2"),
     Link(BusinessCategory, "https://rss.modernghana.com/news.xml?cat_id=1&group_id=6"),
     Link(EntertainmentCategory, "https://rss.modernghana.com/news.xml?cat_id=3"),
     Link(WorldCategory, "https://rss.modernghana.com/news.xml?cat_id=1&group_id=8"),
     Link(AfricaCategory, "https://rss.modernghana.com/news.xml?cat_id=1&group_id=2")], false, ".blog-content p")

  const Pulse := Preset("pulse", "pulse.com.gh", [Link(TopStories, "http://www.pulse.com.gh/rss")], false, ".article_text p")

  const MyjoyOnline := Preset("myjoyonline", "myjoyonline.com",
    [Link(TopStories, "https://www.myjoyonline.com/pages/rss/site_edition.xml"),
     Link(PoliticsCategory, "https://www.myjoyonline.com/pages/rss/site_politics.xml"),
     Link(WorldCategory, "https://www.myjoyonline.com/pages/rss/site_world.xml"),
     Link(SportsCategory, "https://www.myjoyonline.com/pages/rss/site_sports.xml"),
     Link(BusinessCategory, "https://www.myjoyonline.com/pages/rss/site_business.xml"),
     Link(LifestyleCategory, "https://www.myjoyonline.com/pages/rss/site_lifestyle.xml"),
     Link(EntertainmentCategory, "https://www.myjoyonline.com/pages/rss/site_entertainment.xml"),
     Link(TechCategory, "https://www.myjoyonline.com/pages/rss/site_technology.xml")], false, ".article-text p")

  /** The six presets. */
  const Presets := [BBC, Citinews, Ghanaweb, Modernghana, Pulse, MyjoyOnline]

  /** The config map a preset leaves: both settings are set. */
  function PresetConfig(p: Preset): (m: map<string, Utils.Value>)
    ensures "UseMetaDesc" in m && "BodySelector" in m && m["BodySelector"].Str? && m["UseMetaDesc"].Bool?
  {
    map["UseMetaDesc" := Utils.Bool(p.useMetaDesc), "BodySelector" := Utils.Str(p.bodySelector)]
  }

  /** Only citinewsroom reads descriptions from og:description, and the preset names are distinct. */
  lemma PresetsSpec()
    ensures forall i :: 0 <= i < |Presets| ==> (Presets[i].useMetaDesc <==> Presets[i].name == "citinewsroom")
    ensures forall i, j :: 0 <= i < j < |Presets| ==> Presets[i].name != Presets[j].name
    ensures forall i :: 0 <= i < |Presets| ==> Presets[i].links != [] && Presets[i].bodySelector != ""
  {
  }

  /** feedSpider: name, domain, feeds and the config map. */
  class FeedSpider {
    var name: string
    var domain: string
    var links: seq<Link>
    var config: Utils.Map

    /** newFeedSpider: an empty config. */
    constructor (name: string, domain: string, links: seq<Link>)
      ensures this.name == name && this.domain == domain && this.links == links
      ensures fresh(config) && config.entries == map[]
    {
      this.name := name;
      this.domain := domain;
      this.links := links;
      config := new Utils.Map();
    }

    /** The settings process reads from the spider. */
    function Conf(): Settings
      reads this, config
      requires config.Get("BodySelector", Utils.Nil).Str?
    {
      Settings(domain, config.Get("UseMetaDesc", Utils.Nil), config.Get("BodySelector", Utils.Nil).s)
    }

    /** process for one fetched feed: the items in feed order, each either skipped or saved;
        `ops` is the crawler's counter of new articles. */
    method Process(l: Link, items: seq<FeedItem>, pages: seq<Option<Page>>, analyze: (string, string) -> Analysis,
                   s: Models.Store, ops: nat, now: Models.Time) returns (s': Models.Store, ops': nat)
      requires |pages| == |items| && Models.Valid(s)
      requires config.Get("BodySelector", Utils.Nil).Str?
      ensures (s', ops') == ProcessAll(Conf(), l, items, pages, analyze, s, ops, now)
    {
      ghost var c := Conf();
      s', ops' := s, ops;
      var i := 0;
      while i < |items|
        invariant 0 <= i <= |items| && Models.Valid(s')
        invariant (s', ops') == ProcessAll(c, l, items[..i], pages[..i], analyze, s, ops, now)
      {
        assert items[..i + 1][..i] == items[..i] && pages[..i + 1][..i] == pages[..i];
        s', ops' := ProcessItem(l, items[i], pages[i], analyze, s', ops', now);
        i := i + 1;
      }
      assert items[..i] == items && pages[..i] == pages;
    }

    /** The body of the loop in process, for one item. */
    method ProcessItem(l: Link, item: FeedItem, page: Option<Page>, analyze: (string, string) -> Analysis,
                       s: Models.Store, ops: nat, now: Models.Time) returns (s': Models.Store, ops': nat)
      requires Models.Valid(s)
      requires config.Get("BodySelector", Utils.Nil).Str?
      ensures (s', ops') == Step(Conf(), l, item, page, analyze, s, ops, now)
    {
      s', ops' := s, ops;
      var draft := DraftItem(item, page, analyze, now);
      if draft.None? {
        return;
      }
      var article := draft.value;
      var topic;
      s', topic := Models.GetOrCreateTopic(s', l.category, [], now);
      article := article.(topicKey := Some(Models.TopicKey(topic)));
      if Models.GetArticle(s', article.id).Failure? {
        ops' := ops' + 1;
      }
      var saved, key;
      s', saved, key := Models.Save(s', Models.ArticleEntity(article), now);
    }

    /** The part of the loop body that reads the page: the skips, the analysis, and the article
        with its author and summary; None when the item is skipped. */
    method DraftItem(item: FeedItem, page: Option<Page>, analyze: (string, string) -> Analysis, now: Models.Time)
      returns (draft: Option<Models.Article>)
      requires config.Get("BodySelector", Utils.Nil).Str?
      ensures draft == Draft(Conf(), item, page, analyze, now)
    {
      draft := None;
      if page.None? {
        return;
      }
      var meta, _ := Utils.ExtractMetaTags(page.value.tags, "og:");
      Utils.MetaTagsClean(page.value.tags, "og:");
      var img := Utils.Lookup(meta, "image", Utils.Nil);
      if img == Utils.Nil {
        return;
      }
      var desc := item.description;
      var useMetaDesc := config.Get("UseMetaDesc", Utils.Nil);
      if useMetaDesc == Utils.Bool(true) {
        var de := Utils.Lookup(meta, "description", Utils.Nil);
        if de == Utils.Nil {
          return;
        }
        desc := de.s;
      }
      var sel := config.Get("BodySelector", Utils.Nil);
      var body := page.value.select(sel.s);
      if body == "" {
        return;
      }
      var ta := analyze(body, desc);
      var tags := Utils.SliceUniqMap(ta.words);
      var article := Models.NewArticle(item.title, item.guid, desc, item.link, domain, img.s, item.published, tags, now);
      if item.author.Some? {
        article := article.(author := item.author.value);
      }
      var summary := Utils.TrimSpacesList(ta.ranked + seq(3 - |ta.ranked|, _ => ""));
      article := article.(summary := summary);
      draft := Some(article);
    }
  }

  /** The preset constructors (newBBC, newCitinews, ...): the spider with the preset's name,
      domain and feeds, and both settings in its config. */
  method NewPresetSpider(p: Preset) returns (sp: FeedSpider)
    ensures fresh(sp) && fresh(sp.config)
    ensures sp.name == p.name && sp.domain == p.domain && sp.links == p.links
    ensures sp.config.entries == PresetConfig(p)
  {
    sp := new FeedSpider(p.name, p.domain, p.links);
    sp.config.Set("UseMetaDesc", Utils.Bool(p.useMetaDesc));
    sp.config.Set("BodySelector", Utils.Str(p.bodySelector));
  }
}
