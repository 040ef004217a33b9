/** The three headline sources and the fallback between them
    (`fetchFromCryptoPanic`, `fetchFromNewsAPI`, `fetchFromCoinDeskRSS`,
    `fetchHeadlines`). The HTTP request, and for the feed the XML parse, are
    not modelled: each adapter receives the outcome the network would give,
    either the decoded payload or the error it throws. */
module Sources {
  import opened Wrappers
  import opened Headlines

  /** The errors the adapters throw. */
  datatype FetchError =
    | MissingKey(service: string)       // no credential configured
    | InvalidResponse(service: string)  // the payload lacks its result list
    | Upstream(cause: string)           // transport, timeout or parse failure
    | NoChannel                         // `channel[0]` of an empty channel list

  /** The message of the `Error` the source throws. For `NoChannel` it is the
      `TypeError` wording of recent Node versions; older versions word it
      "Cannot read property 'item' of undefined". */
  function Message(e: FetchError): string {
    match e
    case MissingKey(service) => "No " + service + " key"
    case InvalidResponse(service) => "Invalid " + service + " response"
    case Upstream(cause) => cause
    case NoChannel => "Cannot read properties of undefined (reading 'item')"
  }

  const CryptoPanicName: string := "CryptoPanic"
  const NewsApiName: string := "NewsAPI"
  const CoinDeskName: string := "CoinDesk"
  /** The feed path keeps at most this many items. */
  const RssLimit: nat := 50

  /** The credentials read from the environment. */
  datatype Env = Env(cryptoPanicKey: Option<string>, newsApiKey: Option<string>)

  /** The three endpoints, in the order they are tried. */
  datatype Provider = CryptoPanic | NewsApi | CoinDesk {
    /** The position of the endpoint in the fallback order. */
    function Rank(): nat {
      match this
      case CryptoPanic => 0
      case NewsApi => 1
      case CoinDesk => 2
    }
  }

  // ----- CryptoPanic -----

  datatype CryptoPanicPost = CryptoPanicPost(title: Option<string>, domain: Option<string>)
  /** `res.data.results`, absent when `data` or `results` is missing. */
  datatype CryptoPanicPayload = CryptoPanicPayload(results: Option<seq<CryptoPanicPost>>)

  function FromCryptoPanic(key: Option<string>, response: Result<CryptoPanicPayload, FetchError>)
    : (r: Result<seq<Headline>, FetchError>)
    ensures !Truthy(key) ==> r == Err(MissingKey(CryptoPanicName))
    ensures Truthy(key) && response.Err? ==> r == Err(response.error)
    ensures Truthy(key) && response.Ok? && response.value.results.None? ==> r == Err(InvalidResponse(CryptoPanicName))
    ensures r.Ok? <==> Truthy(key) && response.Ok? && response.value.results.Some?
    ensures r.Ok? ==> var posts := response.value.results.value;
      && |r.value| == |posts|
      && forall i :: 0 <= i < |posts| ==> r.value[i] == Headline(posts[i].title, posts[i].domain)
  {
    if !Truthy(key) then Err(MissingKey(CryptoPanicName))
    else match response
      case Err(e) => Err(e)
      case Ok(payload) =>
        match payload.results
        case None => Err(InvalidResponse(CryptoPanicName))
        case Some(posts) =>
          Ok(seq(|posts|, i requires 0 <= i < |posts| => Headline(posts[i].title, posts[i].domain)))
  }

  // ----- NewsAPI -----

  datatype ArticleSource = ArticleSource(name: Option<string>)
  datatype Article = Article(title: Option<string>, description: Option<string>, source: Option<ArticleSource>)
  /** `res.data.articles`, absent when `data` or `articles` is missing. */
  datatype NewsApiPayload = NewsApiPayload(articles: Option<seq<Article>>)

  /** An article's headline: the title, else the description, else
      `'no title'`; the source is the source object's name, if any. */
  function ArticleHeadline(a: Article): (h: Headline)
    ensures Truthy(a.title) ==> h.title == a.title
    ensures !Truthy(a.title) && Truthy(a.description) ==> h.title == a.description
    ensures !Truthy(a.title) && !Truthy(a.description) ==> h.title == Some("no title")
    ensures Truthy(h.title)
    ensures h.source == if a.source.Some? then a.source.value.name else None
  {
    var title := OrDefault(Or(a.title, a.description), "no title");
    var source := match a.source
      case Some(s) => s.name
      case None => None;
    Headline(Some(title), source)
  }

  function FromNewsApi(key: Option<string>, response: Result<NewsApiPayload, FetchError>)
    : (r: Result<seq<Headline>, FetchError>)
    ensures !Truthy(key) ==> r == Err(MissingKey(NewsApiName))
    ensures Truthy(key) && response.Err? ==> r == Err(response.error)
    ensures Truthy(key) && response.Ok? && response.value.articles.None? ==> r == Err(InvalidResponse(NewsApiName))
    ensures r.Ok? <==> Truthy(key) && response.Ok? && response.value.articles.Some?
    ensures r.Ok? ==> var articles := response.value.articles.value;
      && |r.value| == |articles|
      && forall i :: 0 <= i < |articles| ==> r.value[i] == ArticleHeadline(articles[i])
  {
    if !Truthy(key) then Err(MissingKey(NewsApiName))
    else match response
      case Err(e) => Err(e)
      case Ok(payload) =>
        match payload.articles
        case None => Err(InvalidResponse(NewsApiName))
        case Some(articles) =>
          Ok(seq(|articles|, i requires 0 <= i < |articles| => ArticleHeadline(articles[i])))
  }

  // ----- CoinDesk feed -----

  /** An `<item>` as the XML parser gives it: `title` is the array of its
      title elements' texts. */
  datatype RssItem = RssItem(title: Option<seq<string>>)
  datatype RssChannel = RssChannel(item: Option<seq<RssItem>>)
  datatype RssRoot = RssRoot(channel: Option<seq<RssChannel>>)
  /** The parsed document; `rss` is absent when the feed has no `<rss>`. */
  datatype RssDocument = RssDocument(rss: Option<RssRoot>)

  /** `i.title && i.title[0]`. */
  function ItemTitle(item: RssItem): Option<string> {
    match item.title
    case None => None
    case Some(ts) => if |ts| == 0 then None else Some(ts[0])
  }

  /** The item list of the first channel, the empty list when `rss`,
      `channel` or `item` is missing, and an error when the channel list is
      empty (indexing `channel[0]` yields `undefined`). */
  function FeedItems(doc: RssDocument): (r: Result<seq<RssItem>, FetchError>)
    ensures doc.rss.None? ==> r == Ok([])
    ensures doc.rss.Some? && doc.rss.value.channel.None? ==> r == Ok([])
    ensures r.Err? <==> doc.rss.Some? && doc.rss.value.channel == Some([])
    ensures doc.rss.Some? && doc.rss.value.channel.Some? && |doc.rss.value.channel.value| > 0 ==>
      var first := doc.rss.value.channel.value[0];
      && (first.item.None? ==> r == Ok([]))
      && (first.item.Some? ==> r == Ok(first.item.value))
  {
    match doc.rss
    case None => Ok([])
    case Some(root) =>
      match root.channel
      case None => Ok([])
      case Some(channels) =>
        if |channels| == 0 then Err(NoChannel)
        else match channels[0].item
          case None => Ok([])
          case Some(items) => Ok(items)
  }

  function FromCoinDesk(parsed: Result<RssDocument, FetchError>): (r: Result<seq<Headline>, FetchError>)
    ensures parsed.Err? ==> r == Err(parsed.error)
    ensures r.Ok? ==> |r.value| <= RssLimit
    ensures r.Ok? ==> forall i :: 0 <= i < |r.value| ==> r.value[i].source == Some(CoinDeskName)
    ensures parsed.Ok? && FeedItems(parsed.value).Ok? ==> r.Ok?
    ensures parsed.Ok? && FeedItems(parsed.value).Ok? ==>
      var items := FeedItems(parsed.value).value;
      && |r.value| == Min(RssLimit, |items|)
      && forall i :: 0 <= i < |r.value| ==> r.value[i].title == ItemTitle(items[i])
    ensures parsed.Ok? && FeedItems(parsed.value).Err? ==> r == Err(NoChannel)
  {
    match parsed
    case Err(e) => Err(e)
    case Ok(doc) =>
      match FeedItems(doc)
      case Err(e) => Err(e)
      case Ok(items) =>
        var kept := items[..Min(RssLimit, |items|)];
        Ok(seq(|kept|, i requires 0 <= i < |kept| => Headline(ItemTitle(kept[i]), Some(CoinDeskName))))
  }

  // ----- fallback -----

  /** What each endpoint would answer if it were asked. */
  datatype Network = Network(
    cryptoPanic: Result<CryptoPanicPayload, FetchError>,
    newsApi: Result<NewsApiPayload, FetchError>,
    coinDesk: Result<RssDocument, FetchError>)

  /** "First success wins, last failure propagates" over a non-empty list of
      attempts, in order. */
  function FirstSuccess<T, E>(attempts: seq<Result<T, E>>): (r: Result<T, E>)
    requires |attempts| > 0
    ensures r in attempts
    ensures r.Ok? ==>
      exists k :: 0 <= k < |attempts| && attempts[k] == r && forall j :: 0 <= j < k ==> attempts[j].Err?
    ensures r.Err? ==>
      r == attempts[|attempts| - 1] && forall j :: 0 <= j < |attempts| ==> attempts[j].Err?
  {
    if attempts[0].Ok? || |attempts| == 1 then attempts[0]
    else FirstSuccess(attempts[1..])
  }

  /** The outcome of each adapter on this environment and network. */
  function Attempts(env: Env, net: Network): seq<Result<seq<Headline>, FetchError>> {
    [FromCryptoPanic(env.cryptoPanicKey, net.cryptoPanic),
     FromNewsApi(env.newsApiKey, net.newsApi),
     FromCoinDesk(net.coinDesk)]
  }

  /** `fetchHeadlines`: tries CryptoPanic, then NewsAPI, then the CoinDesk
      feed; the first that succeeds gives the headlines, the errors of the
      first two are swallowed and the feed's error is thrown. `requested`
      lists the endpoints actually contacted, in order: an adapter without its
      key throws before it sends a request. */
  method FetchHeadlines(env: Env, net: Network) returns (r: Result<seq<Headline>, FetchError>, requested: seq<Provider>)
    ensures r == FirstSuccess(Attempts(env, net))
    ensures var a := Attempts(env, net);
      && (a[0].Ok? ==> r == a[0])
      && (a[0].Err? && a[1].Ok? ==> r == a[1])
      && (a[0].Err? && a[1].Err? ==> r == a[2])
    ensures CryptoPanic in requested <==> Truthy(env.cryptoPanicKey)
    ensures NewsApi in requested <==> Attempts(env, net)[0].Err? && Truthy(env.newsApiKey)
    ensures CoinDesk in requested <==> Attempts(env, net)[0].Err? && Attempts(env, net)[1].Err?
    ensures forall i, j :: 0 <= i < j < |requested| ==> requested[i].Rank() < requested[j].Rank()
  {
    requested := [];
    if Truthy(env.cryptoPanicKey) {
      requested := requested + [CryptoPanic];
    }
    r := FromCryptoPanic(env.cryptoPanicKey, net.cryptoPanic);
    if r.Ok? {
      return;
    }
    if Truthy(env.newsApiKey) {
      requested := requested + [NewsApi];
    }
    r := FromNewsApi(env.newsApiKey, net.newsApi);
    if r.Ok? {
      return;
    }
    requested := requested + [CoinDesk];
    r := FromCoinDesk(net.coinDesk);
  }

  /** The error of the first two sources never reaches the caller: whenever
      the fetch fails, it fails with the feed's error. */
  lemma OnlyFeedErrorEscapes(env: Env, net: Network)
    ensures var r := FirstSuccess(Attempts(env, net));
      r.Err? ==> r == FromCoinDesk(net.coinDesk) && Attempts(env, net)[0].Err? && Attempts(env, net)[1].Err?
  {
  }

  /** Without either key the feed alone decides the outcome. */
  lemma NoKeysUsesFeed(env: Env, net: Network)
    requires !Truthy(env.cryptoPanicKey) && !Truthy(env.newsApiKey)
    ensures FirstSuccess(Attempts(env, net)) == FromCoinDesk(net.coinDesk)
  {
    var a := Attempts(env, net);
    assert a[0].Err? && a[1].Err?;
    assert a[1..][1..] == [a[2]];
  }
}
