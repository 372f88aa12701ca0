// The news feed page (pages/NewsPage.tsx): the state machine of one fetch
// (loading, error, sources, articles), the code-fence stripping applied to
// the model's reply before it is parsed, the severity colours of a card and
// the labels of the source links.
module NewsPage {
  import opened Types
  import opened Text

  /** The opening fence the page strips; seven characters. */
  const FencePrefix := "```json"

  /** The one message every failure of a fetch shows. */
  const FetchError := "Failed to fetch news. The AI may be busy, or there's a configuration issue. Please try again later."

  /**
   * The cleaning at lines 58-59: trim the reply; if it starts with the
   * opening fence, drop the first 7 and the last 3 characters (JavaScript
   * slice(7, -3), which yields "" when the trimmed text has at most 10
   * characters) and trim again. The closing fence is not checked.
   */
  function StripFence(reply: string): (cleaned: string)
    ensures |cleaned| <= |reply|
    ensures IsTrimmed(cleaned)
    ensures !StartsWith(Trim(reply), FencePrefix) ==> cleaned == Trim(reply)
    ensures StartsWith(Trim(reply), FencePrefix) && |Trim(reply)| <= 10 ==> cleaned == []
    ensures StartsWith(Trim(reply), FencePrefix) && |Trim(reply)| > 10 ==>
              cleaned == Trim(Trim(reply)[7..|Trim(reply)| - 3])
  {
    var text := Trim(reply);
    FenceSlice(text);
    if StartsWith(text, FencePrefix) then Trim(JsSlice(text, 7, -3)) else text
  }

  /** slice(7, -3) drops seven leading and three trailing characters, or everything when at most ten remain. */
  lemma FenceSlice(text: string)
    ensures |text| > 10 ==> JsSlice(text, 7, -3) == text[7..|text| - 3]
    ensures |text| <= 10 ==> JsSlice(text, 7, -3) == []
  {
  }

  /** A payload wrapped in a ```json ... ``` fence comes out trimmed and unwrapped. */
  lemma FencedPayloadRecovered(payload: string)
    ensures StripFence(FencePrefix + payload + "```") == Trim(payload)
  {
    var fenced := FencePrefix + payload + "```";
    assert fenced[0] == '`' && fenced[|fenced| - 1] == '`';
    TrimOfTrimmed(fenced);
    assert fenced[..7] == FencePrefix;
    if |payload| > 0 {
      assert fenced[7..|fenced| - 3] == payload;
    }
  }

  /** A bare reply that does not open with the fence reaches the parser unchanged once trimmed. */
  lemma BareReplyUnchanged(reply: string)
    requires IsTrimmed(reply)
    requires !StartsWith(reply, FencePrefix)
    ensures StripFence(reply) == reply
  {
    TrimOfTrimmed(reply);
  }

  /** The badge classes of a card, one set per severity. */
  function SeverityColor(s: Severity): string
  {
    match s
    case Low => "bg-green-500/20 text-green-300 border-green-500/30"
    case Medium => "bg-yellow-500/20 text-yellow-300 border-yellow-500/30"
    case High => "bg-orange-500/20 text-orange-300 border-orange-500/30"
    case Critical => "bg-red-500/20 text-red-300 border-red-500/30"
  }

  /** Every severity has its own colour. */
  lemma SeverityColorsDistinct(a: Severity, b: Severity)
    ensures SeverityColor(a) == SeverityColor(b) <==> a == b
  {
  }

  /** A grounding source: its URI and its possibly missing title. */
  datatype WebSource = WebSource(uri: string, title: Option<string>)

  /** One entry of the grounding metadata; only entries with a web source are listed. */
  datatype GroundingChunk = GroundingChunk(web: Option<WebSource>)

  /** A rendered source link. */
  datatype SourceLink = SourceLink(href: string, text: string)

  /** `source.web.title || source.web.uri`: the title unless it is missing or empty. */
  function LinkText(w: WebSource): (text: string)
    ensures w.title.Some? && w.title.value != [] ==> text == w.title.value
    ensures w.title.None? || w.title.value == [] ==> text == w.uri
  {
    if w.title.Some? && w.title.value != [] then w.title.value else w.uri
  }

  /** The list items of the Sources section: one link per entry that has a web source, in order. */
  function SourceLinks(chunks: seq<GroundingChunk>): (links: seq<SourceLink>)
    ensures |links| <= |chunks|
  {
    if chunks == [] then []
    else
      var rest := SourceLinks(chunks[1..]);
      match chunks[0].web
      case Some(w) => [SourceLink(w.uri, LinkText(w))] + rest
      case None => rest
  }

  /** The links of a concatenation are the links of each part, in order. */
  lemma {:induction false} SourceLinksAppend(a: seq<GroundingChunk>, b: seq<GroundingChunk>)
    ensures SourceLinks(a + b) == SourceLinks(a) + SourceLinks(b)
  {
    if a != [] {
      SourceLinksAppend(a[1..], b);
      assert (a + b)[1..] == a[1..] + b;
    } else {
      assert a + b == b;
    }
  }

  /** An entry without a web source contributes nothing; one with a web source contributes its link. */
  lemma SourceLinksSingle(c: GroundingChunk)
    ensures c.web.None? ==> SourceLinks([c]) == []
    ensures c.web.Some? ==> SourceLinks([c]) == [SourceLink(c.web.value.uri, LinkText(c.web.value))]
  {
    assert [c][1..] == [];
  }

  /** The list is empty exactly when no entry has a web source. */
  lemma {:induction false} SourceLinksEmptyIff(chunks: seq<GroundingChunk>)
    ensures SourceLinks(chunks) == [] <==> forall i :: 0 <= i < |chunks| ==> chunks[i].web.None?
  {
    if chunks != [] {
      SourceLinksEmptyIff(chunks[1..]);
      if chunks[0].web.None? {
        forall i | 1 <= i < |chunks| ensures chunks[i].web.None? <==> chunks[1..][i - 1].web.None? { }
      }
    }
  }

  /** How the remote generateContent call ended. */
  datatype ApiResult =
    | ApiFailed
    | ApiOk(text: Option<string>, chunks: Option<seq<GroundingChunk>>)

  /**
   * The articles a fetch yields, or None when it fails: no key, a failed
   * call, a reply without text, or cleaned text that does not parse.
   */
  function FetchedArticles(apiKey: Option<string>, result: ApiResult, parse: string -> Option<seq<NewsArticle>>)
    : (articles: Option<seq<NewsArticle>>)
    ensures !KeyPresent(apiKey) || result.ApiFailed? ==> articles.None?
    ensures result.ApiOk? && result.text.None? ==> articles.None?
    ensures KeyPresent(apiKey) && result.ApiOk? && result.text.Some? ==>
              articles == parse(StripFence(result.text.value))
  {
    if !KeyPresent(apiKey) || result.ApiFailed? || result.text.None? then None
    else parse(StripFence(result.text.value))
  }

  /** The sources a fetch leaves: the grounding chunks when the reply carries them, none otherwise. */
  function FetchedSources(apiKey: Option<string>, result: ApiResult): (sources: seq<GroundingChunk>)
    ensures sources != [] ==> KeyPresent(apiKey) && result.ApiOk? && result.chunks == Some(sources)
    ensures KeyPresent(apiKey) && result.ApiOk? && result.chunks.Some? ==> sources == result.chunks.value
  {
    if KeyPresent(apiKey) && result.ApiOk? && result.chunks.Some? then result.chunks.value else []
  }

  /** A fenced reply whose payload parses yields exactly the parsed articles. */
  lemma FencedReplyYieldsArticles(apiKey: Option<string>, payload: string,
                                  chunks: Option<seq<GroundingChunk>>,
                                  parse: string -> Option<seq<NewsArticle>>, articles: seq<NewsArticle>)
    requires KeyPresent(apiKey)
    requires parse(Trim(payload)) == Some(articles)
    ensures FetchedArticles(apiKey, ApiOk(Some(FencePrefix + payload + "```"), chunks), parse) == Some(articles)
  {
    FencedPayloadRecovered(payload);
  }

  /** The state of the page component. */
  class NewsFeed {
    var news: seq<NewsArticle>
    var sources: seq<GroundingChunk>
    var loading: bool
    var error: Option<string>

    /** The only error the page ever shows is the fixed fetch error. */
    ghost predicate Valid()
      reads this
    {
      error.Some? ==> error.value == FetchError
    }

    /** The initial state: loading, before the mount effect's fetch has finished. */
    constructor ()
      ensures Valid()
      ensures news == [] && sources == [] && loading && error.None?
    {
      news := [];
      sources := [];
      loading := true;
      error := None;
    }

    /** The articles grid shows only when nothing is loading and there is no error. */
    function ArticlesVisible(): (visible: bool)
      reads this
      ensures visible <==> !loading && error.None?
    {
      !loading && error.None?
    }

    /** The links the Sources section lists; the section shows only beside the articles and when sources is non-empty. */
    function VisibleLinks(): (links: seq<SourceLink>)
      reads this
      ensures !ArticlesVisible() ==> links == []
      ensures ArticlesVisible() ==> links == SourceLinks(sources)
    {
      if ArticlesVisible() && |sources| > 0 then SourceLinks(sources) else []
    }

    /** The synchronous start of fetchNews. */
    method StartFetch()
      requires Valid()
      modifies this
      ensures Valid()
      ensures loading && error.None? && sources == [] && news == old(news)
    {
      loading := true;
      error := None;
      sources := [];
    }

    /**
     * The rest of fetchNews: the try block, whose every failure is caught
     * into the one fixed error, and the finally block that ends loading.
     * Sources are taken from the reply before its text is cleaned, so a
     * reply that fails to parse still leaves its sources set.
     */
    method FinishFetch(apiKey: Option<string>, result: ApiResult, parse: string -> Option<seq<NewsArticle>>)
      requires Valid() && loading && error.None? && sources == []
      modifies this
      ensures Valid()
      ensures !loading
      ensures error.Some? <==> FetchedArticles(apiKey, result, parse).None?
      ensures FetchedArticles(apiKey, result, parse).Some? ==> news == FetchedArticles(apiKey, result, parse).value
      ensures FetchedArticles(apiKey, result, parse).None? ==> news == old(news)
      ensures sources == FetchedSources(apiKey, result)
    {
      if !KeyPresent(apiKey) {
        error := Some(FetchError);
      } else {
        match result
        case ApiFailed =>
          error := Some(FetchError);
        case ApiOk(text, chunks) =>
          if chunks.Some? {
            sources := chunks.value;
          }
          if text.None? {
            error := Some(FetchError);
          } else {
            var cleaned := StripFence(text.value);
            match parse(cleaned)
            case None =>
              error := Some(FetchError);
            case Some(parsed) =>
              news := parsed;
        }
      }
      loading := false;
    }

    /** fetchNews from start to end. */
    method FetchNews(apiKey: Option<string>, result: ApiResult, parse: string -> Option<seq<NewsArticle>>)
      requires Valid()
      modifies this
      ensures Valid()
      ensures !loading
      ensures ArticlesVisible() <==> FetchedArticles(apiKey, result, parse).Some?
      ensures ArticlesVisible() ==> news == FetchedArticles(apiKey, result, parse).value
      ensures !ArticlesVisible() ==> news == old(news) && error == Some(FetchError)
      ensures sources == FetchedSources(apiKey, result)
    {
      StartFetch();
      FinishFetch(apiKey, result, parse);
    }
  }

  /** Without a key the page ends with the fixed error, no articles and no sources. */
  method MountWithoutKey(result: ApiResult, parse: string -> Option<seq<NewsArticle>>)
    returns (shownError: Option<string>, articlesShown: bool, links: seq<SourceLink>)
    ensures shownError == Some(FetchError)
    ensures !articlesShown && links == []
  {
    var page := new NewsFeed();
    page.FetchNews(None, result, parse);
    shownError := page.error;
    articlesShown := page.ArticlesVisible();
    links := page.VisibleLinks();
  }
}
