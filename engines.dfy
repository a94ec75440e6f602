/**
 * The static table of search engines and the URL a search opens: the engine's
 * template for the search type followed by the percent-encoded query.
 */
module Engines {

  /** Per engine: its display name and one URL prefix per search type. */
  datatype Engine = Engine(
    name: string,
    url: string,
    imageUrl: string,
    videoUrl: string,
    newsUrl: string,
    mapsUrl: string)

  /** The `searchEngines` table, keyed by the engine identifiers the UI passes around. */
  const SearchEngines: map<string, Engine> := map[
    "google" := Engine(
      "Google",
      "https://www.google.com/search?q=",
      "https://www.google.com/search?tbm=isch&q=",
      "https://www.google.com/search?tbm=vid&q=",
      "https://news.google.com/search?q=",
      "https://www.google.com/maps/search/"),
    "bing" := Engine(
      "Bing",
      "https://www.bing.com/search?q=",
      "https://www.bing.com/images/search?q=",
      "https://www.bing.com/videos/search?q=",
      "https://www.bing.com/news/search?q=",
      "https://www.bing.com/maps?q="),
    "duckduckgo" := Engine(
      "DuckDuckGo",
      "https://duckduckgo.com/?q=",
      "https://duckduckgo.com/?q=",
      "https://duckduckgo.com/?q=",
      "https://duckduckgo.com/?q=",
      "https://duckduckgo.com/?q="),
    "yahoo" := Engine(
      "Yahoo",
      "https://search.yahoo.com/search?p=",
      "https://images.search.yahoo.com/search/images?p=",
      "https://video.search.yahoo.com/search/video?p=",
      "https://news.search.yahoo.com/search?p=",
      "https://www.yahoo.com/maps?q=")
  ]

  /** The search types that have a template of their own; every other type is a web search. */
  predicate IsSpecialType(searchType: string) {
    searchType == "image" || searchType == "video" || searchType == "news" || searchType == "maps"
  }

  /** The template the `switch` of `performSearch` picks for a search type. */
  function Template(engine: Engine, searchType: string): (t: string)
    ensures searchType == "image" ==> t == engine.imageUrl
    ensures searchType == "video" ==> t == engine.videoUrl
    ensures searchType == "news" ==> t == engine.newsUrl
    ensures searchType == "maps" ==> t == engine.mapsUrl
    ensures !IsSpecialType(searchType) ==> t == engine.url
    ensures t in {engine.url, engine.imageUrl, engine.videoUrl, engine.newsUrl, engine.mapsUrl}
  {
    if searchType == "image" then engine.imageUrl
    else if searchType == "video" then engine.videoUrl
    else if searchType == "news" then engine.newsUrl
    else if searchType == "maps" then engine.mapsUrl
    else engine.url
  }

  /** The URL a search opens, given the already encoded query. */
  function SearchUrl(engine: Engine, searchType: string, encodedQuery: string): (u: string)
    ensures |u| == |Template(engine, searchType)| + |encodedQuery|
  {
    Template(engine, searchType) + encodedQuery
  }

  /** A search URL splits back into its template and the encoded query. */
  lemma SearchUrlSplits(engine: Engine, searchType: string, encodedQuery: string)
    ensures var u := SearchUrl(engine, searchType, encodedQuery);
            var t := Template(engine, searchType);
            u[..|t|] == t && u[|t|..] == encodedQuery
  {
  }

  /** The table knows exactly the four engines of the selector. */
  lemma EngineKeys()
    ensures SearchEngines.Keys == {"google", "bing", "duckduckgo", "yahoo"}
  {
  }

  /** An image search for `cats` on Google opens Google's image results. */
  lemma GoogleImageExample()
    ensures SearchUrl(SearchEngines["google"], "image", "cats")
            == "https://www.google.com/search?tbm=isch&q=cats"
  {
  }

  /** DuckDuckGo has one template for every search type. */
  lemma DuckDuckGoIgnoresType(searchType: string, encodedQuery: string)
    ensures SearchUrl(SearchEngines["duckduckgo"], searchType, encodedQuery)
            == SearchUrl(SearchEngines["duckduckgo"], "web", encodedQuery)
  {
  }
}
