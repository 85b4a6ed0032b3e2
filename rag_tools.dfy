/** The tools of agents/course/agentic_rag/tools.py: the guest lookup, the
    dummy weather report and the Hub statistics. The BM25 retriever and the
    Hub listing are oracles whose answers are parameters here; the random
    pick of a weather entry is a nondeterministic choice. */
module RagTools {
  import opened Wrappers
  import opened Text
  import opened Retriever

  const NoMatch := "No matching guest information found."

  function PageContents(docs: seq<Document>): seq<string>
  {
    seq(|docs|, k requires 0 <= k < |docs| => docs[k].pageContent)
  }

  function Min(a: nat, b: nat): nat
  {
    if a < b then a else b
  }

  /** `extract_text`, given what the retriever returned for the query. */
  function ExtractText(results: seq<Document>): (r: string)
    ensures results == [] ==> r == NoMatch
    ensures |results| == 1 ==> r == results[0].pageContent
  {
    if |results| > 0 then Join(PageContents(results[..Min(3, |results|)]), "\n\n") else NoMatch
  }

  /** Results after the third never contribute. */
  lemma ExtractTextFirstThree(results: seq<Document>, more: seq<Document>)
    requires |results| >= 3
    ensures ExtractText(results + more) == ExtractText(results[..3])
  {
    assert (results + more)[..3] == results[..3];
    assert results[..3][..3] == results[..3];
  }

  /** Two or three results are joined in retrieval order with a blank line
      between them. */
  lemma ExtractTextJoins(a: Document, b: Document, c: Document)
    ensures ExtractText([a, b]) == a.pageContent + "\n\n" + b.pageContent
    ensures ExtractText([a, b, c]) == a.pageContent + "\n\n" + b.pageContent + "\n\n" + c.pageContent
  {
    assert [a, b][..2] == [a, b];
    assert PageContents([a, b]) == [a.pageContent, b.pageContent];
    assert [a, b, c][..3] == [a, b, c];
    assert PageContents([a, b, c]) == [a.pageContent, b.pageContent, c.pageContent];
    JoinAppend([a.pageContent], b.pageContent, "\n\n");
    assert [a.pageContent] + [b.pageContent] == [a.pageContent, b.pageContent];
    JoinAppend([a.pageContent, b.pageContent], c.pageContent, "\n\n");
    assert [a.pageContent, b.pageContent] + [c.pageContent] == [a.pageContent, b.pageContent, c.pageContent];
  }

  datatype Weather = Weather(condition: string, tempC: nat)

  const WeatherConditions: seq<Weather> := [Weather("Rainy", 15), Weather("Clear", 25), Weather("Windy", 20)]

  /** `f"Weather in {location}: {condition}, {temp_c}°C"`. */
  function WeatherReport(location: string, w: Weather): string
  {
    "Weather in " + location + ": " + w.condition + ", " + Digits(w.tempC) + "\U{00B0}C"
  }

  /** `get_weather_info`: one of the three dummy entries, picked at random. */
  method GetWeatherInfo(location: string) returns (r: string)
    ensures exists w :: w in WeatherConditions && r == WeatherReport(location, w)
  {
    assert WeatherConditions[0] in WeatherConditions;
    var w :| w in WeatherConditions;
    r := WeatherReport(location, w);
  }

  /** The temperature is rendered as its decimal digits. */
  lemma WeatherTemperatures()
    ensures Digits(15) == "15" && Digits(25) == "25" && Digits(20) == "20"
  {
  }

  /** What `list_models` yields for a model: its id and download count,
      which the Hub may leave unset. */
  datatype ModelInfo = ModelInfo(id: string, downloads: Option<nat>)

  /** The message of the exception `f"{None:,}"` raises. */
  const NoneFormatError := "unsupported format string passed to NoneType.__format__"

  function FetchError(author: string, message: string): string
  {
    "Error fetching models for " + author + ": " + message
  }

  /** `get_hub_stats`, given what the Hub listing returned or raised. */
  function HubStats(author: string, listing: Outcome<seq<ModelInfo>>): (r: string)
    ensures listing.Raise? ==> r == FetchError(author, listing.error.message)
    ensures listing == Value([]) ==> r == "No models found for author " + author + "."
  {
    match listing
    case Raise(e) => FetchError(author, e.message)
    case Value(models) =>
      if models == [] then "No models found for author " + author + "."
      else
        match models[0].downloads
        case None => FetchError(author, NoneFormatError)
        case Some(d) => "The most downloaded model by " + author + " is " + models[0].id + " with " + GroupThousands(d) + " downloads."
  }

  /** Only the first model counts; its download count appears with thousands
      separators that, removed, leave `str(downloads)`; an unset count is
      reported as a fetch error. */
  lemma HubStatsFirstModel(author: string, m: ModelInfo, rest: seq<ModelInfo>)
    ensures HubStats(author, Value([m] + rest)) == HubStats(author, Value([m]))
    ensures m.downloads.None? ==> HubStats(author, Value([m])) == FetchError(author, NoneFormatError)
    ensures m.downloads.Some? ==> exists g ::
      && HubStats(author, Value([m])) == "The most downloaded model by " + author + " is " + m.id + " with " + g + " downloads."
      && RemoveCommas(g) == Digits(m.downloads.value)
  {
    if m.downloads.Some? {
      GroupThousandsDigits(m.downloads.value);
      assert RemoveCommas(GroupThousands(m.downloads.value)) == Digits(m.downloads.value);
    }
  }
}
