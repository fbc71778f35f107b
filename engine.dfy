/**
 * The search-engine interface: an engine is called with a query and a
 * result count and either returns a list of URLs or raises. The model treats
 * an engine as an oracle, a total function from its two arguments to one of
 * those two outcomes; the text of a raised exception (`str(e)`) is carried in
 * the outcome.
 */
module Engine {

  datatype EngineOutcome = Urls(urls: seq<string>) | Raised(message: string)

  type SearchEngine = (string, int) -> EngineOutcome
}
