/** The two pure selections of src/App.jsx: which message a failed search
    reports, and which match the results page shows. */
module Selection {
  import opened Values

  /** A possibly missing string is truthy in JavaScript when it is present and not empty. */
  predicate Truthy(o: Option<string>)
  {
    o.Some? && o.value != ""
  }

  /** JavaScript's `a || b` where `b` is a string literal. */
  function OrElse(a: Option<string>, b: string): string
  {
    if Truthy(a) then a.value else b
  }

  /** The message thrown for a non-success response without a usable reason. */
  const NonOkFallback := "Unable to find a match right now."

  /** The message shown when the caught error has no message. */
  const GenericFallback := "Something went wrong. Please try again."

  /** How a match request can end without a match. */
  datatype Failure =
      /** The response came back with a non-success status; `dataError` is
          `data?.error` of its parsed body. */
    | NotOk(dataError: Option<string>)
      /** The request or the parsing of its body threw; `message` is `err.message`. */
    | Rejected(message: Option<string>)

  /** The message of the error that reaches the catch block. */
  function CaughtMessage(f: Failure): Option<string>
  {
    match f
    case NotOk(dataError) => Some(OrElse(dataError, NonOkFallback))
    case Rejected(message) => message
  }

  /** The candidates for the error message, in order of preference,
      before the generic fallback. */
  function Candidates(f: Failure): seq<Option<string>>
  {
    match f
    case NotOk(dataError) => [dataError, Some(NonOkFallback)]
    case Rejected(message) => [message]
  }

  /** Reference definition: the first truthy candidate, else `fallback`. */
  function FirstNonEmpty(cands: seq<Option<string>>, fallback: string): string
  {
    if cands == [] then fallback
    else if Truthy(cands[0]) then cands[0].value
    else FirstNonEmpty(cands[1..], fallback)
  }

  /** The message `error` is set to when a search fails: the server's reason
      when it gave a non-empty one, the non-success fallback for any other
      non-success response, the error's own message otherwise, and the
      generic fallback last. It is never empty; the generic fallback is never
      reached for a non-success response. */
  function ErrorMessage(f: Failure): (msg: string)
    ensures msg != ""
    ensures f.NotOk? && Truthy(f.dataError) ==> msg == f.dataError.value
    ensures f.NotOk? && !Truthy(f.dataError) ==> msg == NonOkFallback
    ensures f.Rejected? && Truthy(f.message) ==> msg == f.message.value
    ensures f.Rejected? && !Truthy(f.message) ==> msg == GenericFallback
  {
    OrElse(CaughtMessage(f), GenericFallback)
  }

  /** `ErrorMessage` agrees with the reference definition: it is the first
      non-empty candidate, with the generic fallback last. */
  lemma ErrorMessageIsFirstNonEmpty(f: Failure)
    ensures ErrorMessage(f) == FirstNonEmpty(Candidates(f), GenericFallback)
  {
  }

  /** The path the results page is mounted at. */
  const ResultsPath := "/results"

  /** A navigation with its optional transient state `{ match }`. */
  datatype Navigation = Navigation(path: string, stateMatch: Option<Match>)

  /** The match the results page shows: the one carried by the navigation
      when there is one, else the one held in memory. The result is missing
      exactly when both are. */
  function FinalMatch(stateMatch: Option<Match>, memoryMatch: Option<Match>): (r: Option<Match>)
    ensures r.None? <==> stateMatch.None? && memoryMatch.None?
    ensures stateMatch.Some? ==> r == stateMatch
    ensures stateMatch.None? ==> r == memoryMatch
  {
    if stateMatch.Some? then stateMatch else memoryMatch
  }

  /** What the results page renders. */
  datatype View = MatchCard(shown: Match) | EmptyState

  /** The results page is total: with no match from either source it renders
      the empty state; otherwise it renders the card of the match that
      `FinalMatch` picks, preferring the navigation's. */
  function ResultsView(stateMatch: Option<Match>, memoryMatch: Option<Match>): (v: View)
    ensures v.EmptyState? <==> stateMatch.None? && memoryMatch.None?
    ensures stateMatch.Some? ==> v == MatchCard(stateMatch.value)
    ensures stateMatch.None? && memoryMatch.Some? ==> v == MatchCard(memoryMatch.value)
  {
    match FinalMatch(stateMatch, memoryMatch)
    case Some(m) => MatchCard(m)
    case None => EmptyState
  }
}
