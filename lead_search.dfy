/** The lead-search dashboard (`src/app/dashboard/page.tsx`): the mutually
    exclusive business/industry selectors, the ordered validation of a
    search, the request body built from the form, the handling of the
    backend's reply, and the pure classifiers used to render the results. */
module LeadSearch {
  import opened Common
  import opened Text

  // ---------------------------------------------------------------------
  // Transport records
  // ---------------------------------------------------------------------

  datatype Lead = Lead(
    title: string,
    subreddit: string,
    snippet: string,
    permalink: string,
    author: string,
    createdUtc: int,
    score: int,
    matchedKeywords: seq<string>,
    aiRelevanceScore: Option<int>,
    urgencyLevel: Option<string>,
    businessContext: Option<string>,
    problemCategory: Option<string>,
    aiSummary: Option<string>)

  /** The reply of the search endpoint; the age is in whole hours. */
  datatype SearchResponse = SearchResponse(
    leads: seq<Lead>,
    totalFound: int,
    message: string,
    timestamp: int,
    resultAgeHours: int)

  /** The JSON body posted to the search endpoint; `None` is `null`. */
  datatype SearchRequest = SearchRequest(
    problemDescription: string,
    business: Option<string>,
    industry: Option<string>,
    userId: string,
    resultCount: int)

  // ---------------------------------------------------------------------
  // Selector state machine
  // ---------------------------------------------------------------------

  datatype Selection = Selection(business: string, industry: string)

  /** At most one of the two selectors holds a value. */
  predicate Exclusive(s: Selection)
  {
    s.business == "" || s.industry == ""
  }

  /** `handleBusinessChange`: the business takes the new value; a non-empty
      business clears the industry, an empty one leaves it alone. Whatever
      the state before, the selectors are exclusive afterwards. */
  function OnBusinessChange(s: Selection, business: string): (r: Selection)
    ensures r.business == business
    ensures business != "" ==> r.industry == ""
    ensures business == "" ==> r.industry == s.industry
    ensures Exclusive(r)
  {
    if business != "" then Selection(business, "") else Selection(business, s.industry)
  }

  /** `handleIndustryChange`, the mirror image of `OnBusinessChange`. */
  function OnIndustryChange(s: Selection, industry: string): (r: Selection)
    ensures r.industry == industry
    ensures industry != "" ==> r.business == ""
    ensures industry == "" ==> r.business == s.business
    ensures Exclusive(r)
  {
    if industry != "" then Selection("", industry) else Selection(s.business, industry)
  }

  /** One change event of either select element. */
  datatype SelectorEvent = BusinessChanged(business: string) | IndustryChanged(industry: string)

  function Step(s: Selection, e: SelectorEvent): Selection
  {
    match e
    case BusinessChanged(b) => OnBusinessChange(s, b)
    case IndustryChanged(i) => OnIndustryChange(s, i)
  }

  /** The selection after a sequence of change events, oldest first. */
  function Replay(s: Selection, events: seq<SelectorEvent>): Selection
    decreases |events|
  {
    if events == [] then s else Step(Replay(s, events[..|events| - 1]), events[|events| - 1])
  }

  /** Starting from an exclusive selection (such as the initial one, both
      empty), no sequence of change events makes both selectors non-empty;
      after at least one event the selection is exclusive whatever it was
      before, because each handler leaves it exclusive on its own. */
  lemma ReplayKeepsExclusive(s: Selection, events: seq<SelectorEvent>)
    ensures Exclusive(s) ==> Exclusive(Replay(s, events))
    ensures events != [] ==> Exclusive(Replay(s, events))
  {
  }

  // ---------------------------------------------------------------------
  // Validation and request shaping
  // ---------------------------------------------------------------------

  /** The only result counts the form may submit. */
  const ResultCountOptions: seq<int> := [20, 50, 100, 150]

  datatype ValidationError = MissingSelector | EmptyProblem | InvalidResultCount

  /** The error text each failed check shows. */
  function ValidationMessage(e: ValidationError): string
  {
    match e
    case MissingSelector => "Please select either a business or industry"
    case EmptyProblem => "Please describe the problem you are solving"
    case InvalidResultCount => "Please select a valid result count option"
  }

  /** The checks of `searchLeads`, in order, the first failure winning: a
      selector is chosen, the problem is not blank, the count is allowed. */
  function FirstValidationError(business: string, industry: string, problem: string, count: int): (r: Option<ValidationError>)
    ensures r == Some(MissingSelector) <==> business == "" && industry == ""
    ensures r == Some(EmptyProblem) <==> (business != "" || industry != "") && AllWhitespace(problem)
    ensures r == Some(InvalidResultCount) <==>
              && (business != "" || industry != "")
              && !AllWhitespace(problem)
              && count != 20 && count != 50 && count != 100 && count != 150
    ensures r == None <==>
              && (business != "" || industry != "")
              && !AllWhitespace(problem)
              && (count == 20 || count == 50 || count == 100 || count == 150)
  {
    TrimmedEmptyIffBlank(problem);
    if business == "" && industry == "" then Some(MissingSelector)
    else if Trim(problem) == "" then Some(EmptyProblem)
    else if count !in ResultCountOptions then Some(InvalidResultCount)
    else None
  }

  /** `canSearch`, the derived flag that enables the search button: it holds
      exactly when every check of `searchLeads` passes. */
  function CanSearch(business: string, industry: string, problem: string, count: int): (r: bool)
    ensures r <==> FirstValidationError(business, industry, problem, count) == None
  {
    (business != "" || industry != "") && Trim(problem) != "" && count in ResultCountOptions
  }

  /** The body `searchLeads` posts: the trimmed problem, each empty selector
      sent as null, the user id and the count unchanged. */
  function RequestBody(business: string, industry: string, problem: string, userId: string, count: int): (r: SearchRequest)
    ensures r.problemDescription == Trim(problem)
    ensures r.business == (if business == "" then None else Some(business))
    ensures r.industry == (if industry == "" then None else Some(industry))
    ensures r.userId == userId && r.resultCount == count
  {
    SearchRequest(Trim(problem), if business == "" then None else Some(business),
                  if industry == "" then None else Some(industry), userId, count)
  }

  /** A request built from a form that passed validation and whose selectors
      are exclusive carries exactly one of business and industry, a problem
      description that is non-empty and neither starts nor ends with
      whitespace, and an allowed count. */
  lemma ValidatedRequestWellFormed(business: string, industry: string, problem: string, userId: string, count: int)
    requires FirstValidationError(business, industry, problem, count) == None
    requires Exclusive(Selection(business, industry))
    ensures var r := RequestBody(business, industry, problem, userId, count);
      && (r.business.Some? != r.industry.Some?)
      && r.problemDescription != ""
      && !IsWhitespace(r.problemDescription[0])
      && !IsWhitespace(r.problemDescription[|r.problemDescription| - 1])
      && r.resultCount in ResultCountOptions
  {
    TrimmedEmptyIffBlank(problem);
  }

  /** The error text of a failed search: the backend's non-empty `detail`,
      else "HTTP error! status: N"; an exception shows its own message. */
  function SearchFailureText(reply: Reply<SearchResponse>): (r: string)
    requires !reply.Ok?
    ensures reply.NotOk? && reply.detail.Some? && reply.detail.value != "" ==> r == reply.detail.value
    ensures reply.NotOk? && (reply.detail.None? || reply.detail.value == "") ==>
              r == "HTTP error! status: " + NatToString(reply.status)
    ensures reply.NotOk? ==> r != ""
    ensures reply.Threw? ==> r == reply.message
  {
    match reply
    case NotOk(status, detail) => StringOr(detail, "HTTP error! status: " + NatToString(status))
    case Threw(message) => message
  }

  // ---------------------------------------------------------------------
  // Component state
  // ---------------------------------------------------------------------

  /** The state of the search dashboard and its handlers. */
  class Dashboard {
    var selectedBusiness: string
    var selectedIndustry: string
    var problemDescription: string
    var resultCount: int
    var loading: bool
    var results: Option<SearchResponse>
    var error: string
    const userId: string

    constructor (userId: string)
      ensures selectedBusiness == "" && selectedIndustry == "" && problemDescription == ""
      ensures resultCount == 100 && !loading && results == None && error == ""
      ensures this.userId == userId
      ensures Exclusive(CurrentSelection())
    {
      selectedBusiness := "";
      selectedIndustry := "";
      problemDescription := "";
      resultCount := 100;
      loading := false;
      results := None;
      error := "";
      this.userId := userId;
    }

    function CurrentSelection(): Selection
      reads this
    {
      Selection(selectedBusiness, selectedIndustry)
    }

    method HandleBusinessChange(business: string)
      modifies this`selectedBusiness, this`selectedIndustry
      ensures CurrentSelection() == OnBusinessChange(old(CurrentSelection()), business)
    {
      selectedBusiness := business;
      if business != "" {
        selectedIndustry := "";
      }
    }

    method HandleIndustryChange(industry: string)
      modifies this`selectedBusiness, this`selectedIndustry
      ensures CurrentSelection() == OnIndustryChange(old(CurrentSelection()), industry)
    {
      selectedIndustry := industry;
      if industry != "" {
        selectedBusiness := "";
      }
    }

    /** The problem input's change handler. */
    method SetProblemDescription(text: string)
      modifies this`problemDescription
      ensures problemDescription == text
    {
      problemDescription := text;
    }

    /** The result-count select's change handler. */
    method SetResultCount(count: int)
      modifies this`resultCount
      ensures resultCount == count
    {
      resultCount := count;
    }

    /** The search button is enabled when nothing is loading and `canSearch`
        holds; so a click on it never meets a validation error. */
    function SearchEnabled(): (r: bool)
      reads this
      ensures r <==> !loading && FirstValidationError(selectedBusiness, selectedIndustry, problemDescription, resultCount) == None
    {
      !loading && CanSearch(selectedBusiness, selectedIndustry, problemDescription, resultCount)
    }

    /** `searchLeads` up to the request: the first failing check sets its
        error and stops
        with nothing else changed and no request; otherwise
        loading starts, error and results are cleared and the body is built. */
    method StartSearch() returns (request: Option<SearchRequest>)
      modifies this`loading, this`error, this`results
      ensures var verdict := FirstValidationError(selectedBusiness, selectedIndustry, problemDescription, resultCount);
        && (verdict.Some? ==>
              && request == None && error == ValidationMessage(verdict.value)
              && loading == old(loading) && results == old(results))
        && (verdict.None? ==>
              && request == Some(RequestBody(selectedBusiness, selectedIndustry, problemDescription, userId, resultCount))
              && loading && error == "" && results == None)
    {
      if selectedBusiness == "" && selectedIndustry == "" {
        error := ValidationMessage(MissingSelector);
        return None;
      }
      if Trim(problemDescription) == "" {
        error := ValidationMessage(EmptyProblem);
        return None;
      }
      if resultCount !in ResultCountOptions {
        error := ValidationMessage(InvalidResultCount);
        return None;
      }
      loading := true;
      error := "";
      results := None;
      request := Some(RequestBody(selectedBusiness, selectedIndustry, problemDescription, userId, resultCount));
    }

    /** `searchLeads` after the request: an ok reply becomes the results, any
        other reply becomes the error text; loading ends either way. */
    method FinishSearch(reply: Reply<SearchResponse>)
      modifies this`loading, this`error, this`results
      ensures !loading
      ensures reply.Ok? ==> results == Some(reply.body) && error == old(error)
      ensures !reply.Ok? ==> error == SearchFailureText(reply) && results == old(results)
    {
      if reply.Ok? {
        results := Some(reply.body);
      } else {
        error := SearchFailureText(reply);
      }
      loading := false;
    }

    /** The whole of `searchLeads`, the backend's reply given as `reply`. */
    method SearchLeads(reply: Reply<SearchResponse>) returns (request: Option<SearchRequest>)
      modifies this`loading, this`error, this`results
      ensures var verdict := FirstValidationError(selectedBusiness, selectedIndustry, problemDescription, resultCount);
        && (verdict.Some? ==>
              && request == None && error == ValidationMessage(verdict.value)
              && loading == old(loading) && results == old(results))
        && (verdict.None? ==>
              && request == Some(RequestBody(selectedBusiness, selectedIndustry, problemDescription, userId, resultCount))
              && !loading
              && (reply.Ok? ==> results == Some(reply.body) && error == "")
              && (!reply.Ok? ==> results == None && error == SearchFailureText(reply)))
    {
      request := StartSearch();
      if request.Some? {
        FinishSearch(reply);
      }
    }
  }

  // ---------------------------------------------------------------------
  // Rendering classifiers
  // ---------------------------------------------------------------------

  /** The colour families of the badges. */
  datatype Style = Neutral | Success | Caution | Warning

  /** `getUrgencyColor` */
  function UrgencyStyle(urgency: Option<string>): (r: Style)
    ensures r == Warning <==> urgency == Some("High")
    ensures r == Caution <==> urgency == Some("Medium")
    ensures r == Success <==> urgency == Some("Low")
    ensures r == Neutral <==> urgency !in {Some("High"), Some("Medium"), Some("Low")}
  {
    match urgency
    case Some("High") => Warning
    case Some("Medium") => Caution
    case Some("Low") => Success
    case _ => Neutral
  }

  /** `getRelevanceColor`: an absent or zero score is neutral, 80 and above
      success, 60 to 79 caution, anything else (negative scores too) warning. */
  function RelevanceStyle(score: Option<int>): (r: Style)
    ensures r == Neutral <==> !NumberTruthy(score)
    ensures r == Success <==> score.Some? && score.value >= 80
    ensures r == Caution <==> score.Some? && 60 <= score.value < 80
    ensures r == Warning <==> score.Some? && score.value < 60 && score.value != 0
  {
    if !NumberTruthy(score) then Neutral
    else if score.value >= 80 then Success
    else if score.value >= 60 then Caution
    else Warning
  }

  datatype Badge = Badge(text: string, style: Style)

  /** What one result card shows beside the lead's own fields. */
  datatype LeadCard = LeadCard(lead: Lead, relevance: Option<Badge>, urgency: Option<Badge>)

  /** A card: the relevance badge only for a truthy score, coloured by
      `RelevanceStyle` and never neutral; the urgency badge only for a
      non-empty level, coloured by `UrgencyStyle`. */
  function Card(lead: Lead): (c: LeadCard)
    ensures c.lead == lead
    ensures c.relevance.Some? <==> NumberTruthy(lead.aiRelevanceScore)
    ensures c.urgency.Some? <==> lead.urgencyLevel.Some? && lead.urgencyLevel.value != ""
    ensures c.relevance.Some? ==>
              c.relevance.value == Badge("Relevance: " + IntToString(lead.aiRelevanceScore.value) + "%", RelevanceStyle(lead.aiRelevanceScore))
    ensures c.urgency.Some? ==>
              c.urgency.value == Badge(lead.urgencyLevel.value + " Urgency", UrgencyStyle(lead.urgencyLevel))
    ensures c.relevance.Some? ==> c.relevance.value.style != Neutral
  {
    LeadCard(
      lead,
      if NumberTruthy(lead.aiRelevanceScore) then
        Some(Badge("Relevance: " + IntToString(lead.aiRelevanceScore.value) + "%", RelevanceStyle(lead.aiRelevanceScore)))
      else None,
      if lead.urgencyLevel.Some? && lead.urgencyLevel.value != "" then
        Some(Badge(lead.urgencyLevel.value + " Urgency", UrgencyStyle(lead.urgencyLevel)))
      else None)
  }

  /** The result list: one card per lead, in the order received. */
  function Cards(leads: seq<Lead>): (cards: seq<LeadCard>)
    ensures |cards| == |leads|
    ensures forall i :: 0 <= i < |leads| ==> cards[i] == Card(leads[i]) && cards[i].lead == leads[i]
  {
    seq(|leads|, i requires 0 <= i < |leads| => Card(leads[i]))
  }

  /** The freshness note beside the heading. */
  datatype Freshness = FreshResults | ResultsFromHoursAgo(hours: int) | NoFreshnessNote

  /** "Fresh results" for an age of zero, the age note for a positive age,
      and no note at all for a negative age. */
  function FreshnessNote(ageHours: int): (r: Freshness)
    ensures r == FreshResults <==> ageHours == 0
    ensures r.ResultsFromHoursAgo? <==> ageHours > 0
    ensures r.ResultsFromHoursAgo? ==> r.hours == ageHours
    ensures r == NoFreshnessNote <==> ageHours < 0
  {
    if ageHours > 0 then ResultsFromHoursAgo(ageHours)
    else if ageHours == 0 then FreshResults
    else NoFreshnessNote
  }

  /** The banners drawn from the free-text message. */
  datatype Banners = Banners(qualityNotice: bool, betaBadge: bool)

  /** The quality notice shows when the message contains both "Request #"
      and "less relevant"; the beta badge when it contains "Beta Quality". */
  function MessageBanners(message: string): (r: Banners)
    ensures r.qualityNotice <==>
              (exists i :: OccursAt(message, "Request #", i)) && (exists j :: OccursAt(message, "less relevant", j))
    ensures r.betaBadge <==> exists i :: OccursAt(message, "Beta Quality", i)
  {
    ContainsIffOccurs(message, "Request #");
    ContainsIffOccurs(message, "less relevant");
    ContainsIffOccurs(message, "Beta Quality");
    Banners(Contains(message, "Request #") && Contains(message, "less relevant"),
            Contains(message, "Beta Quality"))
  }

  /** Everything the results panel derives from one reply. */
  datatype ResultsPanel = ResultsPanel(totalFound: int, freshness: Freshness, message: string, banners: Banners, cards: seq<LeadCard>)

  /** The results panel shows the reply's own leads, count and message,
      without re-ordering anything. */
  function Panel(resp: SearchResponse): (p: ResultsPanel)
    ensures p.totalFound == resp.totalFound && p.message == resp.message
    ensures p.freshness == FreshnessNote(resp.resultAgeHours)
    ensures p.banners == MessageBanners(resp.message)
    ensures p.cards == Cards(resp.leads)
    ensures |p.cards| == |resp.leads| && forall i :: 0 <= i < |resp.leads| ==> p.cards[i].lead == resp.leads[i]
  {
    ResultsPanel(resp.totalFound, FreshnessNote(resp.resultAgeHours), resp.message,
                 MessageBanners(resp.message), Cards(resp.leads))
  }

  /** A reply with message "Beta Quality results", age 0 and two leads gives
      two cards in the reply's order, the beta badge and the "Fresh results"
      note. */
  lemma BetaQualityExample(a: Lead, b: Lead)
    ensures var p := Panel(SearchResponse([a, b], 2, "Beta Quality results", 0, 0));
      && |p.cards| == 2 && p.cards[0].lead == a && p.cards[1].lead == b
      && p.banners.betaBadge
      && p.freshness == FreshResults
  {
    assert OccursAt("Beta Quality results", "Beta Quality", 0);
  }
}
