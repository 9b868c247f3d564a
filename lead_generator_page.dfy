/** The lead-generator page: the tier gate, the search form, the results area,
    the email and phone filters of a lead card, and the pagination of ten leads
    a page. */
module LeadGeneratorPage {
  import opened Common
  import opened Yelp
  import opened LeadGenerator

  const LeadsPerPage: nat := 10

  function Min(a: int, b: int): int { if a <= b then a else b }

  /** Where `Array.prototype.slice` starts or ends for index `i` of a list of `n`:
      a negative index counts from the end, and both are clamped to the list. */
  function SliceIndex(i: int, n: nat): (r: nat)
    ensures r <= n
    ensures 0 <= i ==> r == Min(i, n)
  {
    if i < 0 then (if n + i < 0 then 0 else n + i) else Min(i, n)
  }

  function JsSlice<T>(s: seq<T>, start: int, end: int): (r: seq<T>)
  {
    var a, b := SliceIndex(start, |s|), SliceIndex(end, |s|);
    if a < b then s[a..b] else []
  }

  /** `leads.slice(currentPage * 10 - 10, currentPage * 10)`: for a real page
      number, the leads from `(p - 1) * 10` up to `p * 10`, at most ten of them. */
  function PageSlice<T>(leads: seq<T>, page: int): (r: seq<T>)
    ensures page >= 1 ==> |r| <= LeadsPerPage
    ensures page >= 1 ==> r == leads[Min((page - 1) * LeadsPerPage, |leads|)..Min(page * LeadsPerPage, |leads|)]
  {
    JsSlice(leads, page * LeadsPerPage - LeadsPerPage, page * LeadsPerPage)
  }

  /** `Math.ceil(leads.length / 10)`. */
  function TotalPages(n: nat): (r: nat)
    ensures r == 0 <==> n == 0
    ensures n > 0 ==> (r - 1) * LeadsPerPage < n <= r * LeadsPerPage
  {
    (n + LeadsPerPage - 1) / LeadsPerPage
  }

  /** Pages `1..k` read one after the other. */
  function PagesUpTo<T>(leads: seq<T>, k: nat): seq<T> {
    if k == 0 then [] else PagesUpTo(leads, k - 1) + PageSlice(leads, k)
  }

  /** The first `k` pages are the first `10 k` leads. */
  lemma {:induction false} PagesUpToPrefix<T>(leads: seq<T>, k: nat)
    ensures PagesUpTo(leads, k) == leads[..Min(k * LeadsPerPage, |leads|)]
  {
    if k > 0 {
      PagesUpToPrefix(leads, k - 1);
      var a, b := Min((k - 1) * LeadsPerPage, |leads|), Min(k * LeadsPerPage, |leads|);
      assert leads[..a] + leads[a..b] == leads[..b];
    }
  }

  /** Pages `1..totalPages` together hold every lead exactly once, in order, and
      every page past the last is empty. */
  lemma PagesCoverLeads<T>(leads: seq<T>)
    ensures PagesUpTo(leads, TotalPages(|leads|)) == leads
    ensures forall p :: p > TotalPages(|leads|) ==> PageSlice(leads, p) == []
  {
    PagesUpToPrefix(leads, TotalPages(|leads|));
    assert leads[..|leads|] == leads;
  }

  /** The `for` loop that lists the page buttons: `1, 2, …, totalPages`. */
  method PageNumbers(totalPages: nat) returns (pageNumbers: seq<int>)
    ensures |pageNumbers| == totalPages
    ensures forall k :: 0 <= k < |pageNumbers| ==> pageNumbers[k] == k + 1
  {
    pageNumbers := [];
    for i := 1 to totalPages + 1
      invariant |pageNumbers| == i - 1
      invariant forall k :: 0 <= k < |pageNumbers| ==> pageNumbers[k] == k + 1
    {
      pageNumbers := pageNumbers + [i];
    }
  }

  /** The Previous button: `Math.max(prev - 1, 1)`. */
  function PreviousPage(p: int): (r: int)
    ensures r >= 1
    ensures p > 1 ==> r == p - 1
    ensures p <= 1 ==> r == 1
  {
    if p - 1 >= 1 then p - 1 else 1
  }

  /** The Next button: `Math.min(prev + 1, totalPages)`. */
  function NextPage(p: int, totalPages: int): (r: int)
    ensures r <= totalPages
    ensures p < totalPages ==> r == p + 1
    ensures p >= totalPages ==> r == totalPages
  {
    if p + 1 <= totalPages then p + 1 else totalPages
  }

  predicate InRange(p: int, n: nat) {
    1 <= p <= TotalPages(n)
  }

  /** With leads to show, Previous and Next keep the page in `1..totalPages`, and
      a disabled button would leave the page where it is. */
  lemma ButtonsStayInRange(p: int, n: nat)
    requires InRange(p, n)
    ensures InRange(PreviousPage(p), n) && InRange(NextPage(p, TotalPages(n)), n)
    ensures p == 1 ==> PreviousPage(p) == p
    ensures p == TotalPages(n) ==> NextPage(p, TotalPages(n)) == p
  {
  }

  /** `needMoreThanOne`: the pagination shows exactly when there is a second page. */
  function ShowsPagination(n: nat): (b: bool)
    ensures b <==> TotalPages(n) > 1
  {
    n > LeadsPerPage
  }

  /** A lead card shows the email only when there is a real one. */
  predicate ShowsEmail(l: Lead) {
    l.email != "" && l.email != ContactViaYelp
  }

  predicate ShowsPhone(l: Lead) {
    l.phoneNumber != "" && l.phoneNumber != "Not available"
  }

  /** A lead built from Yelp never shows an email, and shows a phone exactly when
      Yelp gave one. */
  lemma YelpCardsShowNoEmail(businesses: seq<YelpBusiness>)
    ensures forall i :: 0 <= i < |businesses| ==>
      var l := TransformYelpDataToLeads(businesses)[i];
      && !ShowsEmail(l)
      && (ShowsPhone(l) <==> PhoneOf(businesses[i]) != "Not available")
  {
  }

  datatype PageView = Spinner | Locked | Feature

  /** A spinner until the subscription is known, then the feature for the
      Expert Freelancer tier alone and the lock message for everyone else. */
  function SelectPageView(isLoading: bool, tier: Option<string>): (v: PageView)
    ensures v == Spinner <==> isLoading
    ensures v == Feature <==> !isLoading && tier == Some("Expert Freelancer")
  {
    if isLoading then Spinner
    else if tier == Some("Expert Freelancer") then Feature
    else Locked
  }

  /** `data?.subscription || null`. */
  function TierOf(subscription: Option<string>): (r: Option<string>)
    ensures r.Some? <==> Truthy(subscription)
    ensures r.Some? ==> r == subscription
  {
    if Truthy(subscription) then subscription else None
  }

  datatype Results =
    | Generating
    | Cards(shown: seq<Lead>, pagination: bool)
    | ErrorMessage(message: string)
    | NoLeadsFound
    | NothingYet

  /** The results area. */
  function SelectResults(loading: bool, leads: seq<Lead>, page: int, error: Option<string>, location: string): (r: Results)
    ensures r == Generating <==> loading
    ensures r.Cards? <==> !loading && leads != []
    ensures r.Cards? ==> r.shown == PageSlice(leads, page) && (r.pagination <==> |leads| > LeadsPerPage)
    ensures r.ErrorMessage? <==> !loading && leads == [] && Truthy(error)
    ensures r.ErrorMessage? ==> r.message == error.value
    ensures r == NoLeadsFound <==> !loading && leads == [] && !Truthy(error) && location != ""
  {
    if loading then Generating
    else if leads != [] then Cards(PageSlice(leads, page), ShowsPagination(|leads|))
    else if Truthy(error) then ErrorMessage(error.value)
    else if location != "" then NoLeadsFound
    else NothingYet
  }

  /** `formData.location && !error`: the search tips. */
  predicate ShowsTips(location: string, error: Option<string>) {
    location != "" && !Truthy(error)
  }

  /** The tips show only beside the "no leads found" message. */
  lemma TipsOnlyWithNoLeadsFound(leads: seq<Lead>, page: int, error: Option<string>, location: string)
    requires leads == []
    ensures ShowsTips(location, error) <==> SelectResults(false, leads, page, error, location) == NoLeadsFound
  {
  }

  datatype FormField = BusinessType | Location | Radius | Limit

  /** `handleInputChange`: one field takes the typed value, the others stay. */
  function WithField(p: LeadGeneratorParams, field: FormField, value: string): (r: LeadGeneratorParams)
    ensures field == BusinessType ==> r == p.(businessType := value)
    ensures field == Location ==> r == p.(location := value)
    ensures field == Radius ==> r == p.(radius := value)
    ensures field == Limit ==> r == p.(limit := value)
  {
    match field
    case BusinessType => p.(businessType := value)
    case Location => p.(location := value)
    case Radius => p.(radius := value)
    case Limit => p.(limit := value)
  }

  /** The page's own state. */
  class Page {
    var currentTier: Option<string>
    var isLoading: bool
    var currentPage: int
    var formData: LeadGeneratorParams

    constructor ()
      ensures currentTier.None? && isLoading && currentPage == 1
      ensures formData == LeadGeneratorParams("", "", "10", "50")
    {
      currentTier, isLoading, currentPage := None, true, 1;
      formData := LeadGeneratorParams("", "", "10", "50");
    }

    /** The first effect: the tier once the users row is read; a failed read leaves it unset. */
    method SubscriptionLoaded(subscription: Result<Option<string>>)
      modifies this
      ensures currentTier == (if subscription.Ok? then TierOf(subscription.value) else old(currentTier))
      ensures !isLoading && currentPage == old(currentPage) && formData == old(formData)
    {
      if subscription.Ok? {
        currentTier := TierOf(subscription.value);
      }
      isLoading := false;
    }

    method ChangeField(field: FormField, value: string)
      modifies this
      ensures formData == WithField(old(formData), field, value)
      ensures currentTier == old(currentTier) && isLoading == old(isLoading) && currentPage == old(currentPage)
    {
      formData := WithField(formData, field, value);
    }

    method Previous()
      modifies this
      ensures currentPage == PreviousPage(old(currentPage))
      ensures currentTier == old(currentTier) && isLoading == old(isLoading) && formData == old(formData)
    {
      currentPage := PreviousPage(currentPage);
    }

    method Next(leadCount: nat)
      modifies this
      ensures currentPage == NextPage(old(currentPage), TotalPages(leadCount))
      ensures currentTier == old(currentTier) && isLoading == old(isLoading) && formData == old(formData)
    {
      currentPage := NextPage(currentPage, TotalPages(leadCount));
    }

    /** A numbered page button. */
    method GoTo(number: int)
      modifies this
      ensures currentPage == number
      ensures currentTier == old(currentTier) && isLoading == old(isLoading) && formData == old(formData)
    {
      currentPage := number;
    }

    /** `handleGenerate`: the search runs on the form, its failure is swallowed,
        and the new leads list sends the page back to 1. */
    method HandleGenerate(hook: Hook, fetched: Fetched)
      modifies this, hook
      ensures hook.leads == (var r := Outcome(old(formData), fetched); if r.Ok? then r.value else [])
      ensures hook.error == (var r := Outcome(old(formData), fetched); if r.Ok? then None else Some(ErrorState(r.message)))
      ensures hook.requests == old(hook.requests) + (if ValidationError(old(formData)).None? then [old(formData)] else [])
      ensures !hook.loading && hook.Consistent()
      ensures currentPage == 1
      ensures currentTier == old(currentTier) && isLoading == old(isLoading) && formData == old(formData)
    {
      var _ := hook.GenerateLeads(formData, fetched);
      currentPage := 1;
    }
  }
}
