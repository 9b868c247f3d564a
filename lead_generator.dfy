/** The lead-generator hook: `generateLeads` checks the form, asks the app's
    lead-generator route and keeps the leads, the loading flag and the error.
    What the route answered is an input. */
module LeadGenerator {
  import opened Common
  import opened Yelp

  /** The search form. */
  datatype LeadGeneratorParams = LeadGeneratorParams(businessType: string, location: string, radius: string, limit: string)

  /** The parsed body of the route's answer: an array of leads, or an object with
      optional `error` and `message` fields. */
  datatype Body = LeadArray(leads: seq<Lead>) | ErrorObject(error: Option<string>, message: Option<string>)

  /** What the request came to: an exception (network or JSON), or an answer. */
  datatype Fetched = Thrown(message: string) | Answered(ok: bool, body: Body)

  /** The form check, business type first. */
  function ValidationError(params: LeadGeneratorParams): (r: Option<string>)
    ensures Trim(params.businessType) == "" ==> r == Some("Please enter a business type")
    ensures Trim(params.businessType) != "" && Trim(params.location) == "" ==> r == Some("Please enter a location")
    ensures r.None? <==> Trim(params.businessType) != "" && Trim(params.location) != ""
  {
    if Trim(params.businessType) == "" then Some("Please enter a business type")
    else if Trim(params.location) == "" then Some("Please enter a location")
    else None
  }

  /** The message of a refused request: `data.error || data.message || 'Failed to generate leads'`. */
  function RefusalMessage(body: Body): (r: string)
    ensures r != ""
    ensures body.LeadArray? ==> r == "Failed to generate leads"
    ensures body.ErrorObject? && Truthy(body.error) ==> r == body.error.value
    ensures body.ErrorObject? && !Truthy(body.error) && Truthy(body.message) ==> r == body.message.value
    ensures body.ErrorObject? && !Truthy(body.error) && !Truthy(body.message) ==> r == "Failed to generate leads"
  {
    if body.LeadArray? then "Failed to generate leads"
    else OrElse(body.error, OrElse(body.message, "Failed to generate leads"))
  }

  /** The leads of a request, or the message it fails with. */
  function Outcome(params: LeadGeneratorParams, fetched: Fetched): (r: Result<seq<Lead>>)
    ensures ValidationError(params).Some? ==> r == Err(ValidationError(params).value)
    ensures ValidationError(params).None? ==> match fetched
      case Thrown(m) => r == Err(m)
      case Answered(ok, body) =>
        if !ok then r == Err(RefusalMessage(body))
        else if body.ErrorObject? then r == Err("Unexpected response format from API")
        else r == Ok(body.leads)
    ensures r.Ok? <==> ValidationError(params).None? && fetched.Answered? && fetched.ok && fetched.body.LeadArray?
  {
    var err := ValidationError(params);
    if err.Some? then Err(err.value)
    else match fetched
      case Thrown(m) => Err(m)
      case Answered(ok, body) =>
        if !ok then Err(RefusalMessage(body))
        else if !body.LeadArray? then Err("Unexpected response format from API")
        else Ok(body.leads)
  }

  /** The error state for a failure: the exception's message, or a fallback when it is empty. */
  function ErrorState(message: string): (r: string)
    ensures r != ""
    ensures message != "" ==> r == message
  {
    if message != "" then message else "Failed to generate leads. Please try again."
  }

  /** A form that fails the check fails the same way whatever the route would have answered. */
  lemma InvalidFormIgnoresAnswer(params: LeadGeneratorParams, f1: Fetched, f2: Fetched)
    requires ValidationError(params).Some?
    ensures Outcome(params, f1) == Outcome(params, f2)
  {
  }

  class Hook {
    var leads: seq<Lead>
    var loading: bool
    var error: Option<string>
    /** The searches sent to the route, in order. */
    var requests: seq<LeadGeneratorParams>

    /** An error is never shown beside leads. */
    predicate Consistent()
      reads this
    {
      error.Some? ==> leads == [] && error.value != ""
    }

    constructor ()
      ensures leads == [] && !loading && error.None? && requests == [] && Consistent()
    {
      leads, loading, error, requests := [], false, None, [];
    }

    /** `generateLeads`; `r` is what it returns or rethrows. */
    method GenerateLeads(params: LeadGeneratorParams, fetched: Fetched) returns (r: Result<seq<Lead>>)
      modifies this
      ensures r == Outcome(params, fetched)
      ensures requests == old(requests) + (if ValidationError(params).None? then [params] else [])
      ensures r.Ok? ==> leads == r.value && error.None?
      ensures r.Err? ==> leads == [] && error == Some(ErrorState(r.message))
      ensures !loading && Consistent()
    {
      loading := true;
      error := None;
      var t := Trim(params.businessType);
      if t == "" {
        r := Err("Please enter a business type");
      } else if Trim(params.location) == "" {
        r := Err("Please enter a location");
      } else {
        requests := requests + [params];
        match fetched {
          case Thrown(m) => r := Err(m);
          case Answered(ok, body) =>
            if !ok {
              r := Err(RefusalMessage(body));
            } else if !body.LeadArray? {
              r := Err("Unexpected response format from API");
            } else {
              r := Ok(body.leads);
            }
        }
      }
      if r.Ok? {
        leads := r.value;
      } else {
        error := Some(ErrorState(r.message));
        leads := [];
      }
      loading := false;
    }
  }
}
