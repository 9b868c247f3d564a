/** The Yelp side of the lead generator: the business records the search returns
    and their transformation into the app's leads. The search request itself
    (the API key, the miles-to-metres conversion, the HTTP call) is not modelled. */
module Yelp {
  import opened Common

  datatype Category = Category(alias: string, title: string)

  datatype YelpBusiness = YelpBusiness(
    id: string,
    alias: string,
    name: string,
    imageUrl: Option<string>,
    url: Option<string>,
    phone: Option<string>,
    displayPhone: Option<string>,
    categories: Option<seq<Category>>)

  /** A lead as the page lists it. */
  datatype Lead = Lead(
    name: string,
    service: string,
    email: string,
    phoneNumber: string,
    imageUrl: Option<string>,
    website: Option<string>)

  /** Yelp gives no email address, so every lead carries this placeholder. */
  const ContactViaYelp: string := "Contact via Yelp"

  /** `categories?.[0]?.title || 'Not specified'`. */
  function ServiceOf(b: YelpBusiness): (r: string)
    ensures b.categories.Some? && b.categories.value != [] && b.categories.value[0].title != "" ==>
      r == b.categories.value[0].title
    ensures b.categories.None? || b.categories.value == [] || b.categories.value[0].title == "" ==>
      r == "Not specified"
  {
    var first := if b.categories.Some? && b.categories.value != [] then Some(b.categories.value[0].title) else None;
    OrElse(first, "Not specified")
  }

  /** `phone || display_phone || 'Not available'`. */
  function PhoneOf(b: YelpBusiness): (r: string)
    ensures r != ""
    ensures Truthy(b.phone) ==> r == b.phone.value
    ensures !Truthy(b.phone) && Truthy(b.displayPhone) ==> r == b.displayPhone.value
    ensures !Truthy(b.phone) && !Truthy(b.displayPhone) ==> r == "Not available"
  {
    OrElse(b.phone, OrElse(b.displayPhone, "Not available"))
  }

  /** One business as a lead: the name, image and page copied, the service and
      phone with their fallbacks, the email always the placeholder. */
  function ToLead(b: YelpBusiness): (l: Lead)
    ensures l.name == b.name && l.imageUrl == b.imageUrl && l.website == b.url
    ensures l.service == ServiceOf(b) && l.phoneNumber == PhoneOf(b)
    ensures l.email == ContactViaYelp
  {
    Lead(b.name, ServiceOf(b), ContactViaYelp, PhoneOf(b), b.imageUrl, b.url)
  }

  /** `transformYelpDataToLeads`: one lead per business, in the same order. */
  function TransformYelpDataToLeads(businesses: seq<YelpBusiness>): (r: seq<Lead>)
    ensures |r| == |businesses|
    ensures forall i :: 0 <= i < |r| ==> r[i] == ToLead(businesses[i])
  {
    seq(|businesses|, i requires 0 <= i < |businesses| => ToLead(businesses[i]))
  }

  /** Transforming two lists joined is joining their transforms. */
  lemma TransformAppend(a: seq<YelpBusiness>, b: seq<YelpBusiness>)
    ensures TransformYelpDataToLeads(a + b) == TransformYelpDataToLeads(a) + TransformYelpDataToLeads(b)
  {
  }

  /** No lead from Yelp has an email address or an empty phone field. */
  lemma LeadsHaveNoEmail(businesses: seq<YelpBusiness>)
    ensures forall l :: l in TransformYelpDataToLeads(businesses) ==> l.email == ContactViaYelp && l.phoneNumber != ""
  {
  }
}
