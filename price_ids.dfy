/** The Stripe price identifiers the application recognises, and the plan tier each
    one stands for. Every tier has a current id and a legacy id kept for old
    subscriptions. The four tables that map a price id to a plan name or a limit
    all switch on these six literals; their contracts are stated through `TierOf`. */
module PriceIds {
  import opened Common

  const ExpertCurrent: string := "price_1RaQ0KDBPJVWy5Mhrf7REir7"
  const SeasonedCurrent: string := "price_1RaPzpDBPJVWy5Mh7TS53Heu"
  const NewCurrent: string := "price_1RTCfJDBPJVWy5MhqB5gMwWZ"
  const ExpertLegacy: string := "price_1OqYLgDNtZHzJBITKyRoXhOD"
  const SeasonedLegacy: string := "price_1OqYLFDNtZHzJBITXVYfHbXt"
  const NewLegacy: string := "price_1OqYKgDNtZHzJBITvDLbA6Vz"

  datatype Tier = NewFreelancer | SeasonedFreelancer | ExpertFreelancer

  /** The tier of a price id, grouping each current id with its legacy id. */
  function TierOf(priceId: string): Option<Tier> {
    if priceId == NewCurrent || priceId == NewLegacy then Some(NewFreelancer)
    else if priceId == SeasonedCurrent || priceId == SeasonedLegacy then Some(SeasonedFreelancer)
    else if priceId == ExpertCurrent || priceId == ExpertLegacy then Some(ExpertFreelancer)
    else None
  }

  /** The display name of a tier, as every table spells it. */
  function TierName(t: Tier): string {
    match t
    case NewFreelancer => "New Freelancer"
    case SeasonedFreelancer => "Seasoned Freelancer"
    case ExpertFreelancer => "Expert Freelancer"
  }

  /** Exactly six ids are recognised, two per tier. */
  lemma KnownIds(priceId: string)
    ensures TierOf(priceId).Some? <==>
      priceId in {ExpertCurrent, SeasonedCurrent, NewCurrent, ExpertLegacy, SeasonedLegacy, NewLegacy}
  {
  }
}
