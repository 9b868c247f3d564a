/** The contract data hooks: the subscription-to-contract-limit decision, the
    contract count, the normalisation of the joined client, the optimistic delete
    and the "can create another contract" gate. */
module ContractHooks {
  import opened Common
  import opened PriceIds
  import opened Subscription

  /** The client columns joined onto a contract. */
  datatype ClientInfo = ClientInfo(id: string, name: string, email: string, company: string)

  /** The join as the database returns it: a list of rows, a single row, or null. */
  datatype JoinedClient = JoinedList(rows: seq<ClientInfo>) | JoinedRow(row: ClientInfo) | JoinedNothing

  /** A fetched contract row, before normalisation. */
  datatype ContractRow = ContractRow(
    id: string, clientId: string, userId: string, title: string, content: string,
    createdAt: string, joined: JoinedClient)

  /** A contract as the cache holds it. */
  datatype Contract = Contract(
    id: string, clientId: string, userId: string, title: string, content: string,
    createdAt: string, clients: Option<ClientInfo>)

  /** What `useUserSubscription` of the contract hooks resolves to. */
  datatype ContractLimits = ContractLimits(maxContracts: int, status: string)

  // ---------------------------------------------------------------- limits

  /** This hook's contract limit per tier (8/4/2), and 0 for an unknown price id. */
  function HookContractLimit(t: Option<Tier>): int {
    match t
    case Some(ExpertFreelancer) => 8
    case Some(SeasonedFreelancer) => 4
    case Some(NewFreelancer) => 2
    case None => 0
  }

  /** The `let maxContracts = 0; switch (stripe_price_id) { ... }` step. */
  method MaxContractsFor(priceId: string) returns (maxContracts: int)
    ensures maxContracts == HookContractLimit(TierOf(priceId))
  {
    maxContracts := 0;
    if priceId == ExpertCurrent {
      maxContracts := 8;
    } else if priceId == SeasonedCurrent {
      maxContracts := 4;
    } else if priceId == NewCurrent {
      maxContracts := 2;
    } else if priceId == ExpertLegacy {
      maxContracts := 8;
    } else if priceId == SeasonedLegacy {
      maxContracts := 4;
    } else if priceId == NewLegacy {
      maxContracts := 2;
    }
  }

  /** The query function of the contract `useUserSubscription`, with the fetched
      row and the current time as inputs. */
  method UserSubscription(userId: string, fetched: QueryResult<SubscriptionData>, now: int)
    returns (r: Result<ContractLimits>)
    ensures userId == "" ==> r == Err("User ID required")
    ensures userId != "" && (fetched.QueryError? || fetched.data.None?) ==> r == Ok(ContractLimits(0, "free"))
    ensures userId != "" && fetched.QueryData? && fetched.data.Some? ==>
      var d := fetched.data.value;
      r == if HasAccess(d, now) then Ok(ContractLimits(HookContractLimit(TierOf(d.stripePriceId)), "active"))
           else Ok(ContractLimits(0, "expired"))
    ensures r.Ok? ==> r.value.status in {"free", "active", "expired"} && r.value.maxContracts in {0, 2, 4, 8}
    ensures r.Ok? && r.value.status != "active" ==> r.value.maxContracts == 0
  {
    if userId == "" {
      return Err("User ID required");
    }
    if fetched.QueryError? {
      return Ok(ContractLimits(0, "free"));
    }
    if fetched.data.Some? {
      var d := fetched.data.value;
      if HasAccess(d, now) {
        var maxContracts := MaxContractsFor(d.stripePriceId);
        return Ok(ContractLimits(maxContracts, "active"));
      } else {
        return Ok(ContractLimits(0, "expired"));
      }
    }
    return Ok(ContractLimits(0, "free"));
  }

  /** The query function of `useContractCount`: the counted rows, 0 when the count is null. */
  function ContractCount(userId: string, fetched: QueryResult<int>): (r: Result<int>)
    ensures userId == "" ==> r == Err("User ID required")
    ensures userId != "" && fetched.QueryError? ==> r == Err(fetched.message)
    ensures userId != "" && fetched.QueryData? && fetched.data.Some? ==> r == Ok(fetched.data.value)
    ensures userId != "" && fetched.QueryData? && fetched.data.None? ==> r == Ok(0)
  {
    if userId == "" then Err("User ID required")
    else if fetched.QueryError? then Err(fetched.message)
    else Ok(NumOr(fetched.data, 0))
  }

  // ---------------------------------------------------------------- normalisation

  /** `Array.isArray(j) ? j[0] || null : j`. */
  function NormaliseClient(j: JoinedClient): (r: Option<ClientInfo>)
    ensures j.JoinedList? ==> (r.Some? <==> j.rows != []) && (r.Some? ==> r.value == j.rows[0])
    ensures j.JoinedRow? ==> r == Some(j.row)
    ensures j.JoinedNothing? ==> r.None?
  {
    match j
    case JoinedList(rows) => if rows == [] then None else Some(rows[0])
    case JoinedRow(row) => Some(row)
    case JoinedNothing => None
  }

  /** One row with its join normalised; every other column is carried over. */
  function NormaliseContract(c: ContractRow): (r: Contract)
    ensures r.id == c.id && r.clientId == c.clientId && r.userId == c.userId
    ensures r.title == c.title && r.content == c.content && r.createdAt == c.createdAt
    ensures r.clients == NormaliseClient(c.joined)
  {
    Contract(c.id, c.clientId, c.userId, c.title, c.content, c.createdAt, NormaliseClient(c.joined))
  }

  /** The query function of `useContracts`, with the fetched rows as input. */
  function LoadContracts(userId: string, fetched: QueryResult<seq<ContractRow>>): (r: Result<seq<Contract>>)
    ensures userId == "" ==> r == Err("must include userId")
    ensures userId != "" && fetched.QueryError? ==> r == Err("error fetching contracts")
    ensures userId != "" && fetched.QueryData? ==>
      var rows := ListData(fetched);
      && r.Ok? && |r.value| == |rows|
      && forall i :: 0 <= i < |rows| ==> r.value[i] == NormaliseContract(rows[i])
  {
    if userId == "" then Err("must include userId")
    else if fetched.QueryError? then Err("error fetching contracts")
    else
      var rows := ListData(fetched);
      if rows == [] then Ok([])
      else Ok(seq(|rows|, i requires 0 <= i < |rows| => NormaliseContract(rows[i])))
  }

  // ---------------------------------------------------------------- optimistic delete

  function KeepOtherContracts(contractId: string): Contract -> bool {
    (c: Contract) => c.id != contractId
  }

  function HasContractId(contractId: string): Contract -> bool {
    (c: Contract) => c.id == contractId
  }

  /** The optimistic delete of `useDeleteContract`: exactly the contracts with the
      id leave the list, the others stay. */
  function OptimisticDelete(cache: Option<seq<Contract>>, contractId: string): (r: seq<Contract>)
    ensures forall i :: 0 <= i < |r| ==> r[i].id != contractId && r[i] in Cached(cache)
    ensures forall i :: 0 <= i < |Cached(cache)| && Cached(cache)[i].id != contractId ==> Cached(cache)[i] in r
    ensures |r| + |Filter(Cached(cache), HasContractId(contractId))| == |Cached(cache)|
  {
    FilterSplitsLength(Cached(cache), KeepOtherContracts(contractId), HasContractId(contractId));
    Filter(Cached(cache), KeepOtherContracts(contractId))
  }

  /** The delete keeps the relative order of what stays: deleting from two halves
      and joining the results is deleting from the whole. */
  lemma OptimisticDeleteKeepsOrder(front: seq<Contract>, back: seq<Contract>, contractId: string)
    ensures OptimisticDelete(Some(front + back), contractId)
         == OptimisticDelete(Some(front), contractId) + OptimisticDelete(Some(back), contractId)
  {
    FilterAppend(front, back, KeepOtherContracts(contractId));
  }

  // ---------------------------------------------------------------- gate

  datatype CanCreateContract = CanCreateContract(
    canCreate: bool, currentCount: int, maxContracts: int, subscriptionStatus: string)

  /** `useCanCreateContract`, from the two query results (`None` while loading).
      `subscription && ...` is falsy while the subscription is unknown. */
  function CanCreate(subscription: Option<ContractLimits>, contractCount: Option<int>): (r: CanCreateContract)
    ensures r.currentCount == GetOr(contractCount, 0)
    ensures subscription.None? ==> !r.canCreate && r.maxContracts == 0 && r.subscriptionStatus == "free"
    ensures subscription.Some? ==>
      r.maxContracts == subscription.value.maxContracts
      && r.subscriptionStatus == OrElse(Some(subscription.value.status), "free")
      && (r.canCreate <==> r.currentCount < r.maxContracts)
  {
    var count := NumOr(contractCount, 0);
    if subscription.None? then CanCreateContract(false, count, 0, "free")
    else
      var maxContracts := NumOr(Some(subscription.value.maxContracts), 0);
      CanCreateContract(count < maxContracts, count, maxContracts, OrElse(Some(subscription.value.status), "free"))
  }

  /** A free or expired subscription (limit 0) never permits a contract, whatever the
      count, as long as counts are not negative. */
  lemma ZeroLimitNeverCreates(subscription: Option<ContractLimits>, count: Option<int>)
    requires subscription.Some? ==> subscription.value.maxContracts == 0
    requires count.Some? ==> count.value >= 0
    ensures !CanCreate(subscription, count).canCreate
  {
  }

  /** Once creation is refused at some count, it is refused at every larger count. */
  lemma CanCreateMonotone(subscription: Option<ContractLimits>, n: int, m: int)
    requires n <= m && !CanCreate(subscription, Some(n)).canCreate
    ensures !CanCreate(subscription, Some(m)).canCreate
  {
  }
}
