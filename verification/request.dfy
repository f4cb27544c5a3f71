/** The charge request as the web framework hands it to the handler, and the
    process-wide endpoint table. */
module Requests {

  /** `charge_type`: top up a balance directly, or buy a PIN code product. */
  datatype ChargeType = Direct | Pincode
  {
    /** The literal the request carries, also the key of the endpoint table. */
    function Name(): (s: string)
      ensures s == "pincode" <==> this == Pincode
    {
      match this
      case Direct => "direct"
      case Pincode => "pincode"
    }
  }

  const MinAmount: int := 2000
  const MaxAmount: int := 20000

  /** `ChargeRequest`. The phone number carries no format constraint here: the
      operator classifier is its only check. */
  datatype ChargeRequest = ChargeRequest(
    amount: int,
    phone: string,
    isSuper: bool,
    isDaemi: bool,
    chargeType: ChargeType)
  {
    /** The bound the request model puts on `amount`; requests outside it never
        reach the handler. */
    predicate Valid() {
      MinAmount <= amount <= MaxAmount
    }
  }

  /** `API_ENDPOINTS`: the reseller endpoint for each charge type. */
  const ApiEndpoints: map<string, string> := map[
    "direct" := "https://chr724.ir/services/v3/EasyCharge/TopUp",
    "pincode" := "https://chr724.ir/services/v3/EasyCharge/BuyProduct"]

  /** Every charge type has an endpoint, a distinct one. */
  lemma EndpointsCoverChargeTypes(t: ChargeType, u: ChargeType)
    ensures t.Name() in ApiEndpoints
    ensures t != u ==> ApiEndpoints[t.Name()] != ApiEndpoints[u.Name()]
  {
  }
}
