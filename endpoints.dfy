/** The endpoint table: every `APIEndpoints` path, the HTTP method `ENDPOINT_CONFIGS`
    assigns to it, and `get_export_endpoint`. A path is the "/"-joined list of its
    segments: the group (e.g. "markets", "dam"), then "data" for the data groups,
    then the endpoint's own last segment. */
module Endpoints {
  import opened Wrappers
  import opened Strings
  import opened Paths

  /** The path groups of the enumeration. */
  datatype Group =
    | Dashboard | Generation | BilateralContracts | Bpm | Dam | Idm
    | Consumption | Main | AncillaryServices | Imbalance

  function GroupSegments(g: Group): seq<string> {
    match g
    case Dashboard => ["dashboard"]
    case Generation => ["generation"]
    case BilateralContracts => ["markets", "bilateral-contracts"]
    case Bpm => ["markets", "bpm"]
    case Dam => ["markets", "dam"]
    case Idm => ["markets", "idm"]
    case Consumption => ["consumption"]
    case Main => ["main"]
    case AncillaryServices => ["markets", "ancillary-services"]
    case Imbalance => ["markets", "imbalance"]
  }

  /** Whether the group's paths carry a "data" segment (all but dashboard and main). */
  predicate HasData(g: Group) {
    !g.Dashboard? && !g.Main?
  }

  /** The members of `APIEndpoints`. */
  datatype Endpoint =
    | DashboardBpm
    | DashboardDam
    | DashboardIdm
    | DashboardMms
    | DashboardConsumption
    | DashboardGeneration
    | DashboardWeightedPrice
    | GenerationAic
    | GenerationDpp
    | GenerationInjection
    | GenerationRealtime
    | GenerationOrgList
    | GenerationPowerplantList
    | GenerationRegionList
    | GenerationUevcbList
    | BilateralContractsAmount
    | BilateralContractsBid
    | BilateralContractsOffer
    | BpmOrderSummaryUp
    | BpmOrderSummaryDown
    | BpmSystemDirection
    | BpmSystemMarginalPrice
    | DamBlockBid
    | DamBlockOffer
    | DamClearingQuantity
    | DamClearingOrgList
    | DamTradeVolume
    | DamFlexibleBid
    | DamFlexibleOffer
    | DamInterimMcp
    | DamMcp
    | DamSubmittedBid
    | DamSubmittedOffer
    | DamSupplyDemand
    | IdmBidOffer
    | IdmMatchingQuantity
    | IdmMinMaxBid
    | IdmMinMaxMatch
    | IdmMinMaxOffer
    | IdmTradeVolume
    | IdmWeightedAverage
    | ConsumptionQuantity
    | ConsumptionConsumerQuantity
    | ConsumptionDemandForecast
    | ConsumptionDistributionRegion
    | ConsumptionEligibleConsumerCount
    | ConsumptionEligibleConsumerQuantity
    | ConsumptionLoadEstimationPlan
    | ConsumptionRealtime
    | ConsumptionWithdrawalQuantity
    | MainDateInit
    | MainProvinceList
    | MainDistrictList
    | AncillaryPrimaryCapacityAmount
    | AncillaryPrimaryCapacityPrice
    | AncillarySecondaryCapacityAmount
    | AncillarySecondaryCapacityPrice
    | ImbalanceQuantity
    | ImbalanceAmount

  function GroupOf(e: Endpoint): Group {
    match e
    case DashboardBpm => Dashboard
    case DashboardDam => Dashboard
    case DashboardIdm => Dashboard
    case DashboardMms => Dashboard
    case DashboardConsumption => Dashboard
    case DashboardGeneration => Dashboard
    case DashboardWeightedPrice => Dashboard
    case GenerationAic => Generation
    case GenerationDpp => Generation
    case GenerationInjection => Generation
    case GenerationRealtime => Generation
    case GenerationOrgList => Generation
    case GenerationPowerplantList => Generation
    case GenerationRegionList => Generation
    case GenerationUevcbList => Generation
    case BilateralContractsAmount => BilateralContracts
    case BilateralContractsBid => BilateralContracts
    case BilateralContractsOffer => BilateralContracts
    case BpmOrderSummaryUp => Bpm
    case BpmOrderSummaryDown => Bpm
    case BpmSystemDirection => Bpm
    case BpmSystemMarginalPrice => Bpm
    case DamBlockBid => Dam
    case DamBlockOffer => Dam
    case DamClearingQuantity => Dam
    case DamClearingOrgList => Dam
    case DamTradeVolume => Dam
    case DamFlexibleBid => Dam
    case DamFlexibleOffer => Dam
    case DamInterimMcp => Dam
    case DamMcp => Dam
    case DamSubmittedBid => Dam
    case DamSubmittedOffer => Dam
    case DamSupplyDemand => Dam
    case IdmBidOffer => Idm
    case IdmMatchingQuantity => Idm
    case IdmMinMaxBid => Idm
    case IdmMinMaxMatch => Idm
    case IdmMinMaxOffer => Idm
    case IdmTradeVolume => Idm
    case IdmWeightedAverage => Idm
    case ConsumptionQuantity => Consumption
    case ConsumptionConsumerQuantity => Consumption
    case ConsumptionDemandForecast => Consumption
    case ConsumptionDistributionRegion => Consumption
    case ConsumptionEligibleConsumerCount => Consumption
    case ConsumptionEligibleConsumerQuantity => Consumption
    case ConsumptionLoadEstimationPlan => Consumption
    case ConsumptionRealtime => Consumption
    case ConsumptionWithdrawalQuantity => Consumption
    case MainDateInit => Main
    case MainProvinceList => Main
    case MainDistrictList => Main
    case AncillaryPrimaryCapacityAmount => AncillaryServices
    case AncillaryPrimaryCapacityPrice => AncillaryServices
    case AncillarySecondaryCapacityAmount => AncillaryServices
    case AncillarySecondaryCapacityPrice => AncillaryServices
    case ImbalanceQuantity => Imbalance
    case ImbalanceAmount => Imbalance
  }

  /** The last segment of an endpoint's path. */
  function Leaf(e: Endpoint): string {
    match e
    case DashboardBpm => "balancing-power-market"
    case DashboardDam => "day-ahead-market"
    case DashboardIdm => "intra-day-market"
    case DashboardMms => "market-message-system"
    case DashboardConsumption => "realtime-consumption"
    case DashboardGeneration => "realtime-generation"
    case DashboardWeightedPrice => "weighted-average-price"
    case GenerationAic => "aic"
    case GenerationDpp => "dpp"
    case GenerationInjection => "injection-quantity"
    case GenerationRealtime => "realtime-generation"
    case GenerationOrgList => "organization-list"
    case GenerationPowerplantList => "powerplant-list"
    case GenerationRegionList => "region-list"
    case GenerationUevcbList => "uevcb-list"
    case BilateralContractsAmount => "amount-of-bilateral-contracts"
    case BilateralContractsBid => "bilateral-contracts-bid-quantity"
    case BilateralContractsOffer => "bilateral-contracts-offer-quantity"
    case BpmOrderSummaryUp => "order-summary-up"
    case BpmOrderSummaryDown => "order-summary-down"
    case BpmSystemDirection => "system-direction"
    case BpmSystemMarginalPrice => "system-marginal-price"
    case DamBlockBid => "amount-of-block-buying"
    case DamBlockOffer => "amount-of-block-selling"
    case DamClearingQuantity => "clearing-quantity"
    case DamClearingOrgList => "clearing-quantity-organization-list"
    case DamTradeVolume => "day-ahead-market-trade-volume"
    case DamFlexibleBid => "flexible-offer-buying-quantity"
    case DamFlexibleOffer => "flexible-offer-selling-quantity"
    case DamInterimMcp => "interim-mcp"
    case DamMcp => "mcp"
    case DamSubmittedBid => "submitted-bid-order-volume"
    case DamSubmittedOffer => "submitted-sales-order-volume"
    case DamSupplyDemand => "supply-demand"
    case IdmBidOffer => "bid-offer-quantities"
    case IdmMatchingQuantity => "matching-quantity"
    case IdmMinMaxBid => "min-max-bid-price"
    case IdmMinMaxMatch => "min-max-matching-price"
    case IdmMinMaxOffer => "min-max-offer-price"
    case IdmTradeVolume => "intraday-trade-volume"
    case IdmWeightedAverage => "weighted-average-price"
    case ConsumptionQuantity => "consumption-quantity"
    case ConsumptionConsumerQuantity => "consumer-quantity"
    case ConsumptionDemandForecast => "demand-forecast"
    case ConsumptionDistributionRegion => "distribution-region"
    case ConsumptionEligibleConsumerCount => "eligible-consumer-count"
    case ConsumptionEligibleConsumerQuantity => "eligible-consumer-quantity"
    case ConsumptionLoadEstimationPlan => "load-estimation-plan"
    case ConsumptionRealtime => "realtime-consumption"
    case ConsumptionWithdrawalQuantity => "st-uecm"
    case MainDateInit => "date-init"
    case MainProvinceList => "province-list"
    case MainDistrictList => "district-list"
    case AncillaryPrimaryCapacityAmount => "primary-frequency-capacity-amount"
    case AncillaryPrimaryCapacityPrice => "primary-frequency-capacity-price"
    case AncillarySecondaryCapacityAmount => "secondary-frequency-capacity-amount"
    case AncillarySecondaryCapacityPrice => "secondary-frequency-capacity-price"
    case ImbalanceQuantity => "imbalance-quantity"
    case ImbalanceAmount => "imbalance-amount"
  }

  datatype RequestMethod = GET | POST

  /** `ENDPOINT_CONFIGS`, in its own order: a total table, one entry per member. */
  function ConfiguredMethod(e: Endpoint): RequestMethod {
    match e
    case DashboardBpm => GET
    case DashboardDam => GET
    case DashboardIdm => GET
    case DashboardMms => GET
    case DashboardConsumption => GET
    case DashboardGeneration => GET
    case DashboardWeightedPrice => GET
    case GenerationPowerplantList => GET
    case GenerationRegionList => GET
    case ConsumptionDistributionRegion => GET
    case MainDateInit => GET
    case MainProvinceList => GET
    case GenerationAic => POST
    case GenerationDpp => POST
    case GenerationInjection => POST
    case GenerationRealtime => POST
    case GenerationOrgList => POST
    case GenerationUevcbList => POST
    case BilateralContractsAmount => POST
    case BilateralContractsBid => POST
    case BilateralContractsOffer => POST
    case BpmOrderSummaryUp => POST
    case BpmOrderSummaryDown => POST
    case BpmSystemDirection => POST
    case BpmSystemMarginalPrice => POST
    case DamBlockBid => POST
    case DamBlockOffer => POST
    case DamClearingQuantity => POST
    case DamClearingOrgList => POST
    case DamTradeVolume => POST
    case DamFlexibleBid => POST
    case DamFlexibleOffer => POST
    case DamInterimMcp => POST
    case DamMcp => POST
    case DamSubmittedBid => POST
    case DamSubmittedOffer => POST
    case DamSupplyDemand => POST
    case IdmBidOffer => POST
    case IdmMatchingQuantity => POST
    case IdmMinMaxBid => POST
    case IdmMinMaxMatch => POST
    case IdmMinMaxOffer => POST
    case IdmTradeVolume => POST
    case IdmWeightedAverage => POST
    case ConsumptionQuantity => POST
    case ConsumptionConsumerQuantity => POST
    case ConsumptionDemandForecast => POST
    case ConsumptionEligibleConsumerCount => POST
    case ConsumptionEligibleConsumerQuantity => POST
    case ConsumptionLoadEstimationPlan => POST
    case ConsumptionRealtime => POST
    case ConsumptionWithdrawalQuantity => POST
    case MainDistrictList => POST
    case AncillaryPrimaryCapacityAmount => POST
    case AncillaryPrimaryCapacityPrice => POST
    case AncillarySecondaryCapacityAmount => POST
    case AncillarySecondaryCapacityPrice => POST
    case ImbalanceQuantity => POST
    case ImbalanceAmount => POST
  }

  /** The endpoints the table marks GET. */
  const GetEndpoints: set<Endpoint> := {
    DashboardBpm,
    DashboardDam,
    DashboardIdm,
    DashboardMms,
    DashboardConsumption,
    DashboardGeneration,
    DashboardWeightedPrice,
    GenerationPowerplantList,
    GenerationRegionList,
    ConsumptionDistributionRegion,
    MainDateInit,
    MainProvinceList
  }


  /** The endpoint of a group with a given last segment, if there is one. The
      segments are told apart by their length first, then by their text. */
  function FromParts(g: Group, leaf: string): Option<Endpoint> {
    var n := |leaf|;
    match g
    case Dashboard =>
      if n == 22 then
        (if leaf == "balancing-power-market" then Some(DashboardBpm)
         else if leaf == "weighted-average-price" then Some(DashboardWeightedPrice)
         else None)
      else if n == 16 then
        (if leaf == "day-ahead-market" then Some(DashboardDam)
         else if leaf == "intra-day-market" then Some(DashboardIdm)
         else None)
      else if n == 21 then (if leaf == "market-message-system" then Some(DashboardMms) else None)
      else if n == 20 then (if leaf == "realtime-consumption" then Some(DashboardConsumption) else None)
      else if n == 19 then (if leaf == "realtime-generation" then Some(DashboardGeneration) else None)
      else None
    case Generation =>
      if n == 3 then
        (if leaf == "aic" then Some(GenerationAic)
         else if leaf == "dpp" then Some(GenerationDpp)
         else None)
      else if n == 18 then (if leaf == "injection-quantity" then Some(GenerationInjection) else None)
      else if n == 19 then (if leaf == "realtime-generation" then Some(GenerationRealtime) else None)
      else if n == 17 then (if leaf == "organization-list" then Some(GenerationOrgList) else None)
      else if n == 15 then (if leaf == "powerplant-list" then Some(GenerationPowerplantList) else None)
      else if n == 11 then (if leaf == "region-list" then Some(GenerationRegionList) else None)
      else if n == 10 then (if leaf == "uevcb-list" then Some(GenerationUevcbList) else None)
      else None
    case BilateralContracts =>
      if n == 29 then (if leaf == "amount-of-bilateral-contracts" then Some(BilateralContractsAmount) else None)
      else if n == 32 then (if leaf == "bilateral-contracts-bid-quantity" then Some(BilateralContractsBid) else None)
      else if n == 34 then
        (if leaf == "bilateral-contracts-offer-quantity" then Some(BilateralContractsOffer)
         else None)
      else None
    case Bpm =>
      if n == 16 then
        (if leaf == "order-summary-up" then Some(BpmOrderSummaryUp)
         else if leaf == "system-direction" then Some(BpmSystemDirection)
         else None)
      else if n == 18 then (if leaf == "order-summary-down" then Some(BpmOrderSummaryDown) else None)
      else if n == 21 then (if leaf == "system-marginal-price" then Some(BpmSystemMarginalPrice) else None)
      else None
    case Dam =>
      if n == 22 then (if leaf == "amount-of-block-buying" then Some(DamBlockBid) else None)
      else if n == 23 then (if leaf == "amount-of-block-selling" then Some(DamBlockOffer) else None)
      else if n == 17 then (if leaf == "clearing-quantity" then Some(DamClearingQuantity) else None)
      else if n == 35 then (if leaf == "clearing-quantity-organization-list" then Some(DamClearingOrgList) else None)
      else if n == 29 then (if leaf == "day-ahead-market-trade-volume" then Some(DamTradeVolume) else None)
      else if n == 30 then (if leaf == "flexible-offer-buying-quantity" then Some(DamFlexibleBid) else None)
      else if n == 31 then (if leaf == "flexible-offer-selling-quantity" then Some(DamFlexibleOffer) else None)
      else if n == 11 then (if leaf == "interim-mcp" then Some(DamInterimMcp) else None)
      else if n == 3 then (if leaf == "mcp" then Some(DamMcp) else None)
      else if n == 26 then (if leaf == "submitted-bid-order-volume" then Some(DamSubmittedBid) else None)
      else if n == 28 then (if leaf == "submitted-sales-order-volume" then Some(DamSubmittedOffer) else None)
      else if n == 13 then (if leaf == "supply-demand" then Some(DamSupplyDemand) else None)
      else None
    case Idm =>
      if n == 20 then (if leaf == "bid-offer-quantities" then Some(IdmBidOffer) else None)
      else if n == 17 then
        (if leaf == "matching-quantity" then Some(IdmMatchingQuantity)
         else if leaf == "min-max-bid-price" then Some(IdmMinMaxBid)
         else None)
      else if n == 22 then
        (if leaf == "min-max-matching-price" then Some(IdmMinMaxMatch)
         else if leaf == "weighted-average-price" then Some(IdmWeightedAverage)
         else None)
      else if n == 19 then (if leaf == "min-max-offer-price" then Some(IdmMinMaxOffer) else None)
      else if n == 21 then (if leaf == "intraday-trade-volume" then Some(IdmTradeVolume) else None)
      else None
    case Consumption =>
      if n == 20 then
        (if leaf == "consumption-quantity" then Some(ConsumptionQuantity)
         else if leaf == "load-estimation-plan" then Some(ConsumptionLoadEstimationPlan)
         else if leaf == "realtime-consumption" then Some(ConsumptionRealtime)
         else None)
      else if n == 17 then (if leaf == "consumer-quantity" then Some(ConsumptionConsumerQuantity) else None)
      else if n == 15 then (if leaf == "demand-forecast" then Some(ConsumptionDemandForecast) else None)
      else if n == 19 then (if leaf == "distribution-region" then Some(ConsumptionDistributionRegion) else None)
      else if n == 23 then
        (if leaf == "eligible-consumer-count" then Some(ConsumptionEligibleConsumerCount)
         else None)
      else if n == 26 then
        (if leaf == "eligible-consumer-quantity" then Some(ConsumptionEligibleConsumerQuantity)
         else None)
      else if n == 7 then (if leaf == "st-uecm" then Some(ConsumptionWithdrawalQuantity) else None)
      else None
    case Main =>
      if n == 9 then (if leaf == "date-init" then Some(MainDateInit) else None)
      else if n == 13 then
        (if leaf == "province-list" then Some(MainProvinceList)
         else if leaf == "district-list" then Some(MainDistrictList)
         else None)
      else None
    case AncillaryServices =>
      if n == 33 then
        (if leaf == "primary-frequency-capacity-amount" then Some(AncillaryPrimaryCapacityAmount)
         else None)
      else if n == 32 then
        (if leaf == "primary-frequency-capacity-price" then Some(AncillaryPrimaryCapacityPrice)
         else None)
      else if n == 35 then
        (if leaf == "secondary-frequency-capacity-amount" then Some(AncillarySecondaryCapacityAmount)
         else None)
      else if n == 34 then
        (if leaf == "secondary-frequency-capacity-price" then Some(AncillarySecondaryCapacityPrice)
         else None)
      else None
    case Imbalance =>
      if n == 18 then (if leaf == "imbalance-quantity" then Some(ImbalanceQuantity) else None)
      else if n == 16 then (if leaf == "imbalance-amount" then Some(ImbalanceAmount) else None)
      else None
  }


  /** The segments of a path in group `g` with last segment `leaf`. */
  function PathSegments(g: Group, leaf: string): seq<string> {
    GroupSegments(g) + (if HasData(g) then ["data"] else []) + [leaf]
  }

  function Segments(e: Endpoint): seq<string> {
    PathSegments(GroupOf(e), Leaf(e))
  }

  /** `APIEndpoints.X.value`: every path is absolute. */
  function Value(e: Endpoint): (v: string)
    ensures v != [] && v[0] == '/'
  {
    Join(Segments(e))
  }

  /** `get_export_endpoint`: every "/data/" becomes "/export/". */
  function ExportEndpoint(e: Endpoint): string {
    Replace(Value(e), "/data/", "/export/")
  }

  /** `ENDPOINT_CONFIGS[e]`: GET exactly for the twelve endpoints listed first. */
  function MethodOf(e: Endpoint): (m: RequestMethod)
    ensures m == GET <==> e in GetEndpoints
  {
    ConfiguredMethod(e)
  }

  lemma GroupPlain(g: Group)
    ensures forall k :: 0 <= k < |GroupSegments(g)| ==> Plain(GroupSegments(g)[k])
  {
    match g

    case Dashboard =>
    case Generation =>
    case BilateralContracts =>
    case Bpm =>
    case Dam =>
    case Idm =>
    case Consumption =>
    case Main =>
    case AncillaryServices =>
    case Imbalance =>
  }

  /** An endpoint's last segment is plain, and together with the group it names
      that endpoint and no other. */
  predicate LeafFits(e: Endpoint) {
    Plain(Leaf(e)) && FromParts(GroupOf(e), Leaf(e)) == Some(e)
  }

  lemma LeafFacts(e: Endpoint)
    ensures LeafFits(e)
  {
    match e
    case DashboardBpm => DashboardBpmFits();
    case DashboardDam => DashboardDamFits();
    case DashboardIdm => DashboardIdmFits();
    case DashboardMms => DashboardMmsFits();
    case DashboardConsumption => DashboardConsumptionFits();
    case DashboardGeneration => DashboardGenerationFits();
    case DashboardWeightedPrice => DashboardWeightedPriceFits();
    case GenerationAic => GenerationAicFits();
    case GenerationDpp => GenerationDppFits();
    case GenerationInjection => GenerationInjectionFits();
    case GenerationRealtime => GenerationRealtimeFits();
    case GenerationOrgList => GenerationOrgListFits();
    case GenerationPowerplantList => GenerationPowerplantListFits();
    case GenerationRegionList => GenerationRegionListFits();
    case GenerationUevcbList => GenerationUevcbListFits();
    case BilateralContractsAmount => BilateralContractsAmountFits();
    case BilateralContractsBid => BilateralContractsBidFits();
    case BilateralContractsOffer => BilateralContractsOfferFits();
    case BpmOrderSummaryUp => BpmOrderSummaryUpFits();
    case BpmOrderSummaryDown => BpmOrderSummaryDownFits();
    case BpmSystemDirection => BpmSystemDirectionFits();
    case BpmSystemMarginalPrice => BpmSystemMarginalPriceFits();
    case DamBlockBid => DamBlockBidFits();
    case DamBlockOffer => DamBlockOfferFits();
    case DamClearingQuantity => DamClearingQuantityFits();
    case DamClearingOrgList => DamClearingOrgListFits();
    case DamTradeVolume => DamTradeVolumeFits();
    case DamFlexibleBid => DamFlexibleBidFits();
    case DamFlexibleOffer => DamFlexibleOfferFits();
    case DamInterimMcp => DamInterimMcpFits();
    case DamMcp => DamMcpFits();
    case DamSubmittedBid => DamSubmittedBidFits();
    case DamSubmittedOffer => DamSubmittedOfferFits();
    case DamSupplyDemand => DamSupplyDemandFits();
    case IdmBidOffer => IdmBidOfferFits();
    case IdmMatchingQuantity => IdmMatchingQuantityFits();
    case IdmMinMaxBid => IdmMinMaxBidFits();
    case IdmMinMaxMatch => IdmMinMaxMatchFits();
    case IdmMinMaxOffer => IdmMinMaxOfferFits();
    case IdmTradeVolume => IdmTradeVolumeFits();
    case IdmWeightedAverage => IdmWeightedAverageFits();
    case ConsumptionQuantity => ConsumptionQuantityFits();
    case ConsumptionConsumerQuantity => ConsumptionConsumerQuantityFits();
    case ConsumptionDemandForecast => ConsumptionDemandForecastFits();
    case ConsumptionDistributionRegion => ConsumptionDistributionRegionFits();
    case ConsumptionEligibleConsumerCount => ConsumptionEligibleConsumerCountFits();
    case ConsumptionEligibleConsumerQuantity => ConsumptionEligibleConsumerQuantityFits();
    case ConsumptionLoadEstimationPlan => ConsumptionLoadEstimationPlanFits();
    case ConsumptionRealtime => ConsumptionRealtimeFits();
    case ConsumptionWithdrawalQuantity => ConsumptionWithdrawalQuantityFits();
    case MainDateInit => MainDateInitFits();
    case MainProvinceList => MainProvinceListFits();
    case MainDistrictList => MainDistrictListFits();
    case AncillaryPrimaryCapacityAmount => AncillaryPrimaryCapacityAmountFits();
    case AncillaryPrimaryCapacityPrice => AncillaryPrimaryCapacityPriceFits();
    case AncillarySecondaryCapacityAmount => AncillarySecondaryCapacityAmountFits();
    case AncillarySecondaryCapacityPrice => AncillarySecondaryCapacityPriceFits();
    case ImbalanceQuantity => ImbalanceQuantityFits();
    case ImbalanceAmount => ImbalanceAmountFits();
  }

  // One lemma per member keeps each proof about a string literal small.
  lemma DashboardBpmFits() ensures LeafFits(DashboardBpm) { }
  lemma DashboardDamFits() ensures LeafFits(DashboardDam) { }
  lemma DashboardIdmFits() ensures LeafFits(DashboardIdm) { }
  lemma DashboardMmsFits() ensures LeafFits(DashboardMms) { }
  lemma DashboardConsumptionFits() ensures LeafFits(DashboardConsumption) { }
  lemma DashboardGenerationFits() ensures LeafFits(DashboardGeneration) { }
  lemma DashboardWeightedPriceFits() ensures LeafFits(DashboardWeightedPrice) { }
  lemma GenerationAicFits() ensures LeafFits(GenerationAic) { }
  lemma GenerationDppFits() ensures LeafFits(GenerationDpp) { }
  lemma GenerationInjectionFits() ensures LeafFits(GenerationInjection) { }
  lemma GenerationRealtimeFits() ensures LeafFits(GenerationRealtime) { }
  lemma GenerationOrgListFits() ensures LeafFits(GenerationOrgList) { }
  lemma GenerationPowerplantListFits() ensures LeafFits(GenerationPowerplantList) { }
  lemma GenerationRegionListFits() ensures LeafFits(GenerationRegionList) { }
  lemma GenerationUevcbListFits() ensures LeafFits(GenerationUevcbList) { }
  lemma BilateralContractsAmountFits() ensures LeafFits(BilateralContractsAmount) { }
  lemma BilateralContractsBidFits() ensures LeafFits(BilateralContractsBid) { }
  lemma BilateralContractsOfferFits() ensures LeafFits(BilateralContractsOffer) { }
  lemma BpmOrderSummaryUpFits() ensures LeafFits(BpmOrderSummaryUp) { }
  lemma BpmOrderSummaryDownFits() ensures LeafFits(BpmOrderSummaryDown) { }
  lemma BpmSystemDirectionFits() ensures LeafFits(BpmSystemDirection) { }
  lemma BpmSystemMarginalPriceFits() ensures LeafFits(BpmSystemMarginalPrice) { }
  lemma DamBlockBidFits() ensures LeafFits(DamBlockBid) { }
  lemma DamBlockOfferFits() ensures LeafFits(DamBlockOffer) { }
  lemma DamClearingQuantityFits() ensures LeafFits(DamClearingQuantity) { }
  lemma DamClearingOrgListFits() ensures LeafFits(DamClearingOrgList) { }
  lemma DamTradeVolumeFits() ensures LeafFits(DamTradeVolume) { }
  lemma DamFlexibleBidFits() ensures LeafFits(DamFlexibleBid) { }
  lemma DamFlexibleOfferFits() ensures LeafFits(DamFlexibleOffer) { }
  lemma DamInterimMcpFits() ensures LeafFits(DamInterimMcp) { }
  lemma DamMcpFits() ensures LeafFits(DamMcp) { }
  lemma DamSubmittedBidFits() ensures LeafFits(DamSubmittedBid) { }
  lemma DamSubmittedOfferFits() ensures LeafFits(DamSubmittedOffer) { }
  lemma DamSupplyDemandFits() ensures LeafFits(DamSupplyDemand) { }
  lemma IdmBidOfferFits() ensures LeafFits(IdmBidOffer) { }
  lemma IdmMatchingQuantityFits() ensures LeafFits(IdmMatchingQuantity) { }
  lemma IdmMinMaxBidFits() ensures LeafFits(IdmMinMaxBid) { }
  lemma IdmMinMaxMatchFits() ensures LeafFits(IdmMinMaxMatch) { }
  lemma IdmMinMaxOfferFits() ensures LeafFits(IdmMinMaxOffer) { }
  lemma IdmTradeVolumeFits() ensures LeafFits(IdmTradeVolume) { }
  lemma IdmWeightedAverageFits() ensures LeafFits(IdmWeightedAverage) { }
  lemma ConsumptionQuantityFits() ensures LeafFits(ConsumptionQuantity) { }
  lemma ConsumptionConsumerQuantityFits() ensures LeafFits(ConsumptionConsumerQuantity) { }
  lemma ConsumptionDemandForecastFits() ensures LeafFits(ConsumptionDemandForecast) { }
  lemma ConsumptionDistributionRegionFits() ensures LeafFits(ConsumptionDistributionRegion) { }
  lemma ConsumptionEligibleConsumerCountFits() ensures LeafFits(ConsumptionEligibleConsumerCount) { }
  lemma ConsumptionEligibleConsumerQuantityFits() ensures LeafFits(ConsumptionEligibleConsumerQuantity) { }
  lemma ConsumptionLoadEstimationPlanFits() ensures LeafFits(ConsumptionLoadEstimationPlan) { }
  lemma ConsumptionRealtimeFits() ensures LeafFits(ConsumptionRealtime) { }
  lemma ConsumptionWithdrawalQuantityFits() ensures LeafFits(ConsumptionWithdrawalQuantity) { }
  lemma MainDateInitFits() ensures LeafFits(MainDateInit) { }
  lemma MainProvinceListFits() ensures LeafFits(MainProvinceList) { }
  lemma MainDistrictListFits() ensures LeafFits(MainDistrictList) { }
  lemma AncillaryPrimaryCapacityAmountFits() ensures LeafFits(AncillaryPrimaryCapacityAmount) { }
  lemma AncillaryPrimaryCapacityPriceFits() ensures LeafFits(AncillaryPrimaryCapacityPrice) { }
  lemma AncillarySecondaryCapacityAmountFits() ensures LeafFits(AncillarySecondaryCapacityAmount) { }
  lemma AncillarySecondaryCapacityPriceFits() ensures LeafFits(AncillarySecondaryCapacityPrice) { }
  lemma ImbalanceQuantityFits() ensures LeafFits(ImbalanceQuantity) { }
  lemma ImbalanceAmountFits() ensures LeafFits(ImbalanceAmount) { }

  /** Every last segment is free of "/" and differs from "data". */
  lemma LeafPlain(e: Endpoint)
    ensures Plain(Leaf(e))
  {
    LeafFacts(e);
  }

  /** An endpoint is recovered from its group and last segment. */
  lemma PartsDetermine(e: Endpoint)
    ensures FromParts(GroupOf(e), Leaf(e)) == Some(e)
  {
    LeafFacts(e);
  }

  /** The group a segment list starts with. */
  function GroupFromSegments(segs: seq<string>): Option<Group> {
    if segs == [] then None
    else if segs[0] == "dashboard" then Some(Dashboard)
    else if segs[0] == "generation" then Some(Generation)
    else if segs[0] == "consumption" then Some(Consumption)
    else if segs[0] == "main" then Some(Main)
    else if segs[0] == "markets" && |segs| > 1 then
      if segs[1] == "bilateral-contracts" then Some(BilateralContracts)
      else if segs[1] == "bpm" then Some(Bpm)
      else if segs[1] == "dam" then Some(Dam)
      else if segs[1] == "idm" then Some(Idm)
      else if segs[1] == "ancillary-services" then Some(AncillaryServices)
      else if segs[1] == "imbalance" then Some(Imbalance)
      else None
    else None
  }

  lemma GroupDetermined(e: Endpoint)
    ensures GroupFromSegments(Segments(e)) == Some(GroupOf(e))
  {
    PathGroup(GroupOf(e), Leaf(e));
  }

  lemma PathGroup(g: Group, leaf: string)
    ensures GroupFromSegments(PathSegments(g, leaf)) == Some(g)
  {
    var rest := (if HasData(g) then ["data"] else []) + [leaf];
    assert PathSegments(g, leaf) == GroupSegments(g) + rest;
    GroupPrefix(g, rest);
  }

  /** A segment list that starts with a group's segments names that group. */
  lemma GroupPrefix(g: Group, rest: seq<string>)
    ensures GroupFromSegments(GroupSegments(g) + rest) == Some(g)
  {
    var segs := GroupSegments(g) + rest;
    assert segs[0] == GroupSegments(g)[0];
    if |GroupSegments(g)| == 2 {
      assert segs[1] == GroupSegments(g)[1];
    }
  }

  /** The segments of a path determine the endpoint. */
  lemma SegmentsDetermine(e1: Endpoint, e2: Endpoint)
    requires Segments(e1) == Segments(e2)
    ensures e1 == e2
  {
    GroupDetermined(e1);
    GroupDetermined(e2);
    var n := |Segments(e1)| - 1;
    assert Leaf(e1) == Segments(e1)[n] == Segments(e2)[n] == Leaf(e2);
    PartsDetermine(e1);
    PartsDetermine(e2);
  }

  lemma SegmentsSlashFree(e: Endpoint)
    ensures forall k :: 0 <= k < |Segments(e)| ==> '/' !in Segments(e)[k]
  {
    LeafPlain(e);
    PathPlain(GroupOf(e), Leaf(e));
  }

  lemma PathPlain(g: Group, leaf: string)
    requires Plain(leaf)
    ensures forall k :: 0 <= k < |PathSegments(g, leaf)| ==> '/' !in PathSegments(g, leaf)[k]
    ensures !HasData(g) ==>
              forall k :: 0 <= k < |PathSegments(g, leaf)| ==> Plain(PathSegments(g, leaf)[k])
  {
    GroupPlain(g);
    var segs := PathSegments(g, leaf);
    forall k | 0 <= k < |segs|
      ensures '/' !in segs[k] && (!HasData(g) ==> Plain(segs[k]))
    {
      if k < |GroupSegments(g)| {
        assert segs[k] == GroupSegments(g)[k];
      }
    }
  }

  /** No two members share a path. */
  lemma ValuesDistinct(e1: Endpoint, e2: Endpoint)
    ensures Value(e1) == Value(e2) <==> e1 == e2
  {
    if Value(e1) == Value(e2) {
      SegmentsSlashFree(e1);
      SegmentsSlashFree(e2);
      JoinInjective(Segments(e1), Segments(e2));
      SegmentsDetermine(e1, e2);
    }
  }

  /** `get_export_endpoint`: dashboard and main paths map to themselves; every other
      path is its group prefix, "/data/" and its last segment, and its export path
      has the same prefix and last segment around "/export/", two characters longer. */
  lemma ExportEndpointShape(e: Endpoint)
    ensures !HasData(GroupOf(e)) ==> ExportEndpoint(e) == Value(e)
    ensures HasData(GroupOf(e)) ==>
              var prefix := Join(GroupSegments(GroupOf(e)));
              && Value(e) == prefix + "/data/" + Leaf(e)
              && ExportEndpoint(e) == prefix + "/export/" + Leaf(e)
              && |ExportEndpoint(e)| == |Value(e)| + 2
  {
    LeafPlain(e);
    PathExport(GroupOf(e), Leaf(e));
  }

  lemma PathExport(g: Group, leaf: string)
    requires Plain(leaf)
    ensures var v := Join(PathSegments(g, leaf));
            var x := Replace(v, "/data/", "/export/");
            && (!HasData(g) ==> x == v)
            && (HasData(g) ==>
                  && v == Join(GroupSegments(g)) + "/data/" + leaf
                  && x == Join(GroupSegments(g)) + "/export/" + leaf
                  && |x| == |v| + 2)
  {
    var gs := GroupSegments(g);
    GroupPlain(g);
    if HasData(g) {
      assert PathSegments(g, leaf) == gs + ["data", leaf];
      DataPath(gs, leaf, "/data/", "/export/");
    } else {
      PathPlain(g, leaf);
      PlainPath(PathSegments(g, leaf), "/data/", "/export/");
    }
  }

  /** Twelve endpoints are GET: the seven dashboard paths, powerplant-list,
      region-list, distribution-region, date-init and province-list. */
  lemma GetCount()
    ensures |GetEndpoints| == 12
  {
  }

  /** Every dashboard endpoint is read with GET; the other GET endpoints are the
      reference lists outside the market groups. */
  lemma GetShape()
    ensures forall e :: GroupOf(e) == Dashboard ==> MethodOf(e) == GET
    ensures forall e :: MethodOf(e) == GET && GroupOf(e) != Dashboard ==>
              GroupOf(e) == Generation || GroupOf(e) == Consumption || GroupOf(e) == Main
  {
  }

}
