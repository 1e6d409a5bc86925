/** Subscription plans: the limits a trading session reads. */
module Plans {
  datatype PlanLimits = PlanLimits(maxPairs: nat, spotOnly: bool)

  /** Unknown plans get the basic limits. */
  function GetPlanLimits(plan: string): PlanLimits
  {
    match plan
    case "pro" => PlanLimits(10, false)
    case "enterprise" => PlanLimits(999, false)
    case _ => PlanLimits(3, true)
  }
}
