/** The plan-limits table of app/core/plan_limits.py: per subscription tier,
    the AI-message and tool-usage quotas with their reset periods, the upload
    limits and the feature list, and the class methods that read it. */
module PlanLimits {
  import opened Models

  /** How often a quota resets. FREE's tool quota is keyed
      `tool_usage_reset_hours`, the paid tiers' `tool_usage_reset_days`. */
  datatype ResetPeriod = Hours(hours: int) | Days(days: int)

  /** One tier's row of `LIMITS`. */
  datatype Limits = Limits(
    aiMessagesPerPeriod: int,
    aiMessagesResetDays: int,
    toolUsagePerPeriod: int,
    toolUsageReset: ResetPeriod,
    maxFileSizeMb: int,
    maxFilesPerChat: int,
    features: seq<string>)

  /** The seven features every tier lists, in the table's order. */
  const AllFeatures: seq<string> := [
    "data_cleaning", "pivot_tables", "formula_assistant", "script_assistant",
    "sql_assistant", "regex_assistant", "template_generator"]

  const FreeLimits := Limits(10, 30, 4, Hours(12), 5, 5, AllFeatures)
  const ProLimits := Limits(3000, 30, 3000, Days(30), 50, 10, AllFeatures)
  const ProPlusLimits := Limits(10000, 30, 10000, Days(30), 100, 15, AllFeatures)

  /** `LIMITS`: rows for FREE, PRO and PRO_PLUS only. */
  const LimitsTable: map<PlanType, Limits> := map[Free := FreeLimits, Pro := ProLimits, ProPlus := ProPlusLimits]

  /** `get_limits`: the plan's row, or FREE's for a plan without one. */
  function GetLimits(plan: PlanType): (l: Limits)
    ensures plan in LimitsTable ==> l == LimitsTable[plan]
    ensures plan !in LimitsTable ==> l == FreeLimits
  {
    if plan in LimitsTable then LimitsTable[plan] else LimitsTable[Free]
  }

  function GetAiMessageLimit(plan: PlanType): (n: int)
    ensures n == (match plan case Pro => 3000 case ProPlus => 10000 case _ => 10)
  {
    GetLimits(plan).aiMessagesPerPeriod
  }

  function GetToolUsageLimit(plan: PlanType): (n: int)
    ensures n == (match plan case Pro => 3000 case ProPlus => 10000 case _ => 4)
  {
    GetLimits(plan).toolUsagePerPeriod
  }

  function GetFileSizeLimit(plan: PlanType): (n: int)
    ensures n == (match plan case Pro => 50 case ProPlus => 100 case _ => 5)
  {
    GetLimits(plan).maxFileSizeMb
  }

  function GetFilesPerChatLimit(plan: PlanType): (n: int)
    ensures n == (match plan case Pro => 10 case ProPlus => 15 case _ => 5)
  {
    GetLimits(plan).maxFilesPerChat
  }

  /** `has_feature`: membership in the plan's feature list. */
  predicate HasFeature(plan: PlanType, feature: string) {
    feature in GetLimits(plan).features
  }

  /** `get_all_features` */
  function GetAllFeatures(plan: PlanType): (features: seq<string>)
    ensures features == AllFeatures
  {
    GetLimits(plan).features
  }

  /** The order of the tiers. */
  function Rank(plan: PlanType): nat {
    match plan
    case Free => 0
    case Pro => 1
    case ProPlus => 2
    case Other(_) => 0
  }

  /** A plan the table does not list gets exactly FREE's limits. */
  lemma UnknownPlanFallsBackToFree(name: string)
    ensures GetLimits(Other(name)) == GetLimits(Free)
    ensures GetAiMessageLimit(Other(name)) == 10 && GetToolUsageLimit(Other(name)) == 4
  {
  }

  /** A higher tier never has a lower numeric limit or a shorter reset. */
  lemma LimitsGrowWithTier(p: PlanType, q: PlanType)
    requires Rank(p) <= Rank(q)
    ensures GetAiMessageLimit(p) <= GetAiMessageLimit(q)
    ensures GetToolUsageLimit(p) <= GetToolUsageLimit(q)
    ensures GetFileSizeLimit(p) <= GetFileSizeLimit(q)
    ensures GetFilesPerChatLimit(p) <= GetFilesPerChatLimit(q)
    ensures GetLimits(p).aiMessagesResetDays == GetLimits(q).aiMessagesResetDays
  {
  }

  /** No feature is gated by tier: every plan has exactly the seven features. */
  lemma FeaturesAreNotTiered(p: PlanType, feature: string)
    ensures HasFeature(p, feature) <==> HasFeature(Free, feature)
    ensures HasFeature(p, feature) <==> feature in AllFeatures
  {
  }

  /** The feature list has no repeated name. */
  lemma FeatureListHasNoDuplicates(p: PlanType)
    ensures forall i, j :: 0 <= i < j < |GetAllFeatures(p)| ==> GetAllFeatures(p)[i] != GetAllFeatures(p)[j]
  {
  }

  /** Only the FREE row, and the plans that fall back to it, resets tool usage
      by the hour (every 12 hours); the paid tiers reset it every 30 days. */
  lemma ToolResetPeriods(p: PlanType)
    ensures GetLimits(p).toolUsageReset.Hours? <==> Rank(p) == 0
    ensures Rank(p) == 0 ==> GetLimits(p).toolUsageReset == Hours(12)
    ensures Rank(p) > 0 ==> GetLimits(p).toolUsageReset == Days(30)
  {
  }
}
