/** The calculator registry: the structural fields of every tool, keyed by
    slug in the order the registry lists them, and the category order of
    the tools hub. */
module ToolRegistry {
  import opened Js

  /** One entry of a tool's `outputs`: the element id and its colour token. */
  datatype Output = Output(id: string, color: string)

  /** The structural fields of a tool. Titles, icons, accent colours,
      texts, steps and inputs are display content and are not kept. */
  datatype Tool = Tool(
    slug: string,
    level: string,
    popular: bool,
    category: string,
    outputs: seq<Output>,
    primaryOutput: string,
    chartType: string)

  /** The values of `tools`. */
  const SipTool := Tool("sip", "Beginner", true, "SIP & Systematic Investing",
    [Output("displayTotal", "primary"),
      Output("displayInvested", "slate"),
      Output("displayGain", "green")],
    "displayTotal", "line")

  const StepUpSipTool := Tool("step-up-sip", "Intermediate", false, "SIP & Systematic Investing",
    [Output("displayFinal", "primary"),
      Output("displayInvested", "slate"),
      Output("displayGains", "green")],
    "displayFinal", "line")

  const SwpTool := Tool("swp", "Advanced", false, "SIP & Systematic Investing",
    [Output("displayMonths", "primary"),
      Output("displayYears", "slate"),
      Output("displayTotal", "green")],
    "displayMonths", "line")

  const SipVsLumpsumTool := Tool("sip-vs-lumpsum", "Beginner", false, "SIP & Systematic Investing",
    [Output("displaySIP", "primary"),
      Output("displayLumpsum", "green"),
      Output("displayDiff", "slate")],
    "displaySIP", "line")

  const LumpsumTool := Tool("lumpsum", "Beginner", true, "Lumpsum & One-Time Investing",
    [Output("displayTotal", "primary"),
      Output("displayInvested", "slate"),
      Output("displayGain", "green")],
    "displayTotal", "line")

  const CagrTool := Tool("cagr", "Intermediate", false, "Lumpsum & One-Time Investing",
    [Output("displayCAGR", "primary"),
      Output("displayGrowth", "green")],
    "displayCAGR", "line")

  const XirrTool := Tool("xirr", "Advanced", false, "Lumpsum & One-Time Investing",
    [Output("displayXIRR", "primary"),
      Output("displayInvested", "slate"),
      Output("displayGain", "green")],
    "displayXIRR", "bar")

  const RetirementTool := Tool("retirement", "Intermediate", true, "Retirement & Life Planning",
    [Output("displayCorpus", "primary"),
      Output("displayRealValue", "gold")],
    "displayCorpus", "line")

  const GoalTool := Tool("goal", "Beginner", true, "Retirement & Life Planning",
    [Output("displaySIP", "primary"),
      Output("displayInvested", "slate"),
      Output("displayProfit", "green")],
    "displaySIP", "line")

  const FireTool := Tool("fire", "Advanced", false, "Retirement & Life Planning",
    [Output("displayFIRE", "primary"),
      Output("displayYears", "slate"),
      Output("displayAge", "green")],
    "displayFIRE", "line")

  const LifeInsuranceTool := Tool("life-insurance", "Beginner", false, "Retirement & Life Planning",
    [Output("displayCover", "primary"),
      Output("displayHLV", "slate"),
      Output("displayAnnualPremium", "green")],
    "displayCover", "bar")

  const FdTool := Tool("fd", "Beginner", true, "Fixed Income & Deposits",
    [Output("displayMaturity", "primary"),
      Output("displayInvested", "slate"),
      Output("displayGain", "green")],
    "displayMaturity", "line")

  const RdTool := Tool("rd", "Beginner", false, "Fixed Income & Deposits",
    [Output("displayMaturity", "primary"),
      Output("displayInvested", "slate"),
      Output("displayInterest", "green")],
    "displayMaturity", "bar")

  const PpfTool := Tool("ppf", "Beginner", false, "Fixed Income & Deposits",
    [Output("displayMaturity", "primary"),
      Output("displayInvested", "slate"),
      Output("displayInterest", "green")],
    "displayMaturity", "bar")

  const NpsTool := Tool("nps", "Intermediate", false, "Fixed Income & Deposits",
    [Output("displayCorpus", "primary"),
      Output("displayLumpsum", "green"),
      Output("displayPension", "slate")],
    "displayCorpus", "doughnut")

  const EmiTool := Tool("emi", "Beginner", true, "Loans & EMI",
    [Output("displayEMI", "primary"),
      Output("displayInterest", "slate"),
      Output("displayTotal", "green")],
    "displayEMI", "doughnut")

  const HomeLoanTool := Tool("home-loan", "Intermediate", false, "Loans & EMI",
    [Output("displayEMI", "primary"),
      Output("displayInterest", "slate"),
      Output("displayTotal", "green")],
    "displayEMI", "bar")

  const PrepaymentTool := Tool("prepayment", "Intermediate", false, "Loans & EMI",
    [Output("displaySaved", "primary"),
      Output("displayYears", "green"),
      Output("displayNewEMI", "slate")],
    "displaySaved", "bar")

  const TaxSavingTool := Tool("tax-saving", "Beginner", false, "Tax & Returns",
    [Output("displayTaxSaved", "primary"),
      Output("displayTaxBefore", "slate"),
      Output("displayTaxAfter", "green")],
    "displayTaxSaved", "doughnut")

  const CapitalGainsTool := Tool("capital-gains", "Intermediate", false, "Tax & Returns",
    [Output("displayProfit", "primary"),
      Output("displayTax", "slate"),
      Output("displayNet", "green")],
    "displayNet", "doughnut")

  const InflationTool := Tool("inflation", "Beginner", false, "Tax & Returns",
    [Output("displayFuture", "primary"),
      Output("displayLoss", "slate"),
      Output("displayReal", "green")],
    "displayFuture", "line")

  const RealReturnTool := Tool("real-return", "Intermediate", false, "Tax & Returns",
    [Output("displayPostTax", "primary"),
      Output("displayReal", "green"),
      Output("displayVerdict", "slate")],
    "displayReal", "bar")

  const EducationTool := Tool("education", "Beginner", false, "Education & Life Goals",
    [Output("displayFutureCost", "primary"),
      Output("displayMonthlySIP", "green"),
      Output("displayTotalInvest", "slate")],
    "displayMonthlySIP", "line")

  const MarriageTool := Tool("marriage", "Beginner", false, "Education & Life Goals",
    [Output("displayFutureCost", "primary"),
      Output("displayMonthlySIP", "green"),
      Output("displayTotalInvest", "slate")],
    "displayMonthlySIP", "line")

  const EmergencyFundTool := Tool("emergency-fund", "Beginner", false, "Education & Life Goals",
    [Output("displayTarget", "primary"),
      Output("displayShortfall", "slate"),
      Output("displayMonthly", "green")],
    "displayTarget", "doughnut")

  const HousePurchaseTool := Tool("house-purchase", "Intermediate", false, "Education & Life Goals",
    [Output("displayDownPay", "primary"),
      Output("displaySIP", "green"),
      Output("displayEMI", "slate")],
    "displayDownPay", "doughnut")

  const CompoundingTool := Tool("compounding", "Beginner", false, "Portfolio & Analysis",
    [Output("displayFinal", "primary"),
      Output("displayGain", "green"),
      Output("displayGrowth", "slate")],
    "displayFinal", "line")

  const RuleOf72Tool := Tool("rule-of-72", "Beginner", false, "Portfolio & Analysis",
    [Output("displayYearsDouble", "primary"),
      Output("displayDoublings", "green"),
      Output("displayFinal", "slate")],
    "displayYearsDouble", "bar")

  const DelayCostTool := Tool("delay-cost", "Beginner", false, "Portfolio & Analysis",
    [Output("displayNow", "primary"),
      Output("displayLater", "slate"),
      Output("displayLost", "green")],
    "displayLost", "bar")

  const ExpenseRatioTool := Tool("expense-ratio", "Intermediate", false, "Portfolio & Analysis",
    [Output("displayDirect", "primary"),
      Output("displayRegular", "slate"),
      Output("displayDiff", "green")],
    "displayDiff", "line")

  /** `tools`, property by property in source order. */
  const Tools: seq<Property<Tool>> := [
    Property("sip", SipTool),
    Property("step-up-sip", StepUpSipTool),
    Property("swp", SwpTool),
    Property("sip-vs-lumpsum", SipVsLumpsumTool),
    Property("lumpsum", LumpsumTool),
    Property("cagr", CagrTool),
    Property("xirr", XirrTool),
    Property("retirement", RetirementTool),
    Property("goal", GoalTool),
    Property("fire", FireTool),
    Property("life-insurance", LifeInsuranceTool),
    Property("fd", FdTool),
    Property("rd", RdTool),
    Property("ppf", PpfTool),
    Property("nps", NpsTool),
    Property("emi", EmiTool),
    Property("home-loan", HomeLoanTool),
    Property("prepayment", PrepaymentTool),
    Property("tax-saving", TaxSavingTool),
    Property("capital-gains", CapitalGainsTool),
    Property("inflation", InflationTool),
    Property("real-return", RealReturnTool),
    Property("education", EducationTool),
    Property("marriage", MarriageTool),
    Property("emergency-fund", EmergencyFundTool),
    Property("house-purchase", HousePurchaseTool),
    Property("compounding", CompoundingTool),
    Property("rule-of-72", RuleOf72Tool),
    Property("delay-cost", DelayCostTool),
    Property("expense-ratio", ExpenseRatioTool)
  ]

  /** `toolCategories`, in hub order. */
  const ToolCategories: seq<string> := [
    "SIP & Systematic Investing",
    "Lumpsum & One-Time Investing",
    "Retirement & Life Planning",
    "Fixed Income & Deposits",
    "Loans & EMI",
    "Tax & Returns",
    "Education & Life Goals",
    "Portfolio & Analysis"
  ]

  /** The schema of the registry's header comment, on the structural
      fields: the slug is the key, level and chart type come from their
      lists, the category is a hub category, the primary output is one of
      the tool's outputs, and every output colour is a known token. */
  predicate WellFormed(e: Property<Tool>) {
    var t := e.value;
    t.slug == e.key &&
    (t.level == "Beginner" || t.level == "Intermediate" || t.level == "Advanced") &&
    (t.chartType == "line" || t.chartType == "bar" || t.chartType == "doughnut") &&
    t.category in ToolCategories &&
    (exists j :: 0 <= j < |t.outputs| && t.outputs[j].id == t.primaryOutput) &&
    (forall j :: 0 <= j < |t.outputs| ==>
      t.outputs[j].color in {"primary", "slate", "green", "gold"})
  }

  /** `tools[req.params.slug]` in `GET /calculator/:slug`: the tool, or
      `None` for the 404 page. */
  function FindTool(slug: string): (r: Option<Tool>)
    ensures r.None? <==> forall i :: 0 <= i < |Tools| ==> Tools[i].key != slug
    ensures r.Some? ==> exists i :: 0 <= i < |Tools| && Tools[i].key == slug && r.value == Tools[i].value
  {
    PropertyValue(Tools, slug)
  }

  lemma SipToolsWellFormed()
    ensures forall i :: 0 <= i < 4 ==> WellFormed(Tools[i])
  {
    assert SipTool.outputs[0].id == SipTool.primaryOutput;
    assert StepUpSipTool.outputs[0].id == StepUpSipTool.primaryOutput;
    assert SwpTool.outputs[0].id == SwpTool.primaryOutput;
    assert SipVsLumpsumTool.outputs[0].id == SipVsLumpsumTool.primaryOutput;
  }

  lemma LumpsumToolsWellFormed()
    ensures forall i :: 4 <= i < 7 ==> WellFormed(Tools[i])
  {
    assert LumpsumTool.outputs[0].id == LumpsumTool.primaryOutput;
    assert CagrTool.outputs[0].id == CagrTool.primaryOutput;
    assert XirrTool.outputs[0].id == XirrTool.primaryOutput;
  }

  lemma RetirementToolsWellFormed()
    ensures forall i :: 7 <= i < 11 ==> WellFormed(Tools[i])
  {
    assert RetirementTool.outputs[0].id == RetirementTool.primaryOutput;
    assert GoalTool.outputs[0].id == GoalTool.primaryOutput;
    assert FireTool.outputs[0].id == FireTool.primaryOutput;
    assert LifeInsuranceTool.outputs[0].id == LifeInsuranceTool.primaryOutput;
  }

  lemma FixedIncomeToolsWellFormed()
    ensures forall i :: 11 <= i < 15 ==> WellFormed(Tools[i])
  {
    assert FdTool.outputs[0].id == FdTool.primaryOutput;
    assert RdTool.outputs[0].id == RdTool.primaryOutput;
    assert PpfTool.outputs[0].id == PpfTool.primaryOutput;
    assert NpsTool.outputs[0].id == NpsTool.primaryOutput;
  }

  lemma LoansToolsWellFormed()
    ensures forall i :: 15 <= i < 18 ==> WellFormed(Tools[i])
  {
    assert EmiTool.outputs[0].id == EmiTool.primaryOutput;
    assert HomeLoanTool.outputs[0].id == HomeLoanTool.primaryOutput;
    assert PrepaymentTool.outputs[0].id == PrepaymentTool.primaryOutput;
  }

  lemma TaxToolsWellFormed()
    ensures forall i :: 18 <= i < 22 ==> WellFormed(Tools[i])
  {
    assert TaxSavingTool.outputs[0].id == TaxSavingTool.primaryOutput;
    assert CapitalGainsTool.outputs[2].id == CapitalGainsTool.primaryOutput;
    assert InflationTool.outputs[0].id == InflationTool.primaryOutput;
    assert RealReturnTool.outputs[1].id == RealReturnTool.primaryOutput;
  }

  lemma LifeGoalsToolsWellFormed()
    ensures forall i :: 22 <= i < 26 ==> WellFormed(Tools[i])
  {
    assert EducationTool.outputs[1].id == EducationTool.primaryOutput;
    assert MarriageTool.outputs[1].id == MarriageTool.primaryOutput;
    assert EmergencyFundTool.outputs[0].id == EmergencyFundTool.primaryOutput;
    assert HousePurchaseTool.outputs[0].id == HousePurchaseTool.primaryOutput;
  }

  lemma PortfolioToolsWellFormed()
    ensures forall i :: 26 <= i < 30 ==> WellFormed(Tools[i])
  {
    assert CompoundingTool.outputs[0].id == CompoundingTool.primaryOutput;
    assert RuleOf72Tool.outputs[0].id == RuleOf72Tool.primaryOutput;
    assert DelayCostTool.outputs[2].id == DelayCostTool.primaryOutput;
    assert ExpenseRatioTool.outputs[2].id == ExpenseRatioTool.primaryOutput;
  }

  /** Thirty tools with distinct keys, each satisfying the schema. */
  lemma RegistryWellFormed()
    ensures |Tools| == 30
    ensures forall i :: 0 <= i < |Tools| ==> WellFormed(Tools[i])
    ensures forall i, j :: 0 <= i < j < |Tools| ==> Tools[i].key != Tools[j].key
  {
    SipToolsWellFormed();
    LumpsumToolsWellFormed();
    RetirementToolsWellFormed();
    FixedIncomeToolsWellFormed();
    LoansToolsWellFormed();
    TaxToolsWellFormed();
    LifeGoalsToolsWellFormed();
    PortfolioToolsWellFormed();
    KeysDistinctFrom0();
    KeysDistinctFrom5();
    KeysDistinctFrom10();
    KeysDistinctFrom15();
    KeysDistinctFrom20();
    KeysDistinctFrom25();
  }

  /** Keys 0 to 4 differ from every later key. */
  lemma KeysDistinctFrom0()
    ensures forall i, j :: 0 <= i < j < |Tools| && i < 5 ==> Tools[i].key != Tools[j].key
  {
  }

  /** Keys 5 to 9 differ from every later key. */
  lemma KeysDistinctFrom5()
    ensures forall i, j :: 5 <= i < j < |Tools| && i < 10 ==> Tools[i].key != Tools[j].key
  {
  }

  /** Keys 10 to 14 differ from every later key. */
  lemma KeysDistinctFrom10()
    ensures forall i, j :: 10 <= i < j < |Tools| && i < 15 ==> Tools[i].key != Tools[j].key
  {
  }

  /** Keys 15 to 19 differ from every later key. */
  lemma KeysDistinctFrom15()
    ensures forall i, j :: 15 <= i < j < |Tools| && i < 20 ==> Tools[i].key != Tools[j].key
  {
  }

  /** Keys 20 to 24 differ from every later key. */
  lemma KeysDistinctFrom20()
    ensures forall i, j :: 20 <= i < j < |Tools| && i < 25 ==> Tools[i].key != Tools[j].key
  {
  }

  /** Keys 25 to 29 differ from every later key. */
  lemma KeysDistinctFrom25()
    ensures forall i, j :: 25 <= i < j < |Tools| ==> Tools[i].key != Tools[j].key
  {
  }

  /** The hub shows 8 distinct categories. */
  lemma CategoriesDistinct()
    ensures |ToolCategories| == 8
    ensures forall i, j :: 0 <= i < j < |ToolCategories| ==> ToolCategories[i] != ToolCategories[j]
  {
  }

  /** Every hub category has at least one tool. */
  lemma CategoriesCovered()
    ensures forall c :: c in ToolCategories ==> exists i :: 0 <= i < |Tools| && Tools[i].value.category == c
  {
    assert Tools[0].value.category == ToolCategories[0];
    assert Tools[4].value.category == ToolCategories[1];
    assert Tools[7].value.category == ToolCategories[2];
    assert Tools[11].value.category == ToolCategories[3];
    assert Tools[15].value.category == ToolCategories[4];
    assert Tools[18].value.category == ToolCategories[5];
    assert Tools[22].value.category == ToolCategories[6];
    assert Tools[26].value.category == ToolCategories[7];
  }

  /** Looking up a tool: every listed slug finds its own tool, whose `slug`
      field is that slug; anything else finds nothing. */
  lemma FindToolBySlug(slug: string)
    ensures FindTool(slug).Some? <==> exists i :: 0 <= i < |Tools| && Tools[i].key == slug
    ensures FindTool(slug).Some? ==> FindTool(slug).value.slug == slug
    ensures forall i :: 0 <= i < |Tools| && Tools[i].key == slug ==> FindTool(slug) == Some(Tools[i].value)
  {
    RegistryWellFormed();
    PropertyValueFinds(Tools, slug);
  }
}
