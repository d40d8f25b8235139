/**
 * The question bank of a learning module: a generated set when the model's
 * reply parses to a non-empty array, otherwise a fixed set of two questions
 * per module. The remote call is given as its outcome and `JSON.parse` as an
 * oracle.
 */
module QuestionBank {
  import opened Common
  import opened Json

  datatype ModuleConfig = ModuleConfig(topic: string, context: string)

  const BudgetingConfig: ModuleConfig := ModuleConfig("The Art of Budgeting",
    "Personal budgeting strategies, expense tracking, saving goals, emergency funds, and money management techniques")
  const CreditConfig: ModuleConfig := ModuleConfig("The Credit Score Game",
    "Credit scores, credit reports, building credit history, credit utilization, payment history, and credit improvement strategies")
  const StocksConfig: ModuleConfig := ModuleConfig("The Stock Market",
    "Stock market basics, investing principles, market analysis, portfolio diversification, and long-term wealth building")

  /** `moduleConfig[key] || moduleConfig.budgeting` */
  function ConfigFor(key: string): (c: ModuleConfig)
    ensures key == "credit" ==> c == CreditConfig
    ensures key == "stocks" ==> c == StocksConfig
    ensures key != "credit" && key != "stocks" ==> c == BudgetingConfig
  {
    if key == "credit" then CreditConfig
    else if key == "stocks" then StocksConfig
    else BudgetingConfig
  }

  /** One multiple-choice question: `correct` is an index into `choices`. */
  datatype BankQuestion = BankQuestion(
    topic: string, prompt: string, choices: seq<string>, correct: int,
    explain: string, why: string, hints: seq<string>)

  /** The shape every fixed question has: four choices, a valid answer index, two hints. */
  predicate WellFormed(q: BankQuestion)
  {
    |q.choices| == 4 && 0 <= q.correct < |q.choices| && |q.hints| == 2
  }

  const Budgeting: seq<BankQuestion> := [
    BankQuestion("Emergency Fund",
      "How much should you ideally save in an emergency fund?",
      ["1 month of expenses", "3-6 months of expenses", "1 year of expenses", "Only $1,000"], 1,
      "Financial experts recommend 3-6 months of living expenses for emergencies.",
      "This amount covers most unexpected situations without being excessive.",
      ["Think about job loss scenarios.", "Not too little, not too much."]),
    BankQuestion("50/30/20 Rule",
      "In the 50/30/20 budgeting rule, what does the 20% represent?",
      ["Entertainment", "Housing costs", "Savings and debt repayment", "Food expenses"], 2,
      "The 20% goes toward savings and paying off debt.",
      "This ensures you're building wealth and reducing financial obligations.",
      ["Think about your financial future.", "What helps you get ahead financially?"])
  ]

  const Credit: seq<BankQuestion> := [
    BankQuestion("Credit Utilization",
      "What's the ideal credit utilization ratio for a good credit score?",
      ["90% or higher", "50-70%", "Under 30%", "Exactly 100%"], 2,
      "Keeping credit utilization under 30% shows responsible credit management.",
      "Lower utilization demonstrates you're not maxing out your available credit.",
      ["Lower is generally better.", "Think about what shows financial responsibility."]),
    BankQuestion("Payment History",
      "What percentage of your credit score is based on payment history?",
      ["15%", "35%", "30%", "10%"], 1,
      "Payment history is the most important factor, making up 35% of your score.",
      "Consistently paying on time shows lenders you're reliable.",
      ["It's the biggest factor.", "Think about what lenders care about most."])
  ]

  const Stocks: seq<BankQuestion> := [
    BankQuestion("Diversification",
      "What is the main benefit of portfolio diversification?",
      ["Guaranteed profits", "Reducing overall risk", "Avoiding all losses", "Maximizing short-term gains"], 1,
      "Diversification spreads risk across different investments.",
      "When some investments decline, others may perform well, balancing your portfolio.",
      ["Don't put all eggs in one basket.", "Think about risk management."]),
    BankQuestion("Dollar-Cost Averaging",
      "Dollar-cost averaging means:",
      ["Buying only cheap stocks", "Investing the same amount regularly", "Selling when prices drop", "Only investing large amounts"], 1,
      "Dollar-cost averaging involves investing a fixed amount at regular intervals.",
      "This strategy reduces the impact of market volatility over time.",
      ["Think about consistency.", "Same amount, different intervals."])
  ]

  /** `base[key] || base.budgeting`: two well-formed questions for every key. */
  function StaticBank(key: string): (qs: seq<BankQuestion>)
    ensures |qs| == 2
    ensures forall i :: 0 <= i < |qs| ==> WellFormed(qs[i])
    ensures key == "credit" ==> qs == Credit
    ensures key == "stocks" ==> qs == Stocks
    ensures key != "credit" && key != "stocks" ==> qs == Budgeting
  {
    if key == "credit" then Credit
    else if key == "stocks" then Stocks
    else Budgeting
  }

  /** The remote completion: the call failed, or the content of the first choice (None when absent). */
  datatype GroqOutcome = CallFailed | Reply(content: Option<string>)

  datatype BankResult =
    | Generated(items: seq<Json>)          // returned as parsed; elements are not checked
    | Static(questions: seq<BankQuestion>)

  /**
   * `getQuestionBank`: the generated reply is used exactly when its content is
   * a non-empty string that parses to a non-empty array; every other outcome,
   * failures included, falls back to the fixed set for the key.
   */
  function GetQuestionBank(key: string, outcome: GroqOutcome, parse: string -> Option<Json>): (r: BankResult)
    ensures r.Generated? <==>
      outcome.Reply? && TruthyString(outcome.content) &&
      parse(outcome.content.value).Some? && IsNonEmptyArray(parse(outcome.content.value).value)
    ensures r.Generated? ==> r.items == parse(outcome.content.value).value.items && |r.items| > 0
    ensures r.Static? ==> r.questions == StaticBank(key)
  {
    if outcome.Reply? && TruthyString(outcome.content) then
      var parsed := parse(outcome.content.value);
      if parsed.Some? && IsNonEmptyArray(parsed.value) then Generated(parsed.value.items)
      else Static(StaticBank(key))
    else Static(StaticBank(key))
  }

  /** The result is never empty, whatever the outcome. */
  lemma BankNeverEmpty(key: string, outcome: GroqOutcome, parse: string -> Option<Json>)
    ensures var r := GetQuestionBank(key, outcome, parse);
      (r.Generated? && |r.items| > 0) || (r.Static? && |r.questions| == 2)
  {
  }

  /** An unknown key gets the budgeting questions when generation fails. */
  lemma UnknownKeyFallsBackToBudgeting(key: string, parse: string -> Option<Json>)
    requires key !in {"budgeting", "credit", "stocks"}
    ensures GetQuestionBank(key, CallFailed, parse) == Static(Budgeting)
    ensures ConfigFor(key) == BudgetingConfig
  {
  }
}
