/**
 * The rule-based recommendation of the server: a first-match table on the
 * savings rate picks the kind, title and opening paragraph; a paragraph on
 * the largest expense category follows when it dominates the spending; one
 * tip closes the text.
 */
module AiService {
  import opened Sums
  import opened Records

  /** The `type` column: 'BUDGET', 'SAVING', 'INVESTMENT' or 'GENERAL'. */
  datatype AdviceKind = Budget | Saving | Investment | General

  /** The stored spelling of a kind. */
  function KindName(k: AdviceKind): (s: string)
    ensures s in {"BUDGET", "SAVING", "INVESTMENT", "GENERAL"}
  {
    match k
    case Budget => "BUDGET"
    case Saving => "SAVING"
    case Investment => "INVESTMENT"
    case General => "GENERAL"
  }

  /** The recommendation record built by `generateFinancialAdvice`. */
  datatype Advice = Advice(title: string, content: string, kind: AdviceKind)

  /** The aggregate handed to the service; `breakdown` is the per-name dictionary in insertion order. */
  datatype FinancialContext = FinancialContext(
    totalIncome: real,
    totalExpenses: real,
    balance: real,
    savingsRate: real,
    breakdown: seq<Entry>,
    transactionCount: nat,
    timeframe: string)

  /**
   * The decision table, first match wins: below 0 the budget warning, below
   * 10 the savings nudge, above 50 the investment hint, and everything from
   * 10 to 50 inclusive the balanced-budget message.
   */
  function Classify(rate: real): (k: AdviceKind)
    ensures k == Budget <==> rate < 0.0
    ensures k == Saving <==> 0.0 <= rate < 10.0
    ensures k == Investment <==> rate > 50.0
    ensures k == General <==> 10.0 <= rate <= 50.0
  {
    if rate < 0.0 then Budget
    else if rate < 10.0 then Saving
    else if rate > 50.0 then Investment
    else General
  }

  /** The fixed title of each kind. */
  function Title(k: AdviceKind): string {
    match k
    case Budget => "Atenção: Gastos Excedendo Receita"
    case Saving => "Aumente sua Taxa de Poupança"
    case Investment => "Considere Investir Mais"
    case General => "Seu Orçamento Está Equilibrado"
  }

  /** Each kind has its own title. */
  lemma TitlesDistinct(a: AdviceKind, b: AdviceKind)
    ensures Title(a) == Title(b) ==> a == b
  {
    match a
    case Budget => assert Title(a)[0] == 'A' && Title(a)[1] == 't';
    case Saving => assert Title(a)[0] == 'A' && Title(a)[1] == 'u';
    case Investment => assert Title(a)[0] == 'C';
    case General => assert Title(a)[0] == 'S';
  }

  /** The opening paragraph of each kind; `fix(x, d)` stands for `x.toFixed(d)`. */
  function Opening(k: AdviceKind, ctx: FinancialContext, fix: (real, nat) -> string): string {
    match k
    case Budget =>
      "Nos últimos 3 meses, seus gastos excederam sua receita em R$" + fix(Abs(ctx.balance), 2)
      + ". Recomendo revisar suas despesas, especialmente nas categorias de maior gasto, e criar um orçamento para evitar dívidas."
    case Saving =>
      "Sua taxa de poupança atual é de " + fix(ctx.savingsRate, 1)
      + "%, o que está abaixo do recomendado de 20%. Tente aumentar suas economias reduzindo gastos não essenciais ou buscando fontes adicionais de renda."
    case Investment =>
      "Sua taxa de poupança de " + fix(ctx.savingsRate, 1)
      + "% é excelente! Com esse excedente, considere diversificar seus investimentos para fazer seu dinheiro trabalhar para você."
    case General =>
      "Parabéns por manter um orçamento equilibrado com uma taxa de poupança de " + fix(ctx.savingsRate, 1)
      + "%. Continue monitorando seus gastos e considere estabelecer metas financeiras específicas para o futuro."
  }

  /**
   * `(total / totalExpenses) * 100 > 40` under JavaScript division, which
   * does not fail on a zero divisor: a positive total over zero is
   * +Infinity (above 40), zero over zero is NaN and a negative total over
   * zero is -Infinity (neither above 40).
   */
  predicate ShareAbove40(total: real, expenses: real) {
    if expenses == 0.0 then total > 0.0 else total / expenses * 100.0 > 40.0
  }

  /** With positive expenses the share test is the plain proportion test. */
  lemma ShareAbove40Positive(total: real, expenses: real)
    requires expenses > 0.0
    ensures ShareAbove40(total, expenses) <==> total * 100.0 > 40.0 * expenses
  {
    var share := total / expenses * 100.0;
    assert share * expenses == total * 100.0;
    ScaleCompare(share, 40.0, expenses);
  }

  /** The share's text: `toFixed(1)` of a finite share, "Infinity" for a positive total over zero. */
  function ShareText(total: real, expenses: real, fix: (real, nat) -> string): string {
    if expenses == 0.0 then "Infinity" else fix(total / expenses * 100.0, 1)
  }

  /**
   * Whether the top-category paragraph is added: the expense entries are
   * ranked by total, descending and stable, and the first one's share of the
   * expenses must be above 40 %.
   */
  predicate MentionsTopCategory(ctx: FinancialContext) {
    var ranked := TopExpense(ctx.breakdown);
    ranked.Some? && ShareAbove40(ctx.breakdown[ranked.value].total, ctx.totalExpenses)
  }

  /** The top-category paragraph for entry `top`. */
  function TopCategoryParagraph(top: Entry, expenses: real, fix: (real, nat) -> string): string {
    "\n\nObservei que " + top.title + " representa " + ShareText(top.total, expenses, fix)
    + "% de suas despesas totais. Considere analisar se há oportunidades para reduzir gastos nessa categoria."
  }

  /** The eight closing tips. */
  const Tips: seq<string> := [
    "Estabeleça um fundo de emergência com 3-6 meses de despesas.",
    "Considere automatizar suas economias com transferências programadas.",
    "Revise suas assinaturas mensais e cancele as que você não usa com frequência.",
    "Ao fazer compras grandes, pesquise preços e espere por promoções.",
    "Considere renegociar dívidas com taxas de juros altas.",
    "Invista em sua educação financeira lendo livros ou participando de cursos online gratuitos.",
    "Estabeleça metas financeiras específicas, mensuráveis, atingíveis, relevantes e com prazo definido (SMART).",
    "Diversifique seus investimentos para reduzir riscos."
  ]

  /** The closing paragraph with the tip drawn at random; `tipIndex` stands for `Math.floor(Math.random() * tips.length)`. */
  function TipParagraph(tip: string): string {
    "\n\nDica: " + tip
  }

  /** The content before the tip: the opening, then the top-category paragraph when it applies. */
  function Body(opening: string, ctx: FinancialContext, fix: (real, nat) -> string): string {
    if MentionsTopCategory(ctx) then
      opening + TopCategoryParagraph(ctx.breakdown[TopExpense(ctx.breakdown).value], ctx.totalExpenses, fix)
    else opening
  }

  /** The content of the recommendation for a context: opening of its kind, body and tip. */
  function Content(ctx: FinancialContext, fix: (real, nat) -> string, tip: string): string {
    Body(Opening(Classify(ctx.savingsRate), ctx, fix), ctx, fix) + TipParagraph(tip)
  }

  /**
   * `generateFinancialAdvice`: the record starts as an untitled 'GENERAL'
   * advice, the first matching row of the table fills in title, content
   * and type, and the two later paragraphs are appended to the content.
   */
  method GenerateFinancialAdvice(ctx: FinancialContext, fix: (real, nat) -> string, tipIndex: nat)
    returns (advice: Advice)
    requires tipIndex < |Tips|
    ensures advice.kind == Classify(ctx.savingsRate) && advice.title == Title(advice.kind)
    ensures advice.content == Content(ctx, fix, Tips[tipIndex])
  {
    advice := Advice("", "", General);
    var kind := Classify(ctx.savingsRate);
    advice := advice.(title := Title(kind), content := Opening(kind, ctx, fix), kind := kind);
    var content := AppendTopCategory(advice.content, ctx, fix);
    var randomTip := Tips[tipIndex];
    advice := advice.(content := content + TipParagraph(randomTip));
  }

  /** The top-category step of `generateFinancialAdvice`: the paragraph is appended when the largest expense dominates. */
  method AppendTopCategory(content: string, ctx: FinancialContext, fix: (real, nat) -> string) returns (r: string)
    ensures r == Body(content, ctx, fix)
  {
    r := content;
    var ranked := TopExpense(ctx.breakdown);
    if ranked.Some? {
      var top := ctx.breakdown[ranked.value];
      if ShareAbove40(top.total, ctx.totalExpenses) {
        r := r + TopCategoryParagraph(top, ctx.totalExpenses, fix);
      }
    }
  }

  /** The content always closes with "\n\nDica: " and the drawn tip, one of the eight. */
  lemma EndsWithTip(ctx: FinancialContext, fix: (real, nat) -> string, tipIndex: nat)
    requires tipIndex < |Tips|
    ensures var c := Content(ctx, fix, Tips[tipIndex]);
      |c| >= |Tips[tipIndex]| + 8 && c[|c| - |Tips[tipIndex]| - 8..] == "\n\nDica: " + Tips[tipIndex]
  {
    var tip := Tips[tipIndex];
    var body := Body(Opening(Classify(ctx.savingsRate), ctx, fix), ctx, fix);
    var c := Content(ctx, fix, tip);
    assert c == body + TipParagraph(tip);
    assert |TipParagraph(tip)| == |tip| + 8;
    assert c[|body|..] == TipParagraph(tip);
  }

  /**
   * With positive expenses, the top-category paragraph is added to an
   * opening exactly when the largest expense entry makes up more than 40 %
   * of the expenses.
   */
  lemma ParagraphIffDominant(opening: string, ctx: FinancialContext, fix: (real, nat) -> string)
    requires ctx.totalExpenses > 0.0
    ensures Body(opening, ctx, fix) != opening
      <==> (TopExpense(ctx.breakdown).Some?
            && ctx.breakdown[TopExpense(ctx.breakdown).value].total * 100.0 > 40.0 * ctx.totalExpenses)
  {
    var ranked := TopExpense(ctx.breakdown);
    if ranked.Some? {
      var top := ctx.breakdown[ranked.value];
      ShareAbove40Positive(top.total, ctx.totalExpenses);
      var paragraph := TopCategoryParagraph(top, ctx.totalExpenses, fix);
      assert |opening + paragraph| > |opening|;
    }
  }

  /** Without expense entries no top-category paragraph is added: the body is the opening alone. */
  lemma NoExpenseEntriesNoParagraph(opening: string, ctx: FinancialContext, fix: (real, nat) -> string)
    requires forall i :: 0 <= i < |ctx.breakdown| ==> !ctx.breakdown[i].isExpense
    ensures Body(opening, ctx, fix) == opening
  {
    assert TopExpense(ctx.breakdown).None?;
  }
}
