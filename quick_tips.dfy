/**
 * The quick-tip card: a fixed table of ten tips, the tip shown, the
 * rotation to the next one and the dismiss flag. The random tip picked on
 * mount is an index parameter.
 */
module QuickTips {
  import opened Wrappers
  import opened Sums

  datatype QuickTip = QuickTip(
    id: string, icon: string, title: string, description: string, category: string, actionable: bool)

  /** The tip table, in display order. */
  const Tips: seq<QuickTip> := [
    QuickTip("emergency-fund", "🏦", "Fundo de Emergência",
             "Mantenha 3-6 meses de despesas guardados para emergências. Comece poupando R$ 50 por semana.",
             "saving", true),
    QuickTip("50-30-20-rule", "📊", "Regra 50/30/20",
             "50% para necessidades, 30% para desejos, 20% para poupança. Uma fórmula simples para organizar o orçamento.",
             "budgeting", false),
    QuickTip("track-small-expenses", "☕", "Pequenos Gastos",
             "Aquele cafezinho de R$ 5 por dia representa R$ 1.825 por ano. Pequenas economias fazem grande diferença.",
             "saving", false),
    QuickTip("compound-interest", "📈", "Juros Compostos",
             "Começar a investir R$ 100/mês aos 25 anos pode resultar em R$ 300mil aos 65 anos (8% a.a.).",
             "investing", false),
    QuickTip("automated-savings", "🤖", "Poupança Automática",
             "Configure transferências automáticas no dia do salário. \"Pague a si mesmo primeiro\".",
             "saving", true),
    QuickTip("debt-avalanche", "❄️", "Método Avalanche",
             "Quite primeiro as dívidas com maiores juros. Mantenha pagamentos mínimos nas outras.",
             "budgeting", false),
    QuickTip("price-comparison", "🔍", "Compare Preços",
             "Use apps de comparação antes de compras grandes. 10 minutos podem economizar centenas de reais.",
             "general", true),
    QuickTip("review-subscriptions", "📱", "Revise Assinaturas",
             "Cancele serviços que você não usa. A média das pessoas paga por 3+ assinaturas que esqueceram.",
             "budgeting", true),
    QuickTip("investment-apps", "📲", "Apps de Investimento",
             "Use aplicativos que arredondam compras e investem o \"troco\". Invista sem sentir no bolso.",
             "investing", false),
    QuickTip("financial-education", "📚", "Educação Financeira",
             "Dedique 15 minutos por semana lendo sobre finanças. Conhecimento é o melhor investimento.",
             "general", false)
  ]

  /** The colour shown for an unknown category. */
  const DefaultColor: string := "#6c757d"

  /** The label shown for an unknown category. */
  const DefaultLabel: string := "Dica"

  /** The four categories the tips use. */
  predicate KnownCategory(category: string) {
    category == "saving" || category == "budgeting" || category == "investing" || category == "general"
  }

  /** `getCategoryColor`: one colour per category, grey for anything else. */
  function CategoryColor(category: string): string {
    match category
    case "saving" => "#28a745"
    case "budgeting" => "#ffc107"
    case "investing" => "#17a2b8"
    case "general" => "#6f42c1"
    case _ => DefaultColor
  }

  /** `getCategoryLabel`: one label per category, 'Dica' for anything else. */
  function CategoryLabel(category: string): string {
    match category
    case "saving" => "Economia"
    case "budgeting" => "Orçamento"
    case "investing" => "Investimento"
    case "general" => "Geral"
    case _ => DefaultLabel
  }

  /**
   * Both mappings are total; each falls back to its default exactly for a
   * category outside the four, and the four get four different colours and
   * labels.
   */
  lemma MappingsDefaults(category: string)
    ensures CategoryColor(category) == DefaultColor <==> !KnownCategory(category)
    ensures CategoryLabel(category) == DefaultLabel <==> !KnownCategory(category)
    ensures forall other :: KnownCategory(category) && KnownCategory(other) && other != category ==>
      CategoryColor(other) != CategoryColor(category) && CategoryLabel(other) != CategoryLabel(category)
  {
  }

  /** The table has ten tips, all in a known category. */
  lemma TableShape()
    ensures |Tips| == 10
    ensures forall i :: 0 <= i < |Tips| ==> KnownCategory(Tips[i].category)
  {
  }

  /** No two tips share an id. */
  lemma DistinctIds()
    ensures forall i, j :: 0 <= i < j < |Tips| ==> Tips[i].id != Tips[j].id
  {
  }

  function HasId(id: string): QuickTip -> bool {
    (t: QuickTip) => t.id == id
  }

  /** `tips.findIndex(tip => tip.id === id)`, -1 when absent. */
  function IndexOfId(id: string): (r: int)
    ensures -1 <= r < |Tips|
    ensures r == -1 <==> forall i :: 0 <= i < |Tips| ==> Tips[i].id != id
    ensures r >= 0 ==> Tips[r].id == id
  {
    match FindFirst(Tips, HasId(id))
    case None => -1
    case Some(k) => k
  }

  /** Each tip is found at its own place, because the ids are distinct. */
  lemma IndexOfOwnId(i: nat)
    requires i < |Tips|
    ensures IndexOfId(Tips[i].id) == i
  {
    DistinctIds();
  }

  /** `(currentIndex + 1) % tips.length`; the index is at least -1, so the remainder is never negative. */
  function NextIndex(currentIndex: int): (r: nat)
    requires -1 <= currentIndex < |Tips|
    ensures r < |Tips|
  {
    (currentIndex + 1) % |Tips|
  }

  /** The rotation steps forward one place, from the last tip back to the first, and from no tip to the first. */
  lemma NextIndexSteps(currentIndex: int)
    requires -1 <= currentIndex < |Tips|
    ensures currentIndex < |Tips| - 1 ==> NextIndex(currentIndex) == currentIndex + 1
    ensures currentIndex == |Tips| - 1 ==> NextIndex(currentIndex) == 0
    ensures currentIndex == -1 ==> NextIndex(currentIndex) == 0
  {
  }

  /** The progress counter `k de 10` of a tip of the table. */
  function Progress(tip: QuickTip): int {
    IndexOfId(tip.id) + 1
  }

  /** The counter of a tip of the table lies between 1 and 10 and names its position. */
  lemma ProgressBounds(i: nat)
    requires i < |Tips|
    ensures 1 <= Progress(Tips[i]) <= |Tips|
    ensures Progress(Tips[i]) == i + 1
  {
    IndexOfOwnId(i);
  }

  /** The card's state. */
  class QuickTipCard {
    var currentTip: Option<QuickTip>
    var isDismissed: bool

    /** The mount effect: show the tip at the drawn index, not dismissed. */
    constructor (randomIndex: nat)
      requires randomIndex < |Tips|
      ensures currentTip == Some(Tips[randomIndex]) && !isDismissed
    {
      currentTip := Some(Tips[randomIndex]);
      isDismissed := false;
    }

    /** `getNextTip`: shows the tip after the current one (the first when there is none) and clears the dismissal. */
    method GetNextTip()
      modifies this
      ensures old(currentTip).None? ==> currentTip == Some(Tips[0])
      ensures old(currentTip).Some? ==> currentTip == Some(Tips[NextIndex(IndexOfId(old(currentTip).value.id))])
      ensures !isDismissed
    {
      var currentIndex := if currentTip.Some? then IndexOfId(currentTip.value.id) else -1;
      var nextIndex := (currentIndex + 1) % |Tips|;
      currentTip := Some(Tips[nextIndex]);
      isDismissed := false;
    }

    /** `dismissTip`: hides the card and keeps the tip. */
    method DismissTip()
      modifies this
      ensures isDismissed && currentTip == old(currentTip)
    {
      isDismissed := true;
    }

    /** The card renders only for a signed-in user, with a tip, not dismissed. */
    function Visible(isAuthenticated: bool): bool
      reads this
    {
      isAuthenticated && currentTip.Some? && !isDismissed
    }
  }

  /** Pressing "next" on the tip at place `i` shows the tip at place `i + 1`, or the first after the last. */
  lemma NextTipFollows(i: nat)
    requires i < |Tips|
    ensures Tips[NextIndex(IndexOfId(Tips[i].id))] == Tips[(i + 1) % |Tips|]
  {
    IndexOfOwnId(i);
  }
}
