/**
 * How the recommendation cards render: the type badge, the paragraphs of
 * the content, the "Novo" badge, and which click asks to mark a card read.
 */
module RecommendationsList {
  import opened Wrappers
  import opened Text
  import opened AiContext

  /** `getBadgeColor`. */
  function BadgeColor(kind: string): string {
    match kind
    case "SAVING" => "badge-success"
    case "INVESTMENT" => "badge-primary"
    case "BUDGET" => "badge-warning"
    case _ => "badge-info"
  }

  /** `getBadgeText`. */
  function BadgeText(kind: string): string {
    match kind
    case "SAVING" => "Economia"
    case "INVESTMENT" => "Investimento"
    case "BUDGET" => "Orçamento"
    case _ => "Geral"
  }

  /** The three named types. */
  predicate Badged(kind: string) {
    kind == "SAVING" || kind == "INVESTMENT" || kind == "BUDGET"
  }

  /**
   * Every other type, `GENERAL` included, gets the info colour and the
   * label 'Geral'; the three named types get three different colours and
   * labels, none of them the fallback.
   */
  lemma BadgeFallback(kind: string)
    ensures BadgeColor(kind) == "badge-info" <==> !Badged(kind)
    ensures BadgeText(kind) == "Geral" <==> !Badged(kind)
    ensures forall other :: Badged(kind) && Badged(other) && other != kind ==>
      BadgeColor(other) != BadgeColor(kind) && BadgeText(other) != BadgeText(kind)
  {
  }

  /** The paragraph separator of the content. */
  const ParagraphBreak: string := "\n\n"

  /** `content.split('\n\n')`: one `<p>` per piece. */
  function Paragraphs(content: string): (r: seq<string>)
    ensures |r| >= 1
  {
    Split(content, ParagraphBreak)
  }

  /** The paragraphs joined back with the separator give the content, and none contains the separator. */
  lemma ParagraphsRoundTrip(content: string)
    ensures Join(Paragraphs(content), ParagraphBreak) == content
    ensures forall p :: p in Paragraphs(content) ==> !Contains(p, ParagraphBreak)
  {
    JoinSplit(content, ParagraphBreak);
    SplitPiecesFree(content, ParagraphBreak);
  }

  /** The click handler: `!isRead && markAsRead(id)` asks to mark only an unread card. */
  function ClickRequest(rec: Recommendation): (r: Option<string>)
    ensures r.Some? <==> !rec.isRead
    ensures r.Some? ==> r.value == rec.id
  {
    if !rec.isRead then Some(rec.id) else None
  }

  /** The "Novo" badge is shown on unread cards only. */
  function ShowsNewBadge(rec: Recommendation): bool {
    !rec.isRead
  }

  /**
   * Clicking the card at `i` and having the request accepted leaves that
   * card read and without the "Novo" badge; clicking a read card asks for
   * nothing, so the list stays as it is.
   */
  lemma ClickMarksCard(recs: seq<Recommendation>, i: nat)
    requires i < |recs|
    ensures var req := ClickRequest(recs[i]);
      && (req.Some? ==> MarkedRead(recs, req.value)[i].isRead && !ShowsNewBadge(MarkedRead(recs, req.value)[i]))
      && (req.None? ==> !ShowsNewBadge(recs[i]))
  {
    MarkedReadSpec(recs, recs[i].id);
  }
}
