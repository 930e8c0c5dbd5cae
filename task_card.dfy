/** The task card's label strip: at most two labels are shown and the rest
    are summed up in a "+n" badge. */
module TaskCard {
  import opened Text
  import opened KanbanModels

  const MaxVisibleLabels: nat := 2

  /** `labels().slice(0, 2)` */
  function VisibleLabels(labels: seq<IssueLabel>): (r: seq<IssueLabel>)
    ensures |r| == if |labels| < MaxVisibleLabels then |labels| else MaxVisibleLabels
    ensures r <= labels
  {
    if |labels| <= MaxVisibleLabels then labels else labels[..MaxVisibleLabels]
  }

  /** `Math.max(labels().length - 2, 0)` */
  function HiddenLabelsCount(labels: seq<IssueLabel>): (r: nat)
    ensures r == 0 <==> |labels| <= MaxVisibleLabels
    ensures r < |labels| || labels == []
  {
    if |labels| > MaxVisibleLabels then |labels| - MaxVisibleLabels else 0
  }

  /** The badge text the card shows for the hidden labels, `+{hiddenLabelsCount()}`. */
  function HiddenBadge(labels: seq<IssueLabel>): (r: string)
    ensures |r| >= 2 && r[0] == '+'
    ensures forall i :: 1 <= i < |r| ==> '0' <= r[i] <= '9'
    ensures IsDigits(r[1..]) && DecimalValue(r[1..]) == HiddenLabelsCount(labels)
    ensures |labels| <= MaxVisibleLabels ==> r == "+0"
  {
    var digits := NatToString(HiddenLabelsCount(labels));
    assert forall i :: 1 <= i < |"+" + digits| ==> ("+" + digits)[i] == digits[i - 1];
    assert NatToString(0) == "0";
    assert ("+" + digits)[1..] == digits;
    NatToStringValue(HiddenLabelsCount(labels));
    "+" + digits
  }

  /** Every label is either shown or counted in the badge, never both. */
  lemma EveryLabelAccountedFor(labels: seq<IssueLabel>)
    ensures |VisibleLabels(labels)| + HiddenLabelsCount(labels) == |labels|
    ensures VisibleLabels(labels) + labels[|VisibleLabels(labels)|..] == labels
  {
  }

  /** With three labels, the first two are shown and the card reads "+1". */
  lemma ThreeLabelsShowTwo(a: IssueLabel, b: IssueLabel, c: IssueLabel)
    ensures VisibleLabels([a, b, c]) == [a, b]
    ensures HiddenBadge([a, b, c]) == "+1"
  {
    assert NatToString(1) == "1";
  }
}
