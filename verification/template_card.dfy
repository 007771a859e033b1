/**
 One card of the template picker (src/components/templates/TemplateCard.tsx):
 what activating it does, which keys activate it, and what it shows — the
 tier badge, the layout label, the first features and recommendations, the
 selected check and the call to action. The view is a record of those
 choices, not markup.
 */
module TemplateCards {
  import opened Common
  import opened Seqs
  import opened Templates

  /** What activating a card does: open the upgrade dialog, or call
      `onSelect`. */
  datatype CardEffect = OpenPremiumModal | SelectTemplate

  /** `handleSelect`: a locked card only opens the upgrade dialog. */
  function HandleSelect(isLocked: bool): (e: CardEffect)
    ensures e == SelectTemplate <==> !isLocked
    ensures e == OpenPremiumModal <==> isLocked
  {
    if isLocked then OpenPremiumModal else SelectTemplate
  }

  /** The keys that activate a focused card. */
  predicate ActivationKey(key: string)
  {
    key == "Enter" || key == " "
  }

  /** `handleKeyDown`: Enter and Space act like a click (and the default
      action is prevented); any other key does nothing. */
  function HandleKeyDown(key: string, isLocked: bool): (e: Option<CardEffect>)
    ensures e.Some? <==> ActivationKey(key)
    ensures e.Some? ==> (e.value == SelectTemplate <==> !isLocked)
  {
    if ActivationKey(key) then Some(HandleSelect(isLocked)) else None
  }

  /** Pressing an activation key does exactly what a click does. */
  lemma KeyMatchesClick(key: string, isLocked: bool)
    requires ActivationKey(key)
    ensures HandleKeyDown(key, isLocked) == Some(HandleSelect(isLocked))
  {
  }

  /** `tierLabels`. */
  function TierLabel(tier: TemplateTier): (text: string)
    ensures tier == Free <==> text == "Free"
    ensures tier == Pro <==> text == "Pro"
    ensures tier == ProPlus <==> text == "Pro Plus"
  {
    match tier
    case Free => "Free"
    case Pro => "Pro"
    case ProPlus => "Pro Plus"
  }

  /** `s.replace("-", " ")` with a string pattern: only the first `-` is
      replaced. */
  function ReplaceFirstDash(s: string): (r: string)
    ensures |r| == |s|
    ensures '-' !in s ==> r == s
    ensures forall i :: 0 <= i < |s| && s[i] != '-' ==> r[i] == s[i]
  {
    if s == [] then []
    else if s[0] == '-' then " " + s[1..]
    else [s[0]] + ReplaceFirstDash(s[1..])
  }

  /** The replacement cuts at the first dash: the dash-free part before it
      is kept, the dash becomes a space, and everything after it (later
      dashes included) is kept. */
  lemma {:induction false} ReplaceFirstDashSplit(head: string, tail: string)
    requires '-' !in head
    ensures ReplaceFirstDash(head + "-" + tail) == head + " " + tail
    decreases |head|
  {
    if head == [] {
      assert head + "-" + tail == "-" + tail;
    } else {
      assert (head + "-" + tail)[1..] == head[1..] + "-" + tail;
      ReplaceFirstDashSplit(head[1..], tail);
      assert [head[0]] + (head[1..] + " " + tail) == head + " " + tail;
    }
  }

  /** What a card shows. */
  datatype CardView = CardView(
    ariaLabel: string,
    lockedOverlay: bool,
    selectedCheck: bool,
    tierLabel: string,
    sparkle: bool,
    layoutLabel: string,
    features: seq<string>,
    bestFor: Option<seq<string>>,
    callToAction: Option<string>)

  /** The card for `template`, selected or not, locked or not. */
  function Card(template: Template, isSelected: bool, isLocked: bool): (v: CardView)
    ensures v.ariaLabel == "Select template " + template.name + (if isLocked then " (locked)" else "")
    ensures v.lockedOverlay == isLocked
    ensures v.selectedCheck <==> isSelected && !isLocked
    ensures v.tierLabel == TierLabel(template.tier)
    ensures v.sparkle <==> template.tier != Free
    ensures v.layoutLabel == ReplaceFirstDash(LayoutName(template.layout))
    ensures |v.features| <= 3 && |v.features| <= |template.features|
    ensures |template.features| >= 3 ==> |v.features| == 3
    ensures forall i :: 0 <= i < |v.features| ==> v.features[i] == template.features[i]
    ensures v.bestFor.Some? <==> |template.recommended| > 0
    ensures v.bestFor.Some? ==> |v.bestFor.value| == (if |template.recommended| < 2 then |template.recommended| else 2)
                                && v.bestFor.value == template.recommended[..|v.bestFor.value|]
    ensures v.callToAction.Some? <==> !isLocked
    ensures v.callToAction.Some? ==> v.callToAction.value == (if isSelected then "Selected" else "Click to select")
  {
    CardView(
      "Select template " + template.name + (if isLocked then " (locked)" else ""),
      isLocked,
      isSelected && !isLocked,
      TierLabel(template.tier),
      template.tier != Free,
      ReplaceFirstDash(LayoutName(template.layout)),
      Take(template.features, 3),
      if |template.recommended| > 0 then Some(Take(template.recommended, 2)) else None,
      if isLocked then None else Some(if isSelected then "Selected" else "Click to select"))
  }

  /** A locked card never shows itself as the chosen one, whatever the
      current template is. */
  lemma LockedCardNeverSelected(template: Template, isSelected: bool)
    ensures !Card(template, isSelected, true).selectedCheck
    ensures Card(template, isSelected, true).callToAction == None
  {
  }
}
