/** The shared interface components' selection rules: which style a badge
    takes, when a button is disabled or spinning, and when a card or an
    input shows its optional parts. */
module Ui {
  import opened Js

  // ---------------------------------------------------------------------------
  // Button

  datatype ButtonVariant = Primary | Secondary | Outline | DangerButton | GhostButton
  datatype ButtonSize = Small | Medium | Large

  /** What a rendered button is, as far as behaviour goes. */
  datatype ButtonView = ButtonView(variant: ButtonVariant, size: ButtonSize, disabled: bool, spinner: bool)

  /** `disabled || isLoading` as the DOM reads it: an undefined flag is off. */
  function ButtonDisabled(disabled: Option<bool>, isLoading: Option<bool>): (off: bool)
    ensures off <==> disabled == Some(true) || isLoading == Some(true)
  {
    if disabled.Some? && disabled.value then true else isLoading.Some? && isLoading.value
  }

  /** A button from its props; an omitted variant or size takes its default. */
  function Button(variant: Option<ButtonVariant>, size: Option<ButtonSize>,
                  disabled: Option<bool>, isLoading: Option<bool>): (b: ButtonView)
    ensures b.variant == (if variant.Some? then variant.value else Primary)
    ensures b.size == (if size.Some? then size.value else Medium)
    ensures b.disabled <==> disabled == Some(true) || isLoading == Some(true)
    ensures b.spinner <==> isLoading == Some(true)
  {
    ButtonView(
      match variant case Some(v) => v case None => Primary,
      match size case Some(s) => s case None => Medium,
      ButtonDisabled(disabled, isLoading),
      isLoading == Some(true))
  }

  // ---------------------------------------------------------------------------
  // Badge

  const SuccessStyle: string := "bg-green-50 text-green-700 border-green-200 ring-green-500/20"
  const WarningStyle: string := "bg-amber-50 text-amber-700 border-amber-200 ring-amber-500/20"
  const DangerStyle: string := "bg-red-50 text-red-700 border-red-200 ring-red-500/20"
  const NeutralStyle: string := "bg-slate-50 text-slate-700 border-slate-200 ring-slate-500/20"
  /** The risk style has the same classes as the danger style. */
  const RiskStyle: string := "bg-red-50 text-red-700 border-red-200 ring-red-500/20"

  /** The badge's style table, looked up by variant key; other keys are undefined. */
  function StyleOf(key: string): (style: Option<string>)
    ensures style.Some? <==> key in ["success", "warning", "danger", "neutral", "risk"]
    ensures style.Some? ==> style.value != ""
  {
    if key == "success" then Some(SuccessStyle)
    else if key == "warning" then Some(WarningStyle)
    else if key == "danger" then Some(DangerStyle)
    else if key == "neutral" then Some(NeutralStyle)
    else if key == "risk" then Some(RiskStyle)
    else None
  }

  /** The style the variant alone selects: the default key is `neutral`,
      and a key without a style falls back to the neutral one. */
  function VariantStyle(variant: Option<string>): (style: string)
    ensures variant.None? ==> style == NeutralStyle
    ensures variant.Some? && StyleOf(variant.value).Some? ==> style == StyleOf(variant.value).value
    ensures variant.Some? && StyleOf(variant.value).None? ==> style == NeutralStyle
  {
    var key := if variant.Some? then variant.value else "neutral";
    match StyleOf(key)
    case Some(s) => s
    case None => NeutralStyle
  }

  /** A badge's final style: chosen by the variant, then overridden by the
      two label rules, the later one winning. */
  method Badge(text: string, variant: Option<string>) returns (style: string)
    ensures text == "At Risk" ==> style == DangerStyle
    ensures text == "Not At Risk" || text == "Safe" ==> style == SuccessStyle
    ensures text != "At Risk" && text != "Not At Risk" && text != "Safe" ==> style == VariantStyle(variant)
  {
    style := VariantStyle(variant);
    if text == "At Risk" {
      style := DangerStyle;
    }
    if text == "Not At Risk" || text == "Safe" {
      style := SuccessStyle;
    }
  }

  // ---------------------------------------------------------------------------
  // Card and Input

  /** A card has a header exactly when it has a non-empty title or an action. */
  predicate CardHasHeader(title: Option<string>, hasAction: bool)
  {
    (title.Some? && title.value != "") || hasAction
  }

  /** An input shows its error line, and the red border, exactly for a non-empty error. */
  predicate InputShowsError(error: Option<string>)
  {
    error.Some? && error.value != ""
  }
}
