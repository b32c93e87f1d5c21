/** The consent banner (components/cookies/banner.tsx): which trigger
    buttons it shows, which option switches are disabled, and the text
    fallbacks of its content. */
module Banner {
  import opened Maybe
  import C = ConsentConstants

  /** The pro flag as this file computes it: set exactly when the
      `NEXT_PUBLIC_FEATURE_PRO` environment variable is "true". */
  function IsPro(featurePro: Option<string>): (pro: bool)
    ensures pro <==> featurePro == Some("true")
  {
    featurePro == Some("true")
  }

  /** The two files derive their pro flags with opposite polarity. */
  lemma ProFlagsDisagree(featurePro: Option<string>)
    ensures IsPro(featurePro) == !C.IsPro(featurePro)
  {
  }

  /** This file's own default button list. */
  const DefaultButtons: seq<C.ButtonProps> := [
    C.ButtonProps("Show Me", "outline", "button", "sm"),
    C.ButtonProps("Got it", "default", "submit", "sm")
  ]

  lemma DefaultButtonsShape()
    ensures |DefaultButtons| == 2 && DefaultButtons == C.DefaultButtons
    ensures DefaultButtons[0].children == "Show Me" && DefaultButtons[1].children == "Got it"
  {
  }

  /** A JavaScript array of button props, shared by reference with whoever passed it. */
  class ButtonArray {
    var elems: seq<C.ButtonProps>

    constructor (init: seq<C.ButtonProps>)
      ensures elems == init
    {
      elems := init;
    }
  }

  /** A rendered trigger: index 0 in pro mode is wrapped in a popover. */
  datatype Trigger = PopoverButton(btn: C.ButtonProps) | PlainButton(btn: C.ButtonProps)

  /** What `BannerTriggers` renders: the caller's children in a slot, or the buttons. */
  datatype TriggersView = Slotted | Buttons(triggers: seq<Trigger>)

  /** The effect of `btns.length = 2` on a longer list. */
  function Truncated(s: seq<C.ButtonProps>): (r: seq<C.ButtonProps>)
    ensures r <= s
    ensures |r| == if |s| <= 2 then |s| else 2
  {
    if |s| > 2 then s[..2] else s
  }

  lemma TruncatedIdempotent(s: seq<C.ButtonProps>)
    ensures Truncated(Truncated(s)) == Truncated(s)
    ensures |s| <= 2 ==> Truncated(s) == s
  {
  }

  /** `btns.map(...)`: one trigger per button, in order; only index 0 in pro mode is a popover. */
  function Triggers(btns: seq<C.ButtonProps>, pro: bool): (ts: seq<Trigger>)
    ensures |ts| == |btns|
    ensures forall i :: 0 <= i < |btns| ==> ts[i].btn == btns[i] && (ts[i].PopoverButton? <==> pro && i == 0)
  {
    seq(|btns|, i requires 0 <= i < |btns| => if pro && i == 0 then PopoverButton(btns[i]) else PlainButton(btns[i]))
  }

  /** `BannerTriggers`. A missing list falls back to the defaults; a list
      longer than two is cut to two IN PLACE, so the caller's array changes. */
  method BannerTriggers(buttons: ButtonArray?, asChild: bool, featurePro: Option<string>)
    returns (view: TriggersView)
    modifies buttons
    ensures buttons != null ==> buttons.elems == Truncated(old(buttons.elems))
    ensures asChild ==> view == Slotted
    ensures !asChild && buttons == null ==> view == Buttons(Triggers(DefaultButtons, IsPro(featurePro)))
    ensures !asChild && buttons != null ==> view == Buttons(Triggers(buttons.elems, IsPro(featurePro)))
  {
    var btns: seq<C.ButtonProps>;
    if buttons == null {
      btns := DefaultButtons;
    } else {
      if |buttons.elems| > 2 {
        buttons.elems := buttons.elems[..2];
      }
      btns := buttons.elems;
    }
    if asChild {
      view := Slotted;
    } else {
      view := Buttons(Triggers(btns, IsPro(featurePro)));
    }
  }

  /** A caller passing three buttons finds its own array cut to the first two. */
  method CallerArrayIsTruncated(a: C.ButtonProps, b: C.ButtonProps, c: C.ButtonProps)
    returns (arr: ButtonArray, view: TriggersView)
    ensures fresh(arr) && arr.elems == [a, b]
    ensures view == Buttons([PlainButton(a), PlainButton(b)])
  {
    arr := new ButtonArray([a, b, c]);
    view := BannerTriggers(arr, false, None);
    assert Triggers([a, b], false) == [PlainButton(a), PlainButton(b)];
  }

  /** One entry of the list `BannerOptions` receives. */
  datatype CookieOption = CookieOption(labelText: string, description: string)

  /** A rendered option switch. */
  datatype OptionEntry = OptionEntry(labelText: string, description: string, disabled: bool)

  /** `BannerOptions`: nothing for a missing or empty list, else one entry
      per option in order, with exactly the first one disabled. */
  function BannerOptions(options: Option<seq<CookieOption>>): (r: Option<seq<OptionEntry>>)
    ensures r.None? <==> options.None? || options.value == []
    ensures r.Some? ==> |r.value| == |options.value|
    ensures r.Some? ==> forall i :: 0 <= i < |r.value| ==>
      && r.value[i].labelText == options.value[i].labelText
      && r.value[i].description == options.value[i].description
      && (r.value[i].disabled <==> i == 0)
  {
    match options
    case None => None
    case Some(opts) =>
      if |opts| == 0 then None
      else Some(seq(|opts|, i requires 0 <= i < |opts| =>
        OptionEntry(opts[i].labelText, opts[i].description, i == 0)))
  }

  /** The options shown behind the pro popover button. */
  const DefaultOptions: seq<CookieOption> := [
    CookieOption("Necessary", "Cookies necessary for website functionality."),
    CookieOption("Performance", "Cookies for measuring and improving site performance."),
    CookieOption("Functional", "Cookies for enhanced functionality and personalization."),
    CookieOption("Targeting", "Cookies for targeted advertising based on interests.")
  ]

  /** Of the four default options only "Necessary" is disabled. */
  lemma DefaultOptionsOnlyNecessaryDisabled()
    ensures var r := BannerOptions(Some(DefaultOptions));
      && r.Some? && |r.value| == 4
      && forall i :: 0 <= i < 4 ==> (r.value[i].disabled <==> r.value[i].labelText == "Necessary")
  {
  }

  /** The optional props of the banner content. */
  datatype ContentProps = ContentProps(
    heading: Option<string>, description: Option<string>, href: Option<string>, labelText: Option<string>)

  /** The text the banner content shows. */
  datatype Content = Content(heading: string, description: string, href: string, labelText: string)

  const DefaultContent: Content := Content(
    "Transparency", "We use cookies to improve your experience.", "/privacy", "privacy policy")

  /** `BannerContent`: each prop that is given is shown as is, each missing one falls back. */
  function BannerContent(props: ContentProps): (c: Content)
    ensures props.heading.Some? ==> c.heading == props.heading.value
    ensures props.heading.None? ==> c.heading == DefaultContent.heading
    ensures props.description.Some? ==> c.description == props.description.value
    ensures props.description.None? ==> c.description == DefaultContent.description
    ensures props.href.Some? ==> c.href == props.href.value
    ensures props.href.None? ==> c.href == DefaultContent.href
    ensures props.labelText.Some? ==> c.labelText == props.labelText.value
    ensures props.labelText.None? ==> c.labelText == DefaultContent.labelText
  {
    Content(
      props.heading.GetOr("Transparency"),
      props.description.GetOr("We use cookies to improve your experience."),
      props.href.GetOr("/privacy"),
      props.labelText.GetOr("privacy policy"))
  }

  /** The props that would render `c` unchanged. */
  function PropsOf(c: Content): ContentProps {
    ContentProps(Some(c.heading), Some(c.description), Some(c.href), Some(c.labelText))
  }

  /** With no props the defaults show; feeding the shown text back renders it
      again; an empty string is kept, since `??` only replaces a missing value. */
  lemma BannerContentFallbacks(props: ContentProps)
    ensures BannerContent(ContentProps(None, None, None, None)) == DefaultContent
    ensures BannerContent(PropsOf(BannerContent(props))) == BannerContent(props)
    ensures BannerContent(props.(heading := Some(""))).heading == ""
  {
  }
}
