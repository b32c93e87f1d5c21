/** The grouped consent options (components/cookies/banner-options.tsx):
    a category switch over a group of tags, one option row per tag, and the
    single-key update a row's switch sends to `handleConsentUpdate`. */
module CookieOptions {
  import opened Maybe
  import C = ConsentConstants

  /** One entry of the options map: a tag's metadata and whether it is granted. */
  datatype OptionDetails = OptionDetails(labelText: string, description: string, checked: bool)

  type Options = map<string, OptionDetails>

  /** One rendered `Option` row: its tag, the text it shows, the initial
      state of its switch and whether that switch is disabled. */
  datatype OptionRow = OptionRow(tag: string, labelText: string, description: string, defaultChecked: bool, disabled: bool)

  /** What `GroupedOptions` renders. `switchDefaultChecked` is None when the
      switch gets no initial value, which leaves it unchecked. */
  datatype CategoryView = CategoryView(
    category: string,
    description: Option<string>,
    switchDisabled: bool,
    switchDefaultChecked: Option<bool>,
    rows: seq<OptionRow>)

  /** A user action on a rendered category. */
  datatype UiEvent = CategorySwitched(checked: bool) | RowSwitched(index: nat, checked: bool)

  /** Every tag of the group has an entry in the options map (the map's type promises this). */
  predicate Covers(options: Options, group: seq<string>) {
    forall t :: t in group ==> t in options
  }

  /** The category descriptions this component keeps, keyed by the capitalised category name. */
  const LocalCategoryDescriptions: map<string, string> := map[
    "Necessary" := "These cookies are essential for the website to function",
    "Analytics" := "These cookies help us to improve your experience on our website"
  ]

  function CategoryDescription(category: string): (d: Option<string>)
    ensures d.Some? <==> category == "Necessary" || category == "Analytics"
    ensures category == "Necessary" ==> d == Some(C.CategoryDescriptions["necessary"])
    ensures category == "Analytics" ==> d == Some(C.CategoryDescriptions["analytics"])
  {
    if category in LocalCategoryDescriptions then Some(LocalCategoryDescriptions[category]) else None
  }

  /** `tagGroup.every(tag => options[tag].checked)`. */
  function AllChecked(group: seq<string>, options: Options): (r: bool)
    requires Covers(options, group)
    ensures r <==> forall i :: 0 <= i < |group| ==> options[group[i]].checked
  {
    group == [] || (options[group[0]].checked && AllChecked(group[1..], options))
  }

  /** `tagGroup?.every(...)`: undefined when there is no group. */
  function IsCategoryChecked(tagGroup: Option<seq<string>>, options: Options): (r: Option<bool>)
    requires tagGroup.Some? ==> Covers(options, tagGroup.value)
    ensures r.Some? <==> tagGroup.Some?
    ensures r == Some(true) <==> tagGroup.Some? && forall t :: t in tagGroup.value ==> options[t].checked
  {
    match tagGroup
    case None => None
    case Some(group) => Some(AllChecked(group, options))
  }

  /** The row for one tag; `GroupedOptions` never passes `isDisabled`, so it is enabled. */
  function Row(tag: string, options: Options): OptionRow
    requires tag in options
  {
    OptionRow(tag, options[tag].labelText, options[tag].description, options[tag].checked, false)
  }

  /** `tagGroup.map(tag => <Option ... />)`. */
  function Rows(group: seq<string>, options: Options): (rows: seq<OptionRow>)
    requires Covers(options, group)
    ensures |rows| == |group|
    ensures forall i :: 0 <= i < |group| ==>
      && rows[i].tag == group[i]
      && rows[i].labelText == options[group[i]].labelText
      && rows[i].description == options[group[i]].description
      && rows[i].defaultChecked == options[group[i]].checked
      && !rows[i].disabled
  {
    if group == [] then [] else [Row(group[0], options)] + Rows(group[1..], options)
  }

  /** `GroupedOptions`. The `description` prop is accepted but not rendered:
      the text shown comes from the category name. The `defaultValue` prop is
      likewise ignored and is not a parameter here; `className` only styles. */
  function GroupedOptions(
    description: string,
    isDisabled: Option<bool>,
    tagGroup: Option<seq<string>>,
    category: string,
    options: Options): (v: CategoryView)
    requires tagGroup.Some? ==> Covers(options, tagGroup.value)
    ensures v.category == category
    ensures v.switchDisabled <==> isDisabled == Some(true)
    ensures v.switchDefaultChecked == Some(true) <==>
      tagGroup.Some? && forall t :: t in tagGroup.value ==> options[t].checked
    ensures v.switchDefaultChecked == IsCategoryChecked(tagGroup, options)
    ensures v.description == CategoryDescription(category)
    ensures tagGroup.Some? ==> v.rows == Rows(tagGroup.value, options)
    ensures tagGroup.None? ==> v.rows == []
  {
    CategoryView(
      category,
      CategoryDescription(category),
      isDisabled.GetOr(false),
      IsCategoryChecked(tagGroup, options),
      if tagGroup.Some? then Rows(tagGroup.value, options) else [])
  }

  /** The category switch starts checked exactly when the group is defined
      and every row below it starts checked. */
  lemma CategoryCheckedIffAllRowsChecked(
    description: string, isDisabled: Option<bool>, tagGroup: Option<seq<string>>,
    category: string, options: Options)
    requires tagGroup.Some? ==> Covers(options, tagGroup.value)
    ensures var v := GroupedOptions(description, isDisabled, tagGroup, category, options);
      v.switchDefaultChecked == Some(true) <==>
        tagGroup.Some? && forall i :: 0 <= i < |v.rows| ==> v.rows[i].defaultChecked
  {
  }

  /** An empty group gives a checked switch; no group gives an unchecked one and no rows. */
  lemma EmptyAndMissingGroups(description: string, isDisabled: Option<bool>, category: string, options: Options)
    ensures GroupedOptions(description, isDisabled, Some([]), category, options).switchDefaultChecked == Some(true)
    ensures GroupedOptions(description, isDisabled, None, category, options).switchDefaultChecked == None
    ensures GroupedOptions(description, isDisabled, None, category, options).rows == []
  {
  }

  /** Rows are enabled even under a disabled category, and the description prop has no effect. */
  lemma RowsEnabledDescriptionIgnored(
    d1: string, d2: string, isDisabled: Option<bool>, tagGroup: Option<seq<string>>,
    category: string, options: Options)
    requires tagGroup.Some? ==> Covers(options, tagGroup.value)
    ensures GroupedOptions(d1, isDisabled, tagGroup, category, options)
         == GroupedOptions(d2, isDisabled, tagGroup, category, options)
    ensures var v := GroupedOptions(d1, isDisabled, tagGroup, category, options);
      forall i :: 0 <= i < |v.rows| ==> !v.rows[i].disabled
  {
  }

  /** The payload `{ [tag]: checked }` handed to `handleConsentUpdate`. */
  function ToggleUpdate(tag: string, checked: bool): (u: map<string, bool>)
    ensures u.Keys == {tag} && u[tag] == checked
  {
    map[tag := checked]
  }

  /** The action toggles an enabled row of the view. */
  predicate Sends(v: CategoryView, e: UiEvent) {
    e.RowSwitched? && e.index < |v.rows| && !v.rows[e.index].disabled
  }

  /** The updates one user action sends. The category switch has no change
      handler; a row's switch sends its tag's new value unless it is disabled. */
  function UpdatesFor(v: CategoryView, e: UiEvent): (r: seq<map<string, bool>>)
    ensures |r| <= 1
    ensures e.CategorySwitched? ==> r == []
    ensures r != [] <==> Sends(v, e)
    ensures r != [] ==> r[0].Keys == {v.rows[e.index].tag} && r[0][v.rows[e.index].tag] == e.checked
  {
    match e
    case CategorySwitched(_) => []
    case RowSwitched(i, checked) =>
      if i < |v.rows| && !v.rows[i].disabled then [ToggleUpdate(v.rows[i].tag, checked)] else []
  }

  /** The updates a sequence of user actions sends, in order. */
  function UpdatesForAll(v: CategoryView, events: seq<UiEvent>): (r: seq<map<string, bool>>)
    ensures |r| <= |events|
    ensures (forall k :: 0 <= k < |events| ==> Sends(v, events[k])) ==> |r| == |events|
    ensures (forall k :: 0 <= k < |events| ==> Sends(v, events[k])) ==>
      forall k :: 0 <= k < |events| ==> r[k] == ToggleUpdate(v.rows[events[k].index].tag, events[k].checked)
    decreases |events|
  {
    if events == [] then [] else UpdatesFor(v, events[0]) + UpdatesForAll(v, events[1..])
  }

  /** An update names exactly one tag, the tag of one of the view's rows. */
  predicate SingleRowUpdate(v: CategoryView, u: map<string, bool>) {
    exists i :: 0 <= i < |v.rows| && u.Keys == {v.rows[i].tag}
  }

  /** Whatever the user does, every update sent is a single-key map naming a row's tag. */
  lemma {:induction false} UpdatesAreSingleTag(v: CategoryView, events: seq<UiEvent>)
    ensures forall k :: 0 <= k < |UpdatesForAll(v, events)| ==> SingleRowUpdate(v, UpdatesForAll(v, events)[k])
    decreases |events|
  {
    if events != [] {
      UpdatesAreSingleTag(v, events[1..]);
      var head := UpdatesFor(v, events[0]);
      var tail := UpdatesForAll(v, events[1..]);
      if head != [] {
        assert SingleRowUpdate(v, head[0]) by {
          assert head[0].Keys == {v.rows[events[0].index].tag};
        }
      }
      forall k | 0 <= k < |head + tail|
        ensures SingleRowUpdate(v, (head + tail)[k])
      {
        if k >= |head| {
          assert (head + tail)[k] == tail[k - |head|];
        }
      }
    }
  }

  /** Switching only the category, any number of times, sends nothing. */
  lemma {:induction false} CategorySwitchesSendNothing(v: CategoryView, events: seq<UiEvent>)
    requires forall k :: 0 <= k < |events| ==> events[k].CategorySwitched?
    ensures UpdatesForAll(v, events) == []
    decreases |events|
  {
    if events != [] {
      assert events[0].CategorySwitched?;
      assert forall k :: 0 <= k < |events[1..]| ==> events[1..][k] == events[k + 1];
      CategorySwitchesSendNothing(v, events[1..]);
    }
  }

  /** A row toggle in a view built by `GroupedOptions` always reaches the callback. */
  lemma RowToggleAlwaysSends(
    description: string, isDisabled: Option<bool>, tagGroup: Option<seq<string>>,
    category: string, options: Options, i: nat, checked: bool)
    requires tagGroup.Some? ==> Covers(options, tagGroup.value)
    requires tagGroup.Some? && i < |tagGroup.value|
    ensures UpdatesFor(GroupedOptions(description, isDisabled, tagGroup, category, options), RowSwitched(i, checked))
         == [map[tagGroup.value[i] := checked]]
  {
  }

  /** `handleConsentUpdate`: the provider behind it is outside this model, so it records what it receives. */
  class ConsentDispatch {
    var received: seq<map<string, bool>>

    constructor ()
      ensures received == []
    {
      received := [];
    }

    method HandleConsentUpdate(update: map<string, bool>)
      modifies this
      ensures received == old(received) + [update]
    {
      received := received + [update];
    }
  }

  /** Delivering a user action to the rendered category. */
  method HandleEvent(v: CategoryView, e: UiEvent, dispatch: ConsentDispatch)
    modifies dispatch
    ensures dispatch.received == old(dispatch.received) + UpdatesFor(v, e)
  {
    match e
    case CategorySwitched(_) =>
    case RowSwitched(i, checked) =>
      if i < |v.rows| && !v.rows[i].disabled {
        dispatch.HandleConsentUpdate(map[v.rows[i].tag := checked]);
      }
  }
}
