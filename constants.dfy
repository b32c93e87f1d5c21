/** The consent manager's fixed data (components/consent/utils/constants.ts):
    cookie and global names, the cookie lifetime, the two consent tag groups,
    the label and description of each tag, and the pro-feature flag. */
module ConsentConstants {
  import opened Maybe

  const ConsentCookieName: string := "app-consent"
  const DataLayer: string := "dataLayer"
  const TagManagerKey: string := "gtag"
  const RedactionCookie: string := "ads_data_redaction"

  /** Cookie lifetime in seconds: one week. */
  const CookieExpiry: nat := 60 * 60 * 24 * 7

  /** Tags that the site needs in order to work. */
  const NecessaryTags: seq<string> :=
    ["security_storage", "functionality_storage", "personalization_storage"]

  /** Tags for advertising and analytics. */
  const AnalyticsTags: seq<string> :=
    ["ad_storage", "analytics_storage", "ad_personalization", "ad_user_data"]

  datatype Group = Necessary | Analytics

  /** Display metadata of one tag. */
  datatype TagDetail = TagDetail(labelText: string, description: string)

  const TagDetails: map<string, TagDetail> := map[
    "security_storage" := TagDetail(
      "Security Related Cookies",
      "Cookies necessary for securely authenticating users."),
    "functionality_storage" := TagDetail(
      "Functionality Related Cookies",
      "Cookies for measuring and improving site performance."),
    "personalization_storage" := TagDetail(
      "Personalization Related Cookies",
      "Cookies for enhanced functionality and personalization."),
    "ad_storage" := TagDetail(
      "Personalized Marketing Related Cookies",
      "Cookies for targeted content delivery based on interests."),
    "analytics_storage" := TagDetail(
      "Analytics Related Cookies",
      "Cookies for measuring and improving site performance."),
    "ad_personalization" := TagDetail(
      "Personalization Related Cookies",
      "Cookies for enhanced functionality and personalization."),
    "ad_user_data" := TagDetail(
      "User Data Related Cookies",
      "Cookies for targeted content delivery based on interests.")
  ]

  /** The lower-case category descriptions exported next to the tag data. */
  const CategoryDescriptions: map<string, string> := map[
    "necessary" := "These cookies are essential for the website to function",
    "analytics" := "These cookies help us to improve your experience on our website"
  ]

  /** Props of one banner button. */
  datatype ButtonProps = ButtonProps(children: string, variant: string, buttonType: string, size: string)

  /** The two default banner buttons. */
  const DefaultButtons: seq<ButtonProps> := [
    ButtonProps("Show Me", "outline", "button", "sm"),
    ButtonProps("Got it", "default", "submit", "sm")
  ]

  /** The pro flag as this file computes it, from the value of the
      `NEXT_PUBLIC_FEATURE_PRO` environment variable (None when unset). */
  function IsPro(featurePro: Option<string>): (pro: bool)
    ensures pro <==> featurePro != Some("true")
  {
    !(featurePro == Some("true"))
  }

  predicate Distinct(s: seq<string>) {
    forall i, j :: 0 <= i < j < |s| ==> s[i] != s[j]
  }

  /** The group a tag belongs to; a tag listed in both would be necessary.
      None for a name outside the registry. */
  function GroupOf(tag: string): (g: Option<Group>)
    ensures g == Some(Necessary) <==> tag in NecessaryTags
    ensures g == Some(Analytics) <==> tag in AnalyticsTags && tag !in NecessaryTags
    ensures g == None <==> tag !in NecessaryTags && tag !in AnalyticsTags
  {
    if tag in NecessaryTags then Some(Necessary)
    else if tag in AnalyticsTags then Some(Analytics)
    else None
  }

  /** The ordered tags of a group. */
  function TagsOf(g: Group): (tags: seq<string>)
    ensures forall t :: t in tags ==> GroupOf(t) == Some(g)
    ensures forall t :: GroupOf(t) == Some(g) ==> t in tags
    ensures tags == if g == Necessary then NecessaryTags else AnalyticsTags
  {
    match g
    case Necessary => NecessaryTags
    case Analytics =>
      TagGroupsDisjoint();
      AnalyticsTags
  }

  /** The metadata of a tag, None for a name outside the registry. */
  function DetailOf(tag: string): (d: Option<TagDetail>)
    ensures d.Some? <==> GroupOf(tag).Some?
    ensures d.Some? ==> d.value == TagDetails[tag]
  {
    TagDetailsCoverGroups();
    if tag in TagDetails then Some(TagDetails[tag]) else None
  }

  /** The two groups are disjoint, so every registered tag is in exactly one. */
  lemma TagGroupsDisjoint()
    ensures forall t :: t in NecessaryTags ==> t !in AnalyticsTags
    ensures forall t :: GroupOf(t).Some? ==> (t in NecessaryTags <==> t !in AnalyticsTags)
  {
  }

  /** No duplicates, three necessary and four analytics tags. */
  lemma TagListsShape()
    ensures Distinct(NecessaryTags) && |NecessaryTags| == 3
    ensures Distinct(AnalyticsTags) && |AnalyticsTags| == 4
  {
  }

  /** The details table has an entry for exactly the tags of the two groups. */
  lemma TagDetailsCoverGroups()
    ensures TagDetails.Keys == (set t | t in NecessaryTags) + (set t | t in AnalyticsTags)
  {
  }

  lemma NamesAndExpiry()
    ensures ConsentCookieName == "app-consent"
    ensures DataLayer == "dataLayer" && TagManagerKey == "gtag"
    ensures CookieExpiry == 604800 && CookieExpiry == 7 * 24 * 3600
  {
  }

  /** Labels do not identify tags: two different tags share one. */
  lemma LabelsNotUnique()
    ensures "personalization_storage" != "ad_personalization"
    ensures TagDetails["personalization_storage"].labelText == TagDetails["ad_personalization"].labelText
    ensures GroupOf("personalization_storage") != GroupOf("ad_personalization")
  {
  }
}
