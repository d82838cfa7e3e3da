/**
 * The settings page: loading the stored settings row into the form with
 * `||` fallbacks, the hashtag list (kept in the row as JSON), the add and
 * remove buttons of that list, and saving one section of the form.
 */
module Settings {
  import opened Wrappers
  import opened Js
  import opened Json

  /** The fields of the settings form, one per column of the settings row. */
  datatype Field =
    | Bio | AvatarUrl
    | LinkedinConnected | XConnected | InstagramConnected | LinkedinApiKey | XApiKey | InstagramApiKey
    | DefaultVisibility | AutoSaveFrequency | DefaultPlatformId | Timezone
    | EmailNotifications | CalendarReminders | WeeklyReports
    | CompanyLogoUrl | BrandColorPrimary | BrandColorSecondary | DefaultHashtags | SignatureText

  /** A form field or settings column: the switches and numbers are integers, the rest text. */
  datatype Val = IntV(i: int) | TextV(s: string)

  /** JavaScript truthiness; a null column is an absent key. */
  predicate Truthy(v: Val) {
    match v
    case IntV(i) => i != 0
    case TextV(s) => s != []
  }

  /** The settings row as read from the server: absent keys are null columns. */
  type Row = map<Field, Val>

  /** The form's state: every field has a value. */
  type Form = map<Field, Val>

  const AllFields: set<Field> := {
    Bio, AvatarUrl,
    LinkedinConnected, XConnected, InstagramConnected, LinkedinApiKey, XApiKey, InstagramApiKey,
    DefaultVisibility, AutoSaveFrequency, DefaultPlatformId, Timezone,
    EmailNotifications, CalendarReminders, WeeklyReports,
    CompanyLogoUrl, BrandColorPrimary, BrandColorSecondary, DefaultHashtags, SignatureText}

  lemma Listed(f: Field)
    ensures f in AllFields
  {
  }

  lemma AllListed()
    ensures forall f: Field :: f in AllFields
  {
    forall f: Field
      ensures f in AllFields
    {
      Listed(f);
    }
  }

  predicate Complete(form: Form) {
    forall f: Field :: f in form
  }

  /** The form's value for each field before the row arrives. */
  function Initial(f: Field): Val {
    match f
    case Bio => TextV("")
    case AvatarUrl => TextV("")
    case LinkedinConnected => IntV(0)
    case XConnected => IntV(0)
    case InstagramConnected => IntV(0)
    case LinkedinApiKey => TextV("")
    case XApiKey => TextV("")
    case InstagramApiKey => TextV("")
    case DefaultVisibility => TextV("public")
    case AutoSaveFrequency => IntV(30)
    case DefaultPlatformId => IntV(1)
    case Timezone => TextV("America/Chicago")
    case EmailNotifications => IntV(1)
    case CalendarReminders => IntV(1)
    case WeeklyReports => IntV(1)
    case CompanyLogoUrl => TextV("")
    case BrandColorPrimary => TextV("#3B82F6")
    case BrandColorSecondary => TextV("#EAB308")
    case DefaultHashtags => TextV("[]")
    case SignatureText => TextV("")
  }

  /** The right-hand side of each `settings.x || d` in the load effect. */
  function Fallback(f: Field): Val {
    match f
    case Bio => TextV("")
    case AvatarUrl => TextV("")
    case LinkedinConnected => IntV(0)
    case XConnected => IntV(0)
    case InstagramConnected => IntV(0)
    case LinkedinApiKey => TextV("")
    case XApiKey => TextV("")
    case InstagramApiKey => TextV("")
    case DefaultVisibility => TextV("public")
    case AutoSaveFrequency => IntV(30)
    case DefaultPlatformId => IntV(1)
    case Timezone => TextV("America/Chicago")
    case EmailNotifications => IntV(1)
    case CalendarReminders => IntV(1)
    case WeeklyReports => IntV(1)
    case CompanyLogoUrl => TextV("")
    case BrandColorPrimary => TextV("#3B82F6")
    case BrandColorSecondary => TextV("#EAB308")
    case DefaultHashtags => TextV("[]")
    case SignatureText => TextV("")
  }

  /** Every load fallback is the field's initial value. */
  lemma FallbacksAreInitial(f: Field)
    ensures Fallback(f) == Initial(f)
  {
  }

  /** The row's columns have the types of the form's fields. */
  predicate WellTyped(row: Row) {
    forall f | f in row :: row[f].IntV? == Initial(f).IntV?
  }

  /** `row[key] || d` */
  function Or(row: Row, key: Field, d: Val): (v: Val)
    ensures key in row && Truthy(row[key]) ==> v == row[key]
    ensures !(key in row && Truthy(row[key])) ==> v == d
  {
    if key in row && Truthy(row[key]) then row[key] else d
  }

  // ---------------------------------------------------------------------
  // Loading the row
  // ---------------------------------------------------------------------

  /**
   * The load effect: each field takes its column when the column is
   * truthy, and its initial value when the column is null, 0 or empty.
   */
  function LoadForm(row: Row): (form: Form)
    ensures Complete(form)
    ensures forall f | f in row && Truthy(row[f]) :: form[f] == row[f]
    ensures forall f | !(f in row && Truthy(row[f])) :: form[f] == Initial(f)
  {
    AllListed();
    assert forall f: Field :: Fallback(f) == Initial(f);
    map f | f in AllFields :: Or(row, f, Fallback(f))
  }

  /** The stored hashtag text, "[]" when the column is null or empty. */
  function HashtagText(row: Row): string
    requires WellTyped(row)
  {
    var v := Or(row, DefaultHashtags, TextV("[]"));
    v.s
  }

  /** The hashtag list: the parsed column, or an empty list when it does not parse. */
  function LoadHashtags(row: Row): seq<string>
    requires WellTyped(row)
  {
    ParseStrings(HashtagText(row)).GetOr([])
  }

  /** A column that is not a JSON list of strings leaves the list empty; JSON written by the page reads back. */
  lemma HashtagsLoad(row: Row, tags: seq<string>)
    requires WellTyped(row)
    ensures ParseStrings(HashtagText(row)).None? ==> LoadHashtags(row) == []
    ensures DefaultHashtags in row && row[DefaultHashtags] == TextV(Stringify(tags)) ==> LoadHashtags(row) == tags
  {
    ParseStringify(tags);
  }

  // ---------------------------------------------------------------------
  // handleSave
  // ---------------------------------------------------------------------

  /** The sections of the page, each with its own save button. */
  datatype Section = Profile | Platforms | Content | Notifications | Brand

  /** The save button that sends each field. */
  function SectionOf(f: Field): Section {
    match f
    case Bio | AvatarUrl => Profile
    case LinkedinConnected | XConnected | InstagramConnected | LinkedinApiKey | XApiKey | InstagramApiKey => Platforms
    case DefaultVisibility | AutoSaveFrequency | DefaultPlatformId | Timezone => Content
    case EmailNotifications | CalendarReminders | WeeklyReports => Notifications
    case CompanyLogoUrl | BrandColorPrimary | BrandColorSecondary | DefaultHashtags | SignatureText => Brand
  }

  /** The name each save button passes to handleSave. */
  function SectionName(s: Section): string {
    match s
    case Profile => "profile"
    case Platforms => "platforms"
    case Content => "content"
    case Notifications => "notifications"
    case Brand => "brand"
  }

  /** The section a name passed to handleSave stands for, if any. */
  function SectionNamed(name: string): (r: Option<Section>)
    ensures r.Some? ==> SectionName(r.value) == name
    ensures r.None? ==> forall s: Section :: SectionName(s) != name
  {
    if name == "profile" then Some(Profile)
    else if name == "platforms" then Some(Platforms)
    else if name == "content" then Some(Content)
    else if name == "notifications" then Some(Notifications)
    else if name == "brand" then Some(Brand)
    else None
  }

  /**
   * The update a save button sends: exactly the fields of its section, as
   * in the form, except the hashtags, which go as the JSON text of the list.
   */
  function SaveSection(section: Section, form: Form, hashtagsJson: string): (updates: map<Field, Val>)
    requires Complete(form)
  {
    match section
    case Profile => map[Bio := form[Bio], AvatarUrl := form[AvatarUrl]]
    case Platforms => map[
      LinkedinConnected := form[LinkedinConnected], XConnected := form[XConnected],
      InstagramConnected := form[InstagramConnected], LinkedinApiKey := form[LinkedinApiKey],
      XApiKey := form[XApiKey], InstagramApiKey := form[InstagramApiKey]]
    case Content => map[
      DefaultVisibility := form[DefaultVisibility], AutoSaveFrequency := form[AutoSaveFrequency],
      DefaultPlatformId := form[DefaultPlatformId], Timezone := form[Timezone]]
    case Notifications => map[
      EmailNotifications := form[EmailNotifications], CalendarReminders := form[CalendarReminders],
      WeeklyReports := form[WeeklyReports]]
    case Brand => map[
      CompanyLogoUrl := form[CompanyLogoUrl], BrandColorPrimary := form[BrandColorPrimary],
      BrandColorSecondary := form[BrandColorSecondary], DefaultHashtags := TextV(hashtagsJson),
      SignatureText := form[SignatureText]]
  }

  /**
   * What a save button sends: exactly the fields of its section, with the
   * form's values, except the hashtags, which go as the JSON text of the list.
   */
  predicate SendsSection(section: Section, form: Form, hashtagsJson: string, updates: map<Field, Val>)
    requires Complete(form)
  {
    && (forall f: Field :: f in updates <==> SectionOf(f) == section)
    && (forall f | f in updates ::
          updates[f] == if f == DefaultHashtags then TextV(hashtagsJson) else form[f])
  }

  lemma SendsProfile(form: Form, hashtagsJson: string)
    requires Complete(form)
    ensures SendsSection(Profile, form, hashtagsJson, SaveSection(Profile, form, hashtagsJson))
  {
    var updates := SaveSection(Profile, form, hashtagsJson);
    forall f: Field
      ensures f in updates <==> SectionOf(f) == Profile
    {
      match f
      case Bio =>
      case AvatarUrl =>
      case LinkedinConnected =>
      case XConnected =>
      case InstagramConnected =>
      case LinkedinApiKey =>
      case XApiKey =>
      case InstagramApiKey =>
      case DefaultVisibility =>
      case AutoSaveFrequency =>
      case DefaultPlatformId =>
      case Timezone =>
      case EmailNotifications =>
      case CalendarReminders =>
      case WeeklyReports =>
      case CompanyLogoUrl =>
      case BrandColorPrimary =>
      case BrandColorSecondary =>
      case DefaultHashtags =>
      case SignatureText =>
    }
  }

  lemma SendsPlatforms(form: Form, hashtagsJson: string)
    requires Complete(form)
    ensures SendsSection(Platforms, form, hashtagsJson, SaveSection(Platforms, form, hashtagsJson))
  {
    var updates := SaveSection(Platforms, form, hashtagsJson);
    forall f: Field
      ensures f in updates <==> SectionOf(f) == Platforms
    {
      match f
      case Bio =>
      case AvatarUrl =>
      case LinkedinConnected =>
      case XConnected =>
      case InstagramConnected =>
      case LinkedinApiKey =>
      case XApiKey =>
      case InstagramApiKey =>
      case DefaultVisibility =>
      case AutoSaveFrequency =>
      case DefaultPlatformId =>
      case Timezone =>
      case EmailNotifications =>
      case CalendarReminders =>
      case WeeklyReports =>
      case CompanyLogoUrl =>
      case BrandColorPrimary =>
      case BrandColorSecondary =>
      case DefaultHashtags =>
      case SignatureText =>
    }
  }

  lemma SendsContent(form: Form, hashtagsJson: string)
    requires Complete(form)
    ensures SendsSection(Content, form, hashtagsJson, SaveSection(Content, form, hashtagsJson))
  {
    var updates := SaveSection(Content, form, hashtagsJson);
    forall f: Field
      ensures f in updates <==> SectionOf(f) == Content
    {
      match f
      case Bio =>
      case AvatarUrl =>
      case LinkedinConnected =>
      case XConnected =>
      case InstagramConnected =>
      case LinkedinApiKey =>
      case XApiKey =>
      case InstagramApiKey =>
      case DefaultVisibility =>
      case AutoSaveFrequency =>
      case DefaultPlatformId =>
      case Timezone =>
      case EmailNotifications =>
      case CalendarReminders =>
      case WeeklyReports =>
      case CompanyLogoUrl =>
      case BrandColorPrimary =>
      case BrandColorSecondary =>
      case DefaultHashtags =>
      case SignatureText =>
    }
  }

  lemma SendsNotifications(form: Form, hashtagsJson: string)
    requires Complete(form)
    ensures SendsSection(Notifications, form, hashtagsJson, SaveSection(Notifications, form, hashtagsJson))
  {
    var updates := SaveSection(Notifications, form, hashtagsJson);
    forall f: Field
      ensures f in updates <==> SectionOf(f) == Notifications
    {
      match f
      case Bio =>
      case AvatarUrl =>
      case LinkedinConnected =>
      case XConnected =>
      case InstagramConnected =>
      case LinkedinApiKey =>
      case XApiKey =>
      case InstagramApiKey =>
      case DefaultVisibility =>
      case AutoSaveFrequency =>
      case DefaultPlatformId =>
      case Timezone =>
      case EmailNotifications =>
      case CalendarReminders =>
      case WeeklyReports =>
      case CompanyLogoUrl =>
      case BrandColorPrimary =>
      case BrandColorSecondary =>
      case DefaultHashtags =>
      case SignatureText =>
    }
  }

  lemma SendsBrand(form: Form, hashtagsJson: string)
    requires Complete(form)
    ensures SendsSection(Brand, form, hashtagsJson, SaveSection(Brand, form, hashtagsJson))
  {
    var updates := SaveSection(Brand, form, hashtagsJson);
    forall f: Field
      ensures f in updates <==> SectionOf(f) == Brand
    {
      match f
      case Bio =>
      case AvatarUrl =>
      case LinkedinConnected =>
      case XConnected =>
      case InstagramConnected =>
      case LinkedinApiKey =>
      case XApiKey =>
      case InstagramApiKey =>
      case DefaultVisibility =>
      case AutoSaveFrequency =>
      case DefaultPlatformId =>
      case Timezone =>
      case EmailNotifications =>
      case CalendarReminders =>
      case WeeklyReports =>
      case CompanyLogoUrl =>
      case BrandColorPrimary =>
      case BrandColorSecondary =>
      case DefaultHashtags =>
      case SignatureText =>
    }
  }

  /** Each button's update holds its section's fields and no other. */
  lemma SaveSectionSendsSection(section: Section, form: Form, hashtagsJson: string)
    requires Complete(form)
    ensures SendsSection(section, form, hashtagsJson, SaveSection(section, form, hashtagsJson))
  {
    match section
    case Profile => SendsProfile(form, hashtagsJson);
    case Platforms => SendsPlatforms(form, hashtagsJson);
    case Content => SendsContent(form, hashtagsJson);
    case Notifications => SendsNotifications(form, hashtagsJson);
    case Brand => SendsBrand(form, hashtagsJson);
  }

  /** handleSave fills the update field by field. */
  method HandleSave(section: string, form: Form, hashtags: seq<string>) returns (updates: map<Field, Val>)
    requires Complete(form)
    ensures SectionNamed(section).Some? ==> updates == SaveSection(SectionNamed(section).value, form, Stringify(hashtags))
    ensures SectionNamed(section).None? ==> updates == map[]
  {
    updates := map[];
    if section == "profile" {
      updates := updates[Bio := form[Bio]];
      updates := updates[AvatarUrl := form[AvatarUrl]];
    } else if section == "platforms" {
      updates := updates[LinkedinConnected := form[LinkedinConnected]];
      updates := updates[XConnected := form[XConnected]];
      updates := updates[InstagramConnected := form[InstagramConnected]];
      updates := updates[LinkedinApiKey := form[LinkedinApiKey]];
      updates := updates[XApiKey := form[XApiKey]];
      updates := updates[InstagramApiKey := form[InstagramApiKey]];
    } else if section == "content" {
      updates := updates[DefaultVisibility := form[DefaultVisibility]];
      updates := updates[AutoSaveFrequency := form[AutoSaveFrequency]];
      updates := updates[DefaultPlatformId := form[DefaultPlatformId]];
      updates := updates[Timezone := form[Timezone]];
    } else if section == "notifications" {
      updates := updates[EmailNotifications := form[EmailNotifications]];
      updates := updates[CalendarReminders := form[CalendarReminders]];
      updates := updates[WeeklyReports := form[WeeklyReports]];
    } else if section == "brand" {
      updates := updates[CompanyLogoUrl := form[CompanyLogoUrl]];
      updates := updates[BrandColorPrimary := form[BrandColorPrimary]];
      updates := updates[BrandColorSecondary := form[BrandColorSecondary]];
      updates := updates[DefaultHashtags := TextV(Stringify(hashtags))];
      updates := updates[SignatureText := form[SignatureText]];
    }
  }

  /** The server writes the sent columns over the stored row. */
  function Merge(row: Row, updates: map<Field, Val>): (r: Row)
    ensures r.Keys == row.Keys + updates.Keys
    ensures forall f | f in updates :: r[f] == updates[f]
    ensures forall f | f in row && f !in updates :: r[f] == row[f]
  {
    row + updates
  }

  // ---------------------------------------------------------------------
  // The switches, and the round trip they lose
  // ---------------------------------------------------------------------

  /** A switch writes 1 when turned on and 0 when turned off. */
  function SwitchValue(checked: bool): (v: Val)
    ensures Truthy(v) <==> checked
  {
    IntV(if checked then 1 else 0)
  }

  /** A switch shows on exactly when its field is 1. */
  predicate Checked(v: Val) {
    v == IntV(1)
  }

  /**
   * As written, a saved field reads back after a reload only when it is
   * truthy; a 0 or an empty text reads back as the initial value, so a
   * notification switch turned off and saved shows on again.
   */
  lemma SavedFieldReadsBackOnlyIfTruthy(
    row: Row, section: Section, form: Form, hashtagsJson: string, updates: map<Field, Val>, f: Field)
    requires Complete(form) && SendsSection(section, form, hashtagsJson, updates)
    requires SectionOf(f) == section && f != DefaultHashtags
    ensures var loaded := LoadForm(Merge(row, updates));
      && (Truthy(form[f]) ==> loaded[f] == form[f])
      && (!Truthy(form[f]) ==> loaded[f] == Initial(f))
  {
  }

  /** The notification switches cannot be saved off. */
  lemma SwitchedOffNotificationReloadsOn(
    row: Row, form: Form, hashtagsJson: string, updates: map<Field, Val>, f: Field)
    requires Complete(form) && SendsSection(Notifications, form, hashtagsJson, updates)
    requires SectionOf(f) == Notifications && form[f] == SwitchValue(false)
    ensures Checked(LoadForm(Merge(row, updates))[f])
  {
    SavedFieldReadsBackOnlyIfTruthy(row, Notifications, form, hashtagsJson, updates, f);
  }

  /** The load with null-only fallbacks (`??` instead of `||`): only a null column takes the initial value. */
  function LoadFormKeepingSaved(row: Row): (form: Form)
    ensures Complete(form)
    ensures forall f | f in row :: form[f] == row[f]
    ensures forall f | f !in row :: form[f] == Initial(f)
  {
    AllListed();
    map f | f in AllFields :: if f in row then row[f] else Initial(f)
  }

  /** With null-only fallbacks every saved field reads back as saved, and a switch turned off stays off. */
  lemma SavedSectionReadsBack(
    row: Row, section: Section, form: Form, hashtagsJson: string, updates: map<Field, Val>)
    requires Complete(form) && SendsSection(section, form, hashtagsJson, updates)
    ensures forall f | SectionOf(f) == section && f != DefaultHashtags ::
      LoadFormKeepingSaved(Merge(row, updates))[f] == form[f]
    ensures section == Notifications ==> forall f | SectionOf(f) == section ::
      Checked(LoadFormKeepingSaved(Merge(row, updates))[f]) <==> Checked(form[f])
  {
  }

  // ---------------------------------------------------------------------
  // addHashtag and removeHashtag
  // ---------------------------------------------------------------------

  /** The tag for a trimmed entry: itself when it starts with "#", else "#" before it. */
  function Tag(entry: string): (tag: string)
    ensures StartsWith(tag, "#")
    ensures StartsWith(entry, "#") ==> tag == entry
    ensures !StartsWith(entry, "#") ==> tag == "#" + entry
  {
    if StartsWith(entry, "#") then entry else "#" + entry
  }

  /**
   * addHashtag: with a non-blank entry whose trimmed text is not yet in
   * the list, appends its tag and clears the entry; otherwise changes
   * nothing, the entry included. The duplicate check looks at the trimmed
   * entry, not at the tag.
   */
  function AddHashtag(hashtags: seq<string>, entry: string): (r: (seq<string>, string))
    ensures IsBlank(entry) ==> r == (hashtags, entry)
    ensures !IsBlank(entry) && Trim(entry) in hashtags ==> r == (hashtags, entry)
    ensures !IsBlank(entry) && Trim(entry) !in hashtags ==> r == (hashtags + [Tag(Trim(entry))], "")
  {
    TrimEmptyIffBlank(entry);
    var t := Trim(entry);
    if t != [] && t !in hashtags then (hashtags + [Tag(t)], "") else (hashtags, entry)
  }

  /**
   * The duplicate check misses an entry typed without "#": entering it
   * twice lists its tag twice.
   */
  lemma PlainEntryTwiceAddsTwice(hashtags: seq<string>, entry: string)
    requires entry != [] && !IsSpace(entry[0]) && !IsSpace(entry[|entry| - 1])
    requires !StartsWith(entry, "#") && entry !in hashtags
    ensures AddHashtag(AddHashtag(hashtags, entry).0, entry).0 == hashtags + ["#" + entry, "#" + entry]
  {
    TrimUnpadded(entry);
    var once := hashtags + ["#" + entry];
    assert entry != "#" + entry;
    assert entry !in once;
    assert once + ["#" + entry] == hashtags + ["#" + entry, "#" + entry];
  }

  /** An entry typed with "#" is caught: entering it twice lists it once. */
  lemma TaggedEntryTwiceAddsOnce(hashtags: seq<string>, entry: string)
    requires entry != [] && !IsSpace(entry[0]) && !IsSpace(entry[|entry| - 1])
    requires StartsWith(entry, "#") && entry !in hashtags
    ensures AddHashtag(AddHashtag(hashtags, entry).0, entry).0 == hashtags + [entry]
  {
    TrimUnpadded(entry);
    assert entry in hashtags + [entry];
  }

  /** removeHashtag: every copy of the tag goes, the other tags stay in order. */
  function RemoveHashtag(hashtags: seq<string>, tag: string): (r: seq<string>)
    ensures tag !in r
    ensures forall h | h in hashtags && h != tag :: h in r
    ensures forall h | h in r :: h in hashtags
    ensures forall h | h != tag :: multiset(r)[h] == multiset(hashtags)[h]
  {
    var keep := (h: string) => h != tag;
    forall h | h != tag
      ensures multiset(Filter(hashtags, keep))[h] == multiset(hashtags)[h]
    {
      FilterMultiplicity(hashtags, keep, h);
    }
    Filter(hashtags, keep)
  }

  /** Removal works list by list: the tags left keep their order. */
  lemma RemoveHashtagKeepsOrder(front: seq<string>, back: seq<string>, tag: string)
    ensures RemoveHashtag(front + back, tag) == RemoveHashtag(front, tag) + RemoveHashtag(back, tag)
  {
    FilterAppend(front, back, (h: string) => h != tag);
  }

  /** Removing a tag that is not listed changes nothing. */
  lemma {:induction false} RemoveAbsentIsIdentity(hashtags: seq<string>, tag: string)
    requires tag !in hashtags
    ensures RemoveHashtag(hashtags, tag) == hashtags
  {
    if hashtags != [] {
      RemoveAbsentIsIdentity(hashtags[1..], tag);
      assert hashtags == [hashtags[0]] + hashtags[1..];
    }
  }

  /** Removing the tag just added, when it was new, gives back the list. */
  lemma RemoveUndoesAdd(hashtags: seq<string>, entry: string)
    requires !IsBlank(entry) && Trim(entry) !in hashtags && Tag(Trim(entry)) !in hashtags
    ensures RemoveHashtag(AddHashtag(hashtags, entry).0, Tag(Trim(entry))) == hashtags
  {
    var tag := Tag(Trim(entry));
    FilterAppend(hashtags, [tag], h => h != tag);
    RemoveAbsentIsIdentity(hashtags, tag);
  }
}
