/**
 * The create-post page: the submit checks, the payload sent to
 * posts.create, the character counter and the publish button's choice of
 * status.
 */
module CreatePost {
  import opened Wrappers
  import opened Js
  import opened Schema
  import Routers

  /**
   * The form state. `platformId` is null until a platform is picked;
   * `scheduledFor` and `linkedGoalId` are optional; dates are milliseconds
   * since the epoch.
   */
  datatype PostForm = PostForm(
    title: string,
    content: string,
    platformId: Option<int>,
    postType: string,
    status: PostStatus,
    scheduledFor: Option<int>,
    linkedGoalId: Option<int>)

  /** The page's initial form. */
  const InitialForm: PostForm := PostForm("", "", None, "text", Draft, None, None)

  /** The toast each early return of handleSubmit shows. */
  datatype SubmitError = MissingTitle | MissingContent | MissingPlatform | MissingDate

  /** `!formData.platformId`: null and 0 both count as no platform. */
  predicate NoPlatform(platformId: Option<int>) {
    platformId.None? || platformId.value == 0
  }

  /**
   * handleSubmit: the first failing check of title, content, platform and
   * (for a scheduled post) date stops the submit; otherwise the payload
   * carries the title, content, platform and post type as entered, the
   * requested status, and the date only for a scheduled post.
   */
  function Submit(form: PostForm, status: PostStatus): (r: Result<Routers.PostCreateInput, SubmitError>)
    requires status != Archived
    ensures r == Err(MissingTitle) <==> IsBlank(form.title)
    ensures r == Err(MissingContent) <==> !IsBlank(form.title) && IsBlank(form.content)
    ensures r == Err(MissingPlatform) <==>
      !IsBlank(form.title) && !IsBlank(form.content) && NoPlatform(form.platformId)
    ensures r == Err(MissingDate) <==>
      && !IsBlank(form.title) && !IsBlank(form.content) && !NoPlatform(form.platformId)
      && status == Scheduled && form.scheduledFor.None?
    ensures r.Ok? ==>
      && r.value.title == form.title && r.value.content == form.content
      && form.platformId == Some(r.value.platformId) && r.value.platformId != 0
      && r.value.postType == Some(form.postType) && r.value.status == Some(status)
      && r.value.scheduledFor == (if status == Scheduled then form.scheduledFor else None)
    ensures r.Ok? && status == Scheduled ==> r.value.scheduledFor.Some?
  {
    TrimEmptyIffBlank(form.title);
    TrimEmptyIffBlank(form.content);
    if Trim(form.title) == [] then Err(MissingTitle)
    else if Trim(form.content) == [] then Err(MissingContent)
    else if NoPlatform(form.platformId) then Err(MissingPlatform)
    else if status == Scheduled && form.scheduledFor.None? then Err(MissingDate)
    else
      Ok(Routers.PostCreateInput(
        form.platformId.value, form.title, form.content, Some(form.postType), Some(status),
        if status == Scheduled then form.scheduledFor else None))
  }

  /** The linked goal never reaches the payload: forms that differ only there submit the same. */
  lemma LinkedGoalNotSent(form: PostForm, goal: Option<int>, status: PostStatus)
    requires status != Archived
    ensures Submit(form.(linkedGoalId := goal), status) == Submit(form, status)
  {
  }

  /**
   * A submission the page lets through is refused by posts.create only for
   * a title longer than 255 UTF-16 units.
   */
  lemma SubmittedPostPassesServerUnlessTooLong(form: PostForm, status: PostStatus, userId: int)
    requires status != Archived && Submit(form, status).Ok?
    ensures Routers.CreatePost(userId, Submit(form, status).value).Ok? <==> Utf16Length(form.title) <= 255
  {
    var i :| 0 <= i < |form.title| && !IsSpace(form.title[i]);
    var j :| 0 <= j < |form.content| && !IsSpace(form.content[j]);
  }

  /** The publish button: "scheduled" with the scheduler open and a date set, "published" otherwise. */
  function PublishStatus(showScheduler: bool, scheduledFor: Option<int>): (s: PostStatus)
    ensures s == Scheduled <==> showScheduler && scheduledFor.Some?
    ensures s != Scheduled ==> s == Published
  {
    if showScheduler && scheduledFor.Some? then Scheduled else Published
  }

  /** The publish button never stops for a missing date. */
  lemma PublishNeverMissesDate(form: PostForm, showScheduler: bool)
    ensures Submit(form, PublishStatus(showScheduler, form.scheduledFor)) != Err(MissingDate)
  {
  }

  /** `platforms.find(p => p.id === platformId)`: the first platform with that id. */
  function FindPlatform(platforms: seq<Platform>, platformId: Option<int>): (r: Option<Platform>)
    ensures r.None? <==> platformId.None? || forall p | p in platforms :: p.id != platformId.value
    ensures r.Some? ==> r.value in platforms && Some(r.value.id) == platformId
    ensures r.Some? ==> exists i | 0 <= i < |platforms| ::
      && platforms[i] == r.value
      && forall j | 0 <= j < i :: Some(platforms[j].id) != platformId
  {
    if platformId.None? || platforms == [] then None
    else if platforms[0].id == platformId.value then
      Some(platforms[0])
    else
      var r := FindPlatform(platforms[1..], platformId);
      assert platforms == [platforms[0]] + platforms[1..];
      if r.Some? then
        var i :| && 0 <= i < |platforms[1..]| && platforms[1..][i] == r.value
                 && forall j | 0 <= j < i :: Some(platforms[1..][j].id) != platformId;
        assert platforms[i + 1] == r.value;
        assert forall j | 0 <= j < i + 1 :: Some(platforms[j].id) != platformId by {
          forall j | 0 <= j < i + 1 ensures Some(platforms[j].id) != platformId {
            if j > 0 {
              assert platforms[j] == platforms[1..][j - 1];
            }
          }
        }
        r
      else r
  }

  /** The platform slug whose posts are limited to 280 characters. */
  const ShortSlug: string := "x"

  /** characterLimit: 280 when the selected platform is X, 3000 otherwise, including with no selection. */
  function CharacterLimit(platforms: seq<Platform>, platformId: Option<int>): (limit: int)
    ensures limit == 280 <==> FindPlatform(platforms, platformId).Some? && FindPlatform(platforms, platformId).value.slug == ShortSlug
    ensures limit != 280 ==> limit == 3000
  {
    var selected := FindPlatform(platforms, platformId);
    if selected.Some? && selected.value.slug == ShortSlug then 280 else 3000
  }

  /** With no platform picked the limit is 3000, whatever the platform list. */
  lemma NoSelectionAllows3000(platforms: seq<Platform>)
    ensures CharacterLimit(platforms, None) == 3000
  {
  }

  /**
   * remainingChars: the limit less the content's length in UTF-16 units;
   * the counter turns red exactly when the content is over the limit.
   */
  function RemainingChars(limit: int, content: string): (r: int)
    ensures r + Utf16Length(content) == limit
    ensures r < 0 <==> Utf16Length(content) > limit
  {
    limit - Utf16Length(content)
  }

  /** applyTemplate: the content becomes the template, every other field stays. */
  function ApplyTemplate(form: PostForm, template: string): (r: PostForm)
    ensures r.content == template
    ensures r.(content := form.content) == form
  {
    form.(content := template)
  }

  /** Applying a second template discards the first entirely. */
  lemma LastTemplateWins(form: PostForm, t1: string, t2: string)
    ensures ApplyTemplate(ApplyTemplate(form, t1), t2) == ApplyTemplate(form, t2)
  {
  }
}
