/**
 * The server procedures' own logic: the upcoming-posts query, the create
 * input rules and defaults, the id split of the update handlers, the asset
 * file key, and the dashboard counts. The database calls are the queries
 * of the Db module; what they return is taken as given.
 */
module Routers {
  import opened Wrappers
  import opened Js
  import opened Schema
  import opened Db

  // ---------------------------------------------------------------------
  // posts.getUpcoming: keep dated posts, sort by date, take ten
  // ---------------------------------------------------------------------

  /** How many posts getUpcoming returns at most. */
  const UpcomingLimit: nat := 10

  /** The sort key; every post reaching the sort has a date. */
  function When(p: Post): int {
    p.scheduledFor.GetOr(0)
  }

  predicate SortedByWhen(s: seq<Post>) {
    forall i, j | 0 <= i < j < |s| :: When(s[i]) <= When(s[j])
  }

  /** Places `p` before the first entry that is not earlier, keeping equal dates in arrival order. */
  function InsertByWhen(p: Post, s: seq<Post>): (r: seq<Post>)
    ensures multiset(r) == multiset(s) + multiset{p}
  {
    if s == [] || When(p) <= When(s[0]) then
      [p] + s
    else
      assert s == [s[0]] + s[1..];
      [s[0]] + InsertByWhen(p, s[1..])
  }

  /** Inserting into a sorted list keeps it sorted. */
  lemma {:induction false} InsertByWhenSorted(p: Post, s: seq<Post>)
    requires SortedByWhen(s)
    ensures SortedByWhen(InsertByWhen(p, s))
  {
    if s != [] && When(p) > When(s[0]) {
      var rest := InsertByWhen(p, s[1..]);
      InsertByWhenSorted(p, s[1..]);
      InsertedNoEarlier(p, s, rest);
      var r := [s[0]] + rest;
      forall i, j | 0 <= i < j < |r| ensures When(r[i]) <= When(r[j]) {
        if i > 0 {
          assert r[i] == rest[i - 1] && r[j] == rest[j - 1];
        } else {
          assert r[i] == s[0] && r[j] == rest[j - 1] && rest[j - 1] in rest;
        }
      }
    }
  }

  /** What `p` is inserted among after the head of a sorted list is no earlier than that head. */
  lemma InsertedNoEarlier(p: Post, s: seq<Post>, rest: seq<Post>)
    requires SortedByWhen(s) && s != [] && When(p) > When(s[0])
    requires multiset(rest) == multiset(s[1..]) + multiset{p}
    ensures forall x | x in rest :: When(s[0]) <= When(x)
  {
    forall x | x in rest ensures When(s[0]) <= When(x) {
      assert x in multiset(rest);
      if x != p {
        assert x in multiset(s[1..]);
        var j :| 0 <= j < |s[1..]| && s[1..][j] == x;
        assert s[j + 1] == x;
      }
    }
  }

  /** Array.prototype.sort by ascending date (stable, as ECMAScript 2019 requires). */
  function SortByWhen(s: seq<Post>): (r: seq<Post>)
    ensures SortedByWhen(r) && multiset(r) == multiset(s)
  {
    if s == [] then []
    else
      assert s == [s[0]] + s[1..];
      InsertByWhenSorted(s[0], SortByWhen(s[1..]));
      InsertByWhen(s[0], SortByWhen(s[1..]))
  }

  /** `.filter(p => p.scheduledFor)`: a Date is always truthy. */
  function Dated(s: seq<Post>): (r: seq<Post>)
    ensures forall p | p in r :: p in s && p.scheduledFor.Some?
    ensures forall p | p in s && p.scheduledFor.Some? :: p in r
    ensures multiset(r) <= multiset(s)
  {
    Filter(s, (p: Post) => p.scheduledFor.Some?)
  }

  /**
   * The filter-sort-slice chain over the scheduled posts: at most ten dated
   * posts, earliest first, and every dated post left out is no earlier
   * than any post returned.
   */
  function Upcoming(scheduled: seq<Post>): (r: seq<Post>)
    ensures |r| == Min(|Dated(scheduled)|, UpcomingLimit)
    ensures forall p | p in r :: p in scheduled && p.scheduledFor.Some?
    ensures SortedByWhen(r)
    ensures multiset(r) <= multiset(Dated(scheduled))
    ensures forall p, q | p in multiset(Dated(scheduled)) - multiset(r) && q in r :: When(q) <= When(p)
  {
    var dated := Dated(scheduled);
    var sorted := SortByWhen(dated);
    TakeEarliest(dated, sorted);
    sorted[..Min(|sorted|, UpcomingLimit)]
  }

  function Min(a: nat, b: nat): nat {
    if a < b then a else b
  }

  /** The first entries of a sorted arrangement of `d` are the earliest of `d`. */
  lemma TakeEarliest(d: seq<Post>, sorted: seq<Post>)
    requires SortedByWhen(sorted) && multiset(sorted) == multiset(d)
    ensures |sorted| == |d|
    ensures var r := sorted[..Min(|sorted|, UpcomingLimit)];
      && |r| == Min(|d|, UpcomingLimit)
      && (forall p | p in r :: p in d)
      && SortedByWhen(r)
      && multiset(r) <= multiset(d)
      && forall p, q | p in multiset(d) - multiset(r) && q in r :: When(q) <= When(p)
  {
    assert |multiset(sorted)| == |multiset(d)|;
    var k := Min(|sorted|, UpcomingLimit);
    var r := sorted[..k];
    assert sorted == r + sorted[k..];
    assert multiset(sorted) == multiset(r) + multiset(sorted[k..]);
    forall p | p in r ensures p in d {
      assert p in multiset(sorted);
    }
    forall p, q | p in multiset(d) - multiset(r) && q in r
      ensures When(q) <= When(p)
    {
      assert p in multiset(sorted[k..]);
      var i :| 0 <= i < k && r[i] == q;
      var j :| 0 <= j < |sorted| - k && sorted[k..][j] == p;
      assert sorted[i] == q && sorted[k + j] == p;
    }
  }

  /** posts.getUpcoming for a signed-in user: their scheduled, dated posts, at most ten, earliest first. */
  function GetUpcoming(db: Database, userId: int): (r: seq<Post>)
    reads db
    ensures |r| <= UpcomingLimit && SortedByWhen(r)
    ensures forall p | p in r ::
      && p in db.posts && p.status == Scheduled && p.scheduledFor.Some?
      && (userId != 0 ==> p.userId == userId)
  {
    Upcoming(db.PostsByStatus(Scheduled, userId))
  }

  // ---------------------------------------------------------------------
  // posts.create and goals.create
  // ---------------------------------------------------------------------

  /** The create input of a post, after zod's type checks. */
  datatype PostCreateInput = PostCreateInput(
    platformId: int,
    title: string,
    content: string,
    postType: Option<string>,
    status: Option<PostStatus>,
    scheduledFor: Option<int>)

  /** The row createPost inserts. */
  datatype PostInsert = PostInsert(
    userId: int,
    platformId: int,
    title: string,
    content: string,
    postType: Option<string>,
    status: PostStatus,
    scheduledFor: Option<int>)

  /** `z.string().min(1).max(255)`, lengths in UTF-16 code units. */
  predicate TitleOk(title: string) {
    1 <= Utf16Length(title) <= 255
  }

  /** The fields zod rejects, in schema order. */
  function PostIssues(input: PostCreateInput): (issues: seq<string>)
    ensures "title" in issues <==> !TitleOk(input.title)
    ensures "content" in issues <==> input.content == []
    ensures forall f | f in issues :: f == "title" || f == "content"
  {
    (if TitleOk(input.title) then [] else ["title"]) + (if input.content != [] then [] else ["content"])
  }

  /** posts.create: rejects a bad title or empty content, defaults the status to draft, inserts for the caller. */
  function CreatePost(userId: int, input: PostCreateInput): (r: Result<PostInsert, seq<string>>)
    ensures r.Ok? <==> TitleOk(input.title) && input.content != []
    ensures r.Err? ==> r.error == PostIssues(input) && r.error != []
    ensures r.Ok? ==>
      && r.value.userId == userId && r.value.title == input.title && r.value.content == input.content
      && r.value.platformId == input.platformId && r.value.postType == input.postType
      && r.value.scheduledFor == input.scheduledFor
      && r.value.status == (if input.status.Some? then input.status.value else Draft)
  {
    var issues := PostIssues(input);
    if issues != [] then Err(issues)
    else
      assert "title" !in issues && "content" !in issues;
      Ok(PostInsert(userId, input.platformId, input.title, input.content, input.postType,
                    input.status.GetOr(Draft), input.scheduledFor))
  }

  /** The create input of a goal; zod strips any other key, status and currentValue included. */
  datatype GoalCreateInput = GoalCreateInput(
    title: string,
    description: Option<string>,
    specific: Option<string>,
    measurable: Option<string>,
    achievable: Option<string>,
    relevant: Option<string>,
    timeBound: Option<string>,
    targetValue: Option<int>,
    metricType: Option<string>,
    startDate: int,
    endDate: int)

  /** The row createGoal inserts. */
  datatype GoalInsert = GoalInsert(
    userId: int,
    title: string,
    description: Option<string>,
    specific: Option<string>,
    measurable: Option<string>,
    achievable: Option<string>,
    relevant: Option<string>,
    timeBound: Option<string>,
    targetValue: Option<int>,
    currentValue: int,
    metricType: Option<string>,
    status: GoalStatus,
    startDate: int,
    endDate: int)

  /** goals.create: only the title is checked; every new goal starts active with progress 0. */
  function CreateGoal(userId: int, input: GoalCreateInput): (r: Result<GoalInsert, seq<string>>)
    ensures r.Ok? <==> TitleOk(input.title)
    ensures r.Err? ==> r.error == ["title"]
    ensures r.Ok? ==> r.value.currentValue == 0 && r.value.status == Active && r.value.userId == userId
    ensures r.Ok? ==> r.value.title == input.title && r.value.targetValue == input.targetValue
    ensures r.Ok? ==> r.value.startDate == input.startDate && r.value.endDate == input.endDate
  {
    if !TitleOk(input.title) then Err(["title"])
    else
      Ok(GoalInsert(userId, input.title, input.description, input.specific, input.measurable,
                    input.achievable, input.relevant, input.timeBound, input.targetValue, 0,
                    input.metricType, Active, input.startDate, input.endDate))
  }

  /** `Number(result[0]?.insertId || 0)`: the new row's id, or 0 when there is none. */
  function InsertedId(insertId: Option<int>): (id: int)
    ensures id == 0 <==> insertId.None? || insertId.value == 0
    ensures id != 0 ==> insertId == Some(id)
  {
    OrInt(insertId, 0)
  }

  // ---------------------------------------------------------------------
  // The update handlers: `const { id, ...updates } = input`
  // ---------------------------------------------------------------------

  /** The keys posts.update accepts; zod drops every other key. */
  const PostUpdateKeys: set<string> := {"id", "title", "content", "postType", "status", "scheduledFor"}

  /** The keys goals.update accepts. */
  const GoalUpdateKeys: set<string> :=
    {"id", "title", "description", "specific", "measurable", "achievable", "relevant", "timeBound",
     "targetValue", "currentValue", "metricType", "status", "startDate", "endDate"}

  /** The id and the remaining accepted fields of an update input. */
  function SplitUpdate<V>(input: map<string, V>, accepted: set<string>): (r: (V, map<string, V>))
    requires "id" in input
    ensures r.0 == input["id"]
    ensures "id" !in r.1
    ensures forall k | k in r.1 :: k in input && k in accepted && r.1[k] == input[k]
    ensures forall k | k in input && k in accepted && k != "id" :: k in r.1
  {
    (input["id"], map k | k in input && k in accepted && k != "id" :: input[k])
  }

  /** The id and the updates together give back the accepted part of the input. */
  lemma SplitUpdateRejoins<V>(input: map<string, V>, accepted: set<string>)
    requires "id" in input && "id" in accepted
    ensures var (id, updates) := SplitUpdate(input, accepted);
      updates["id" := id] == map k | k in input && k in accepted :: input[k]
  {
    var (id, updates) := SplitUpdate(input, accepted);
    var whole := map k | k in input && k in accepted :: input[k];
    assert updates["id" := id].Keys == whole.Keys;
  }

  // ---------------------------------------------------------------------
  // assets.upload: the storage key
  // ---------------------------------------------------------------------

  /** `mimeType.split('/')[1] || 'bin'` */
  function Extension(mimeType: string): (ext: string)
    ensures ext != [] && '/' !in ext
  {
    var parts := Split(mimeType, '/');
    if |parts| > 1 && parts[1] != [] then parts[1] else "bin"
  }

  /** `cms-assets/${userId}/${nanoid()}.${extension}`, the random id given. */
  function FileKey(userId: nat, randomId: string, mimeType: string): string {
    "cms-assets/" + NatToString(userId) + "/" + randomId + "." + Extension(mimeType)
  }

  /** A "type/subtype" mime type gives its subtype. */
  lemma ExtensionOfSubtype(t: string, sub: string)
    requires '/' !in t && '/' !in sub && sub != []
    ensures Extension(t + "/" + sub) == sub
  {
    SplitCons(t, '/', sub);
    SplitNoSeparator(sub, '/');
  }

  /** A mime type without a slash, or with nothing after the first slash, gives "bin". */
  lemma ExtensionFallsBackToBin(t: string, rest: string)
    requires '/' !in t
    ensures Extension(t) == "bin"
    ensures Extension(t + "/") == "bin"
    ensures Extension(t + "/" + "/" + rest) == "bin"
  {
    assert Extension(t) == "bin" by {
      SplitNoSeparator(t, '/');
    }
    assert Extension(t + "/") == "bin" by {
      SplitCons(t, '/', []);
      assert t + "/" == t + ['/'] + [];
    }
    assert Split(t + "/" + "/" + rest, '/')[1] == [] by {
      SplitCons(t, '/', "/" + rest);
      SplitCons([], '/', rest);
      assert t + "/" + "/" + rest == t + ['/'] + ("/" + rest);
      assert "/" + rest == [] + ['/'] + rest;
    }
  }

  /**
   * The key has three slash-separated segments: the fixed prefix, the
   * uploader's id, and the file name; the id reads back with parseInt, so
   * uploads of different users never share a key.
   */
  lemma FileKeySegments(userId: nat, randomId: string, mimeType: string)
    requires '/' !in randomId
    ensures var segments := Split(FileKey(userId, randomId, mimeType), '/');
      && segments == ["cms-assets", NatToString(userId), randomId + "." + Extension(mimeType)]
      && ParseInt(segments[1]) == Some(userId)
  {
    var n := NatToString(userId);
    var file := randomId + "." + Extension(mimeType);
    assert '/' !in n by {
      assert forall i | 0 <= i < |n| :: IsDigit(n[i]);
    }
    assert '/' !in file;
    assert FileKey(userId, randomId, mimeType) == "cms-assets" + ['/'] + (n + ['/'] + file);
    SplitCons("cms-assets", '/', n + ['/'] + file);
    SplitCons(n, '/', file);
    SplitNoSeparator(file, '/');
    ParseIntOfNatToString(userId);
  }

  /** Different uploaders get different keys. */
  lemma FileKeysOfDifferentUsersDiffer(u1: nat, u2: nat, id1: string, id2: string, m1: string, m2: string)
    requires '/' !in id1 && '/' !in id2 && u1 != u2
    ensures FileKey(u1, id1, m1) != FileKey(u2, id2, m2)
  {
    FileKeySegments(u1, id1, m1);
    FileKeySegments(u2, id2, m2);
  }

  // ---------------------------------------------------------------------
  // dashboard.stats
  // ---------------------------------------------------------------------

  datatype Stats = Stats(totalFollowers: int, engagementRate: real, postsScheduled: nat, mentions: int)

  /** How many posts have the status, counted one by one. */
  function CountStatus(ps: seq<Post>, status: PostStatus): nat {
    if ps == [] then 0 else (if ps[0].status == status then 1 else 0) + CountStatus(ps[1..], status)
  }

  lemma {:induction false} FilterCountsStatus(ps: seq<Post>, status: PostStatus)
    ensures |Filter(ps, (p: Post) => p.status == status)| == CountStatus(ps, status)
  {
    if ps != [] {
      FilterCountsStatus(ps[1..], status);
    }
  }

  /** dashboard.stats: the scheduled count is real, the other three figures are fixed placeholders. */
  function DashboardStats(allPosts: seq<Post>): (r: Stats)
    ensures r.postsScheduled == CountStatus(allPosts, Scheduled)
    ensures r.postsScheduled <= |allPosts|
  {
    FilterCountsStatus(allPosts, Scheduled);
    Stats(12450, 5.2, |Filter(allPosts, (p: Post) => p.status == Scheduled)|, 45)
  }
}
