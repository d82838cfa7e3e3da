/**
 * The rows of the CMS tables that the modelled code reads and writes.
 * Timestamps are milliseconds since the epoch; a nullable column is an
 * Option.
 */
module Schema {
  import opened Wrappers

  datatype PostStatus = Draft | Scheduled | Published | Archived

  datatype GoalStatus = Active | Completed | Paused | Cancelled

  datatype Post = Post(
    id: int,
    userId: int,
    platformId: int,
    title: string,
    content: string,
    postType: Option<string>,
    status: PostStatus,
    scheduledFor: Option<int>)

  datatype Asset = Asset(id: int, userId: int, name: string, fileKey: string)

  /** A row of the many-to-many link between posts and assets. */
  datatype PostAsset = PostAsset(id: int, postId: int, assetId: int)

  /** A social platform; `isActive` is 1 for active, 0 for inactive. */
  datatype Platform = Platform(id: int, name: string, slug: string, isActive: int)

  datatype Goal = Goal(
    id: int,
    title: string,
    description: Option<string>,
    specific: Option<string>,
    measurable: Option<string>,
    achievable: Option<string>,
    relevant: Option<string>,
    timeBound: Option<string>,
    targetValue: Option<int>,
    currentValue: Option<int>,
    metricType: Option<string>,
    status: GoalStatus,
    startDate: int,
    endDate: int)
}
