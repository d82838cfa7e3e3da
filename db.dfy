/**
 * The database layer: the record building of the user upsert, and the
 * tables of posts, assets, their links and platforms held as in-memory
 * sequences, with the queries and the cascading deletes the server uses.
 */
module Db {
  import opened Wrappers
  import opened Js
  import opened Schema

  // ---------------------------------------------------------------------
  // upsertUser
  // ---------------------------------------------------------------------

  /** A field of the insert object: absent (undefined), null, or a value. */
  datatype Nullable<T> = Undefined | Null | Given(value: T)

  datatype Role = User | Admin

  /** The insert object the OAuth callback passes in. */
  datatype InsertUser = InsertUser(
    openId: Nullable<string>,
    name: Nullable<string>,
    email: Nullable<string>,
    loginMethod: Nullable<string>,
    lastSignedIn: Option<int>,
    role: Option<Role>)

  /** A column value written by the upsert. */
  datatype Cell = Id(openId: string) | Text(text: Option<string>) | Time(at: int) | RoleCell(role: Role)

  /** What upsertUser does: throw, skip with a warning, or insert `values` and update `updateSet` on a duplicate key. */
  datatype Upsert =
    | MissingOpenId
    | NoDatabase
    | Write(values: map<string, Cell>, updateSet: map<string, Cell>)

  /** The nullable text columns, copied in this order. */
  const TextFields: seq<string> := ["name", "email", "loginMethod"]

  function TextField(user: InsertUser, f: string): Nullable<string> {
    if f == "name" then user.name else if f == "email" then user.email else user.loginMethod
  }

  /** `value ?? null` for a value that is not undefined. */
  function Normalized(v: Nullable<string>): Cell {
    Text(if v.Given? then Some(v.value) else None)
  }

  predicate HasOpenId(user: InsertUser) {
    user.openId.Given? && user.openId.value != []
  }

  /**
   * upsertUser with the database reachable or not (`connected`), the owner's
   * openId from the environment and the clock reading `now`.
   */
  method UpsertUser(user: InsertUser, connected: bool, ownerOpenId: string, now: int) returns (r: Upsert)
    ensures r.MissingOpenId? <==> !HasOpenId(user)
    ensures r.NoDatabase? <==> HasOpenId(user) && !connected
    ensures r.Write? ==>
      && "openId" in r.values && r.values["openId"] == Id(user.openId.value)
      && "openId" !in r.updateSet
      && (forall k | k in r.values :: k == "openId" || k in TextFields || k == "lastSignedIn" || k == "role")
      && (forall k | k in r.updateSet :: k in TextFields || k == "lastSignedIn" || k == "role")
    ensures r.Write? ==> forall f | f in TextFields ::
      && (TextField(user, f).Undefined? ==> f !in r.values && f !in r.updateSet)
      && (!TextField(user, f).Undefined? ==>
            f in r.values && f in r.updateSet && r.values[f] == r.updateSet[f] == Normalized(TextField(user, f)))
    ensures r.Write? && user.role.Some? ==>
      "role" in r.values && "role" in r.updateSet && r.values["role"] == r.updateSet["role"] == RoleCell(user.role.value)
    ensures r.Write? && user.role.None? && user.openId.value == ownerOpenId ==>
      "role" in r.values && "role" in r.updateSet && r.values["role"] == r.updateSet["role"] == RoleCell(Admin)
    ensures r.Write? && user.role.None? && user.openId.value != ownerOpenId ==>
      "role" !in r.values && "role" !in r.updateSet
    ensures r.Write? ==> "lastSignedIn" in r.values && r.values["lastSignedIn"] == Time(user.lastSignedIn.GetOr(now))
    ensures r.Write? ==> r.updateSet != map[]
    ensures r.Write? && user.lastSignedIn.Some? ==>
      "lastSignedIn" in r.updateSet && r.updateSet["lastSignedIn"] == Time(user.lastSignedIn.value)
    ensures r.Write? && user.lastSignedIn.None? && "lastSignedIn" in r.updateSet ==>
      r.updateSet == map["lastSignedIn" := Time(now)]
  {
    if !HasOpenId(user) {
      return MissingOpenId;
    }
    if !connected {
      return NoDatabase;
    }
    var values, updateSet := CopyTextFields(user, map["openId" := Id(user.openId.value)]);
    assert "lastSignedIn" !in TextFields && "role" !in TextFields && "openId" !in TextFields;
    values, updateSet := StampSignIn(user, ownerOpenId, now, values, updateSet);
    r := Write(values, updateSet);
  }

  /**
   * The rest of the upsert after the text fields: lastSignedIn, the role
   * (the owner becomes admin), then the fallbacks that always set
   * lastSignedIn and never leave the update set empty.
   */
  method StampSignIn(user: InsertUser, ownerOpenId: string, now: int, values0: map<string, Cell>, updateSet0: map<string, Cell>)
    returns (values: map<string, Cell>, updateSet: map<string, Cell>)
    requires user.openId.Given?
    requires "lastSignedIn" !in values0 && "role" !in values0
    requires "lastSignedIn" !in updateSet0 && "role" !in updateSet0
    ensures forall k | k in values :: k in values0 || k == "lastSignedIn" || k == "role"
    ensures forall k | k in values0 :: k in values && values[k] == values0[k]
    ensures forall k | k in updateSet :: k in updateSet0 || k == "lastSignedIn" || k == "role"
    ensures forall k | k in updateSet0 :: k in updateSet && updateSet[k] == updateSet0[k]
    ensures user.role.Some? ==>
      "role" in values && "role" in updateSet && values["role"] == updateSet["role"] == RoleCell(user.role.value)
    ensures user.role.None? && user.openId.value == ownerOpenId ==>
      "role" in values && "role" in updateSet && values["role"] == updateSet["role"] == RoleCell(Admin)
    ensures user.role.None? && user.openId.value != ownerOpenId ==>
      "role" !in values && "role" !in updateSet
    ensures "lastSignedIn" in values && values["lastSignedIn"] == Time(user.lastSignedIn.GetOr(now))
    ensures updateSet != map[]
    ensures user.lastSignedIn.Some? ==>
      "lastSignedIn" in updateSet && updateSet["lastSignedIn"] == Time(user.lastSignedIn.value)
    ensures user.lastSignedIn.None? && "lastSignedIn" in updateSet ==>
      updateSet0 == map[] && updateSet == map["lastSignedIn" := Time(now)]
  {
    values, updateSet := values0, updateSet0;
    if user.lastSignedIn.Some? {
      values := values["lastSignedIn" := Time(user.lastSignedIn.value)];
      updateSet := updateSet["lastSignedIn" := Time(user.lastSignedIn.value)];
    }
    if user.role.Some? {
      values := values["role" := RoleCell(user.role.value)];
      updateSet := updateSet["role" := RoleCell(user.role.value)];
    } else if user.openId.value == ownerOpenId {
      values := values["role" := RoleCell(Admin)];
      updateSet := updateSet["role" := RoleCell(Admin)];
    }
    if "lastSignedIn" !in values {
      values := values["lastSignedIn" := Time(now)];
    }
    if |updateSet| == 0 {
      updateSet := updateSet["lastSignedIn" := Time(now)];
    }
  }

  /**
   * `textFields.forEach(assignNullable)`: each of name, email and loginMethod
   * that is not undefined goes into both records, null included.
   */
  method CopyTextFields(user: InsertUser, values0: map<string, Cell>)
    returns (values: map<string, Cell>, updateSet: map<string, Cell>)
    ensures forall k | k in values :: k in TextFields || (k in values0 && values[k] == values0[k])
    ensures forall k | k in values0 && k !in TextFields :: k in values && values[k] == values0[k]
    ensures forall k | k in updateSet :: k in TextFields
    ensures forall f | f in TextFields ::
      && (TextField(user, f).Undefined? ==> (f in values <==> f in values0) && f !in updateSet)
      && (!TextField(user, f).Undefined? ==>
            f in values && f in updateSet && values[f] == updateSet[f] == Normalized(TextField(user, f)))
  {
    values, updateSet := values0, map[];
    for i := 0 to |TextFields|
      invariant forall k | k in values :: k in TextFields[..i] || (k in values0 && values[k] == values0[k])
      invariant forall k | k in values0 && k !in TextFields[..i] :: k in values && values[k] == values0[k]
      invariant forall k | k in updateSet :: k in TextFields[..i]
      invariant forall j | 0 <= j < i ::
        && (TextField(user, TextFields[j]).Undefined? ==>
              (TextFields[j] in values <==> TextFields[j] in values0) && TextFields[j] !in updateSet)
        && (!TextField(user, TextFields[j]).Undefined? ==>
              && TextFields[j] in values && TextFields[j] in updateSet
              && values[TextFields[j]] == updateSet[TextFields[j]] == Normalized(TextField(user, TextFields[j])))
    {
      var f := TextFields[i];
      var v := TextField(user, f);
      if !v.Undefined? {
        values := values[f := Normalized(v)];
        updateSet := updateSet[f := Normalized(v)];
      }
      assert TextFields[..i + 1] == TextFields[..i] + [f];
    }
    assert TextFields[..|TextFields|] == TextFields;
  }

  /**
   * A sign-in that carries nothing but the openId of a user who is not the
   * owner still refreshes lastSignedIn on a duplicate key.
   */
  method BareSignIn(openId: string, ownerOpenId: string, now: int) returns (r: Upsert)
    requires openId != [] && openId != ownerOpenId
    ensures r == Write(map["openId" := Id(openId), "lastSignedIn" := Time(now)], map["lastSignedIn" := Time(now)])
  {
    r := UpsertUser(InsertUser(Given(openId), Undefined, Undefined, Undefined, None, None), true, ownerOpenId, now);
    assert "name" in TextFields && "email" in TextFields && "loginMethod" in TextFields;
    assert r.values.Keys == {"openId", "lastSignedIn"};
    assert r.updateSet.Keys == {"lastSignedIn"};
  }

  // ---------------------------------------------------------------------
  // Queries over the tables
  // ---------------------------------------------------------------------

  /** The rows of platforms whose isActive is 1. */
  function ActiveOnly(ps: seq<Platform>): (r: seq<Platform>)
    ensures forall p | p in r :: p in ps && p.isActive == 1
    ensures forall p | p in ps && p.isActive == 1 :: p in r
  {
    Filter(ps, (p: Platform) => p.isActive == 1)
  }

  /** `if (userId)`: a user id of 0 selects every user's rows. */
  function PostsOf(table: seq<Post>, userId: int): (r: seq<Post>)
    ensures userId != 0 ==> forall p | p in r :: p.userId == userId
    ensures forall p | p in table && (userId == 0 || p.userId == userId) :: p in r
    ensures forall p | p in r :: p in table
  {
    if userId != 0 then Filter(table, (p: Post) => p.userId == userId) else table
  }

  /** getPostsByStatus, ordering aside. */
  function PostsWithStatus(table: seq<Post>, status: PostStatus, userId: int): (r: seq<Post>)
    ensures forall p | p in r :: p in table && p.status == status && (userId != 0 ==> p.userId == userId)
    ensures forall p | p in table && p.status == status && (userId == 0 || p.userId == userId) :: p in r
  {
    Filter(PostsOf(table, userId), (p: Post) => p.status == status)
  }

  // ---------------------------------------------------------------------
  // Referential integrity of the post-asset links
  // ---------------------------------------------------------------------

  function PostIds(posts: seq<Post>): set<int> {
    set p | p in posts :: p.id
  }

  function AssetIds(assets: seq<Asset>): set<int> {
    set a | a in assets :: a.id
  }

  /** Every link names an existing post and an existing asset. */
  predicate Resolves(posts: seq<Post>, assets: seq<Asset>, links: seq<PostAsset>) {
    forall l | l in links :: l.postId in PostIds(posts) && l.assetId in AssetIds(assets)
  }

  function WithoutPost(posts: seq<Post>, id: int): (r: seq<Post>)
    ensures forall p | p in r :: p in posts && p.id != id
    ensures forall p | p in posts && p.id != id :: p in r
  {
    Filter(posts, (p: Post) => p.id != id)
  }

  function WithoutAsset(assets: seq<Asset>, id: int): (r: seq<Asset>)
    ensures forall a | a in r :: a in assets && a.id != id
    ensures forall a | a in assets && a.id != id :: a in r
  {
    Filter(assets, (a: Asset) => a.id != id)
  }

  function LinksNotToPost(links: seq<PostAsset>, postId: int): (r: seq<PostAsset>)
    ensures forall l | l in r :: l in links && l.postId != postId
    ensures forall l | l in links && l.postId != postId :: l in r
  {
    Filter(links, (l: PostAsset) => l.postId != postId)
  }

  function LinksNotToAsset(links: seq<PostAsset>, assetId: int): (r: seq<PostAsset>)
    ensures forall l | l in r :: l in links && l.assetId != assetId
    ensures forall l | l in links && l.assetId != assetId :: l in r
  {
    Filter(links, (l: PostAsset) => l.assetId != assetId)
  }

  /** Dropping links keeps the remaining ones resolved. */
  lemma FewerLinksResolve(posts: seq<Post>, assets: seq<Asset>, links: seq<PostAsset>, fewer: seq<PostAsset>)
    requires Resolves(posts, assets, links)
    requires forall l | l in fewer :: l in links
    ensures Resolves(posts, assets, fewer)
  {
  }

  /** Removing a post no link names keeps the links resolved. */
  lemma UnlinkedPostRemovalResolves(posts: seq<Post>, assets: seq<Asset>, links: seq<PostAsset>, id: int)
    requires Resolves(posts, assets, links)
    requires forall l | l in links :: l.postId != id
    ensures Resolves(WithoutPost(posts, id), assets, links)
  {
    forall l | l in links
      ensures l.postId in PostIds(WithoutPost(posts, id))
    {
      var p :| p in posts && p.id == l.postId;
      assert p in WithoutPost(posts, id);
    }
  }

  /** Removing an asset no link names keeps the links resolved. */
  lemma UnlinkedAssetRemovalResolves(posts: seq<Post>, assets: seq<Asset>, links: seq<PostAsset>, id: int)
    requires Resolves(posts, assets, links)
    requires forall l | l in links :: l.assetId != id
    ensures Resolves(posts, WithoutAsset(assets, id), links)
  {
    forall l | l in links
      ensures l.assetId in AssetIds(WithoutAsset(assets, id))
    {
      var a :| a in assets && a.id == l.assetId;
      assert a in WithoutAsset(assets, id);
    }
  }

  /**
   * The other order would not do: removing a linked post before its links
   * leaves a link to a post that no longer exists.
   */
  lemma PostFirstLeavesDanglingLink(posts: seq<Post>, assets: seq<Asset>, links: seq<PostAsset>, l: PostAsset)
    requires l in links
    ensures !Resolves(WithoutPost(posts, l.postId), assets, links)
  {
    assert l.postId !in PostIds(WithoutPost(posts, l.postId));
  }

  /** The database, its tables held in memory; `connected` is whether getDb found one. */
  class Database {
    const connected: bool
    var posts: seq<Post>
    var assets: seq<Asset>
    var postAssets: seq<PostAsset>
    var platforms: seq<Platform>

    constructor (connected: bool, posts: seq<Post>, assets: seq<Asset>, postAssets: seq<PostAsset>, platforms: seq<Platform>)
      ensures this.connected == connected && this.posts == posts && this.assets == assets
      ensures this.postAssets == postAssets && this.platforms == platforms
    {
      this.connected := connected;
      this.posts, this.assets, this.postAssets, this.platforms := posts, assets, postAssets, platforms;
    }

    predicate LinksResolve()
      reads this
    {
      Resolves(posts, assets, postAssets)
    }

    /** getAllPlatforms: nothing without a database, otherwise the active rows. */
    function AllPlatforms(): (r: seq<Platform>)
      reads this
      ensures !connected ==> r == []
      ensures connected ==> forall p :: p in r <==> p in platforms && p.isActive == 1
    {
      if connected then ActiveOnly(platforms) else []
    }

    /** getAllPosts, ordering aside. */
    function AllPosts(userId: int): (r: seq<Post>)
      reads this
      ensures !connected ==> r == []
      ensures connected ==> forall p :: p in r <==> p in posts && (userId == 0 || p.userId == userId)
    {
      if connected then PostsOf(posts, userId) else []
    }

    /** getPostsByStatus, ordering aside. */
    function PostsByStatus(status: PostStatus, userId: int): (r: seq<Post>)
      reads this
      ensures !connected ==> r == []
      ensures connected ==> forall p :: p in r <==> p in posts && p.status == status && (userId == 0 || p.userId == userId)
    {
      if connected then PostsWithStatus(posts, status, userId) else []
    }

    /**
     * deletePost: throws without a database; otherwise removes the post's
     * links, then the post. Links stay resolved after each of the two steps.
     */
    method DeletePost(id: int) returns (ok: bool)
      modifies this`posts, this`postAssets
      ensures ok == connected
      ensures !connected ==> posts == old(posts) && postAssets == old(postAssets)
      ensures connected ==> postAssets == LinksNotToPost(old(postAssets), id) && posts == WithoutPost(old(posts), id)
      ensures old(LinksResolve()) ==> LinksResolve()
    {
      if !connected {
        return false;
      }
      ghost var resolved := LinksResolve();
      postAssets := LinksNotToPost(postAssets, id);
      if resolved {
        FewerLinksResolve(posts, assets, old(postAssets), postAssets);
        assert LinksResolve();
        UnlinkedPostRemovalResolves(posts, assets, postAssets, id);
      }
      posts := WithoutPost(posts, id);
      ok := true;
    }

    /** deleteAsset: the same cascade for an asset. */
    method DeleteAsset(id: int) returns (ok: bool)
      modifies this`assets, this`postAssets
      ensures ok == connected
      ensures !connected ==> assets == old(assets) && postAssets == old(postAssets)
      ensures connected ==> postAssets == LinksNotToAsset(old(postAssets), id) && assets == WithoutAsset(old(assets), id)
      ensures old(LinksResolve()) ==> LinksResolve()
    {
      if !connected {
        return false;
      }
      ghost var resolved := LinksResolve();
      postAssets := LinksNotToAsset(postAssets, id);
      if resolved {
        FewerLinksResolve(posts, assets, old(postAssets), postAssets);
        assert LinksResolve();
        UnlinkedAssetRemovalResolves(posts, assets, postAssets, id);
      }
      assets := WithoutAsset(assets, id);
      ok := true;
    }
  }
}
