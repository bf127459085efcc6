/**
 * An in-memory stand-in for the generated `internal/database` queries the handlers call
 * (`GetUser`, `CreateUser`, `DeleteUsers`, `GetUsers`, `CreateFeed`, `GetFeeds`).
 * The real queries run against Postgres; here the tables are sequences in insertion order,
 * and `faults` names the queries that fail with a connection-level error, so that every
 * "some other repository error" branch of the handlers can be reached.
 */
module Repository {
  import opened Wrappers

  type Uuid = nat
  type Time = int

  /** A row of the users table, fields in the order of `CreateUserParams`. */
  datatype User = User(id: Uuid, createdAt: Time, updatedAt: Time, name: string)

  /** A row of the feeds table, fields in the order of `CreateFeedParams`. */
  datatype Feed = Feed(id: Uuid, name: string, url: string, userId: Uuid)

  datatype Query = GetUserQuery | CreateUserQuery | DeleteUsersQuery | GetUsersQuery | CreateFeedQuery | GetFeedsQuery

  /** `NoRows` is `sql.ErrNoRows`; `Failure` is any other error reported by the database. */
  datatype DbError = NoRows | Failure(query: Query)

  datatype Repo = Repo(users: seq<User>, feeds: seq<Feed>, faults: set<Query>)

  /** The zero value of a Go `User`, which `GetUser` hands back together with an error. */
  const ZeroUser := User(0, 0, 0, "")

  predicate HasUser(users: seq<User>, name: string) {
    exists u :: u in users && u.name == name
  }

  predicate OwnersExist(db: Repo) {
    forall f :: f in db.feeds ==> exists u :: u in db.users && u.id == f.userId
  }

  predicate UniqueNames(db: Repo) {
    forall i, j :: 0 <= i < j < |db.users| ==> db.users[i].name != db.users[j].name
  }

  /** What the schema's constraints keep true: every feed has an owner, user names are unique. */
  predicate Valid(db: Repo) {
    OwnersExist(db) && UniqueNames(db)
  }

  /** The first user with the given name. */
  function FindUser(users: seq<User>, name: string): (r: Option<User>)
    ensures r.Some? ==> r.value in users && r.value.name == name
    ensures r.None? <==> !HasUser(users, name)
  {
    if users == [] then None
    else if users[0].name == name then Some(users[0])
    else FindUser(users[1..], name)
  }

  function GetUser(db: Repo, name: string): (r: Result<User, DbError>)
    ensures GetUserQuery in db.faults ==> r == Err(Failure(GetUserQuery))
    ensures GetUserQuery !in db.faults ==> (r == Err(NoRows) <==> !HasUser(db.users, name))
    ensures r.Ok? <==> GetUserQuery !in db.faults && HasUser(db.users, name)
    ensures r.Ok? ==> r.value in db.users && r.value.name == name
    ensures r.Err? ==> r.error == NoRows || r.error == Failure(GetUserQuery)
  {
    if GetUserQuery in db.faults then Err(Failure(GetUserQuery))
    else match FindUser(db.users, name)
      case Some(u) => Ok(u)
      case None => Err(NoRows)
  }

  function CreateUser(db: Repo, u: User): (r: Result<Repo, DbError>)
    ensures r.Ok? <==> CreateUserQuery !in db.faults
    ensures r.Ok? ==> r.value.users == db.users + [u] && r.value.feeds == db.feeds && r.value.faults == db.faults
    ensures r.Err? ==> r.error == Failure(CreateUserQuery)
  {
    if CreateUserQuery in db.faults then Err(Failure(CreateUserQuery))
    else Ok(db.(users := db.users + [u]))
  }

  /** Deleting every user also deletes every feed: assumed, a cascading foreign key from each feed to its owner. */
  function DeleteUsers(db: Repo): (r: Result<Repo, DbError>)
    ensures r.Ok? <==> DeleteUsersQuery !in db.faults
    ensures r.Ok? ==> r.value.users == [] && r.value.feeds == [] && r.value.faults == db.faults
    ensures r.Err? ==> r.error == Failure(DeleteUsersQuery)
  {
    if DeleteUsersQuery in db.faults then Err(Failure(DeleteUsersQuery))
    else Ok(Repo([], [], db.faults))
  }

  function GetUsers(db: Repo): (r: Result<seq<User>, DbError>)
    ensures r.Ok? <==> GetUsersQuery !in db.faults
    ensures r.Ok? ==> r.value == db.users
    ensures r.Err? ==> r.error == Failure(GetUsersQuery)
  {
    if GetUsersQuery in db.faults then Err(Failure(GetUsersQuery)) else Ok(db.users)
  }

  function CreateFeed(db: Repo, f: Feed): (r: Result<Repo, DbError>)
    ensures r.Ok? <==> CreateFeedQuery !in db.faults
    ensures r.Ok? ==> r.value.feeds == db.feeds + [f] && r.value.users == db.users && r.value.faults == db.faults
    ensures r.Err? ==> r.error == Failure(CreateFeedQuery)
  {
    if CreateFeedQuery in db.faults then Err(Failure(CreateFeedQuery))
    else Ok(db.(feeds := db.feeds + [f]))
  }

  function GetFeeds(db: Repo): (r: Result<seq<Feed>, DbError>)
    ensures r.Ok? <==> GetFeedsQuery !in db.faults
    ensures r.Ok? ==> r.value == db.feeds
    ensures r.Err? ==> r.error == Failure(GetFeedsQuery)
  {
    if GetFeedsQuery in db.faults then Err(Failure(GetFeedsQuery)) else Ok(db.feeds)
  }
}
