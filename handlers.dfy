/**
 * The command handlers of `main.go`.  Each handler is specified twice over: a function
 * `...Step` giving the new application state and the outcome as a function of the old state,
 * the arguments and the environment, whose `ensures` state the behaviour the handler promises;
 * and a method `Handler...` that works step by step on the shared `State` object, proved to
 * agree with that function.
 */
module Handlers {
  import opened Wrappers
  import opened Repository
  import opened Rss

  datatype Command = Command(name: string, args: seq<string>)

  /** The persisted configuration; `currentUserName` is what `SetUser` writes. */
  datatype Config = Config(dbUrl: string, currentUserName: string)

  /** The values the handlers draw from the runtime: `uuid.New()`, two `time.Now()` readings, the network, `html.UnescapeString`. */
  datatype Env = Env(newId: Uuid, createdAt: Time, updatedAt: Time, network: string -> Response, unescape: string -> string)

  /** Errors a handler returns (as opposed to those it dies on). */
  datatype Error = UsernameNotProvided | CommandNotFound | Db(dbError: DbError) | Fetch(fetchError: FetchError)

  /**
   * `Failed(e)` is a returned non-nil error, `Fatal` a `log.Fatal` (message to stderr, exit 1),
   * `Exit(code)` a direct `os.Exit(code)`.
   */
  datatype Outcome = Done | Failed(error: Error) | Fatal(message: string) | Exit(code: int)

  /** What the handlers print with `fmt.Println`, one value per line. */
  datatype Line =
    | UserCreated(user: User)
    | CurrentUserSet(name: string)
    | UsersReset
    | NoUsersFound
    | UserEntry(name: string, current: bool)
    | FeedCreated(feed: Feed)
    | FeedCreateFailed(dbError: DbError)
    | FeedEntry(feed: Feed)
    | ChannelDump(channel: Channel)
    | FetchFailed(fetchError: FetchError)
    | ErrorLine(error: Error)
    | NoArgumentsProvided

  datatype AppState = AppState(db: Repo, cfg: Config, out: seq<Line>)

  datatype Step = Step(st: AppState, outcome: Outcome)

  /** The feed URL `handlerAgg` fetches. */
  const AggFeedUrl := "https://www.wagslane.dev/index.xml"

  /* ---------- what the list handlers print ---------- */

  function UserLine(u: User, current: string): Line {
    UserEntry(u.name, u.name == current)
  }

  function UserLines(users: seq<User>, current: string): seq<Line> {
    if users == [] then [] else UserLines(users[..|users| - 1], current) + [UserLine(users[|users| - 1], current)]
  }

  /** One line per user, in order, marked current exactly when the name is the current user's. */
  lemma {:induction false} UserLinesAt(users: seq<User>, current: string, k: nat)
    requires k < |users|
    ensures |UserLines(users, current)| == |users|
    ensures UserLines(users, current)[k] == UserEntry(users[k].name, users[k].name == current)
  {
    var n := |users|;
    UserLinesLength(users[..n - 1], current);
    if k < n - 1 {
      UserLinesAt(users[..n - 1], current, k);
    }
  }

  lemma {:induction false} UserLinesLength(users: seq<User>, current: string)
    ensures |UserLines(users, current)| == |users|
  {
    if users != [] {
      UserLinesLength(users[..|users| - 1], current);
    }
  }

  function FeedLines(feeds: seq<Feed>): seq<Line> {
    if feeds == [] then [] else FeedLines(feeds[..|feeds| - 1]) + [FeedEntry(feeds[|feeds| - 1])]
  }

  /** One line per feed, the feed itself, in repository order. */
  lemma {:induction false} FeedLinesAt(feeds: seq<Feed>, k: nat)
    requires k < |feeds|
    ensures |FeedLines(feeds)| == |feeds|
    ensures FeedLines(feeds)[k] == FeedEntry(feeds[k])
  {
    var n := |feeds|;
    FeedLinesLength(feeds[..n - 1]);
    if k < n - 1 {
      FeedLinesAt(feeds[..n - 1], k);
    }
  }

  lemma {:induction false} FeedLinesLength(feeds: seq<Feed>)
    ensures |FeedLines(feeds)| == |feeds|
  {
    if feeds != [] {
      FeedLinesLength(feeds[..|feeds| - 1]);
    }
  }

  /* ---------- the handlers as functions of the state ---------- */

  function NewUser(name: string, env: Env): User {
    User(env.newId, env.createdAt, env.updatedAt, name)
  }

  function RegisterStep(st: AppState, args: seq<string>, env: Env): (t: Step)
    ensures |args| == 0 ==> t == Step(st, Failed(UsernameNotProvided))
    ensures |args| > 0 && HasUser(st.db.users, args[0]) ==> t.outcome.Fatal? && t.st == st
    ensures t.outcome == Done <==>
      |args| > 0 && !HasUser(st.db.users, args[0]) &&
      GetUserQuery !in st.db.faults && CreateUserQuery !in st.db.faults
    ensures t.outcome == Done ==>
      t.st.db == st.db.(users := st.db.users + [NewUser(args[0], env)]) &&
      t.st.cfg == st.cfg.(currentUserName := args[0]) &&
      t.st.out == st.out + [UserCreated(NewUser(args[0], env))]
    ensures t.outcome != Done ==> t.st == st
    ensures |args| > 0 && t.outcome != Done ==> t.outcome.Fatal?
    ensures Valid(st.db) ==> Valid(t.st.db)
  {
    if |args| == 0 then Step(st, Failed(UsernameNotProvided))
    else match GetUser(st.db, args[0])
      case Ok(existing) => Step(st, Fatal("user already exists"))
      case Err(NoRows) =>
        (var u := NewUser(args[0], env);
         match CreateUser(st.db, u)
         case Err(_) => Step(st, Fatal("failed to create user:"))
         case Ok(db) => Step(AppState(db, st.cfg.(currentUserName := u.name), st.out + [UserCreated(u)]), Done))
      case Err(_) => Step(st, Fatal("error checking user"))
  }

  function LoginStep(st: AppState, args: seq<string>, env: Env): (t: Step)
    ensures |args| == 0 ==> t == Step(st, Failed(UsernameNotProvided))
    ensures |args| > 0 && GetUserQuery !in st.db.faults && !HasUser(st.db.users, args[0]) ==>
      t.outcome.Fatal? && t.st == st
    ensures |args| > 0 && GetUserQuery !in st.db.faults && HasUser(st.db.users, args[0]) ==>
      t.outcome == Done && t.st.cfg.currentUserName == args[0]
    ensures |args| > 0 && GetUserQuery in st.db.faults ==> t.outcome == Done && t.st.cfg.currentUserName == ""
    ensures t.outcome == Done ==>
      t.st == st.(cfg := st.cfg.(currentUserName := t.st.cfg.currentUserName),
                  out := st.out + [CurrentUserSet(t.st.cfg.currentUserName)])
    ensures t.st.db == st.db
  {
    if |args| == 0 then Step(st, Failed(UsernameNotProvided))
    else
      var r := GetUser(st.db, args[0]);
      if r == Err(NoRows) then Step(st, Fatal("user does not exist, please register"))
      else
        // on any other error Go goes on with the zero-valued user, whose name is ""
        var user := if r.Ok? then r.value else ZeroUser;
        Step(st.(cfg := st.cfg.(currentUserName := user.name), out := st.out + [CurrentUserSet(user.name)]), Done)
  }

  function ResetStep(st: AppState, args: seq<string>, env: Env): (t: Step)
    ensures t.outcome.Fatal? <==> DeleteUsersQuery in st.db.faults
    ensures t.outcome.Fatal? || t.outcome == Done
    ensures t.outcome.Fatal? ==> t.st == st
    ensures t.outcome == Done ==>
      t.st.db.users == [] && t.st.db.feeds == [] && t.st.db.faults == st.db.faults &&
      t.st.cfg == st.cfg && t.st.out == st.out + [UsersReset]
    ensures Valid(t.st.db) || t.st == st
  {
    match DeleteUsers(st.db)
    case Err(_) => Step(st, Fatal("error deleting users"))
    case Ok(db) => Step(st.(db := db, out := st.out + [UsersReset]), Done)
  }

  function UsersStep(st: AppState, args: seq<string>, env: Env): (t: Step)
    ensures GetUsersQuery in st.db.faults ==> t.outcome.Fatal? && t.st == st
    ensures GetUsersQuery !in st.db.faults && |st.db.users| == 0 ==>
      t.outcome == Exit(1) && t.st == st.(out := st.out + [NoUsersFound])
    ensures GetUsersQuery !in st.db.faults && |st.db.users| > 0 ==>
      t.outcome == Done && t.st.db == st.db && t.st.cfg == st.cfg &&
      |t.st.out| == |st.out| + |st.db.users| && t.st.out[..|st.out|] == st.out &&
      forall k :: 0 <= k < |st.db.users| ==>
        t.st.out[|st.out| + k] == UserEntry(st.db.users[k].name, st.db.users[k].name == st.cfg.currentUserName)
  {
    match GetUsers(st.db)
    case Err(_) => Step(st, Fatal("error getting users"))
    case Ok(users) =>
      if |users| == 0 then Step(st.(out := st.out + [NoUsersFound]), Exit(1))
      else
        var lines := UserLines(users, st.cfg.currentUserName);
        UserLinesLength(users, st.cfg.currentUserName);
        assert forall k :: 0 <= k < |users| ==> lines[k] == UserEntry(users[k].name, users[k].name == st.cfg.currentUserName) by {
          forall k | 0 <= k < |users| ensures lines[k] == UserEntry(users[k].name, users[k].name == st.cfg.currentUserName) {
            UserLinesAt(users, st.cfg.currentUserName, k);
          }
        }
        Step(st.(out := st.out + lines), Done)
  }

  function AddFeedStep(st: AppState, args: seq<string>, env: Env): (t: Step)
    ensures GetUser(st.db, st.cfg.currentUserName).Err? ==>
      t == Step(st, Failed(Db(GetUser(st.db, st.cfg.currentUserName).error)))
    ensures GetUser(st.db, st.cfg.currentUserName).Ok? && |args| < 2 ==> t.outcome.Fatal? && t.st == st
    ensures t.outcome == Done <==>
      GetUserQuery !in st.db.faults && HasUser(st.db.users, st.cfg.currentUserName) &&
      |args| >= 2 && CreateFeedQuery !in st.db.faults
    ensures t.outcome == Done ==>
      var owner := GetUser(st.db, st.cfg.currentUserName).value;
      var feed := Feed(env.newId, args[0], args[1], owner.id);
      owner in st.db.users && owner.name == st.cfg.currentUserName &&
      t.st == st.(db := st.db.(feeds := st.db.feeds + [feed]), out := st.out + [FeedCreated(feed)])
    ensures GetUser(st.db, st.cfg.currentUserName).Ok? && |args| >= 2 && CreateFeedQuery in st.db.faults ==>
      t == Step(st.(out := st.out + [FeedCreateFailed(Failure(CreateFeedQuery))]), Failed(Db(Failure(CreateFeedQuery))))
    ensures t.outcome != Done ==> t.st.db == st.db && t.st.cfg == st.cfg
    ensures Valid(st.db) ==> Valid(t.st.db)
  {
    match GetUser(st.db, st.cfg.currentUserName)
    case Err(e) => Step(st, Failed(Db(e)))
    case Ok(user) =>
      if |args| < 2 then Step(st, Fatal("not enough arguments were provided."))
      else
        var feed := Feed(env.newId, args[0], args[1], user.id);
        match CreateFeed(st.db, feed)
        case Err(e) => Step(st.(out := st.out + [FeedCreateFailed(e)]), Failed(Db(e)))
        case Ok(db) => Step(st.(db := db, out := st.out + [FeedCreated(feed)]), Done)
  }

  function FeedsStep(st: AppState, args: seq<string>, env: Env): (t: Step)
    ensures |args| > 0 ==> t.outcome.Fatal? && t.st == st
    ensures |args| == 0 && GetFeedsQuery in st.db.faults ==> t == Step(st, Failed(Db(Failure(GetFeedsQuery))))
    ensures t.outcome == Done <==> |args| == 0 && GetFeedsQuery !in st.db.faults
    ensures t.outcome == Done ==>
      t.st.db == st.db && t.st.cfg == st.cfg &&
      |t.st.out| == |st.out| + |st.db.feeds| && t.st.out[..|st.out|] == st.out &&
      forall k :: 0 <= k < |st.db.feeds| ==> t.st.out[|st.out| + k] == FeedEntry(st.db.feeds[k])
  {
    if |args| > 0 then Step(st, Fatal("feeds command needs to be used without any args."))
    else match GetFeeds(st.db)
      case Err(e) => Step(st, Failed(Db(e)))
      case Ok(feeds) =>
        FeedLinesLength(feeds);
        assert forall k :: 0 <= k < |feeds| ==> FeedLines(feeds)[k] == FeedEntry(feeds[k]) by {
          forall k | 0 <= k < |feeds| ensures FeedLines(feeds)[k] == FeedEntry(feeds[k]) {
            FeedLinesAt(feeds, k);
          }
        }
        Step(st.(out := st.out + FeedLines(feeds)), Done)
  }

  function AggStep(st: AppState, args: seq<string>, env: Env): (t: Step)
    ensures env.network(AggFeedUrl).Err? ==>
      var e := env.network(AggFeedUrl).error;
      t == Step(st.(out := st.out + [FetchFailed(e)]), Failed(Fetch(e)))
    ensures env.network(AggFeedUrl).Ok? ==>
      t.outcome == Done &&
      t.st == st.(out := st.out + [ChannelDump(DecodeChannel(env.network(AggFeedUrl).value, env.unescape))])
  {
    match env.network(AggFeedUrl)
    case Err(e) => Step(st.(out := st.out + [FetchFailed(e)]), Failed(Fetch(e)))
    case Ok(c) => Step(st.(out := st.out + [ChannelDump(DecodeChannel(c, env.unescape))]), Done)
  }

  /* ---------- the shared state and the handlers as methods ---------- */

  /** The Go `state`: the database handle and the configuration, plus what has been printed. */
  class State {
    var db: Repo
    var cfg: Config
    var out: seq<Line>

    function View(): AppState
      reads this
    {
      AppState(db, cfg, out)
    }

    constructor (db: Repo, cfg: Config)
      ensures View() == AppState(db, cfg, [])
    {
      this.db, this.cfg, this.out := db, cfg, [];
    }

    /** `Config.SetUser`: records `name` as the current user in the persisted configuration. */
    method SetUser(name: string)
      modifies this
      ensures View() == old(View()).(cfg := old(cfg).(currentUserName := name))
    {
      cfg := cfg.(currentUserName := name);
    }

    method Println(line: Line)
      modifies this
      ensures View() == old(View()).(out := old(out) + [line])
    {
      out := out + [line];
    }
  }

  method HandlerRegister(s: State, cmd: Command, env: Env) returns (o: Outcome)
    modifies s
    ensures Step(s.View(), o) == RegisterStep(old(s.View()), cmd.args, env)
  {
    if |cmd.args| == 0 {
      return Failed(UsernameNotProvided);
    }
    var existing := GetUser(s.db, cmd.args[0]);
    if existing.Err? {
      if existing.error == NoRows {
        var arg := NewUser(cmd.args[0], env);
        var created := CreateUser(s.db, arg);
        if created.Err? {
          return Fatal("failed to create user:");
        }
        s.db := created.value;
        s.SetUser(arg.name);
        s.Println(UserCreated(arg));
        return Done;
      } else {
        return Fatal("error checking user");
      }
    }
    return Fatal("user already exists");
  }

  method HandlerLogin(s: State, cmd: Command, env: Env) returns (o: Outcome)
    modifies s
    ensures Step(s.View(), o) == LoginStep(old(s.View()), cmd.args, env)
  {
    if |cmd.args| == 0 {
      return Failed(UsernameNotProvided);
    }
    var r := GetUser(s.db, cmd.args[0]);
    var user := ZeroUser;
    if r.Err? {
      if r.error == NoRows {
        return Fatal("user does not exist, please register");
      }
    } else {
      user := r.value;
    }
    s.SetUser(user.name);
    s.Println(CurrentUserSet(user.name));
    return Done;
  }

  method HandlerReset(s: State, cmd: Command, env: Env) returns (o: Outcome)
    modifies s
    ensures Step(s.View(), o) == ResetStep(old(s.View()), cmd.args, env)
  {
    var r := DeleteUsers(s.db);
    if r.Err? {
      return Fatal("error deleting users");
    }
    s.db := r.value;
    s.Println(UsersReset);
    return Done;
  }

  method HandlerUsers(s: State, cmd: Command, env: Env) returns (o: Outcome)
    modifies s
    ensures Step(s.View(), o) == UsersStep(old(s.View()), cmd.args, env)
  {
    var r := GetUsers(s.db);
    if r.Err? {
      return Fatal("error getting users");
    }
    var users := r.value;
    if |users| == 0 {
      s.Println(NoUsersFound);
      return Exit(1);
    }
    var i := 0;
    while i < |users|
      invariant 0 <= i <= |users|
      invariant s.db == old(s.db) && s.cfg == old(s.cfg)
      invariant s.out == old(s.out) + UserLines(users[..i], s.cfg.currentUserName)
    {
      assert users[..i + 1][..i] == users[..i];
      if users[i].name == s.cfg.currentUserName {
        s.Println(UserEntry(users[i].name, true));
      } else {
        s.Println(UserEntry(users[i].name, false));
      }
      i := i + 1;
    }
    assert users[..i] == users;
    return Done;
  }

  method HandlerAgg(s: State, cmd: Command, env: Env) returns (o: Outcome)
    modifies s
    ensures Step(s.View(), o) == AggStep(old(s.View()), cmd.args, env)
  {
    var rss, err := FetchFeed(AggFeedUrl, env.network, env.unescape);
    if err.Some? {
      // the error line `fetchFeed` prints before it returns
      s.Println(FetchFailed(err.value));
      return Failed(Fetch(err.value));
    }
    s.Println(ChannelDump(rss.Value()));
    return Done;
  }

  method HandlerAddFeed(s: State, cmd: Command, env: Env) returns (o: Outcome)
    modifies s
    ensures Step(s.View(), o) == AddFeedStep(old(s.View()), cmd.args, env)
  {
    var r := GetUser(s.db, s.cfg.currentUserName);
    if r.Err? {
      return Failed(Db(r.error));
    }
    var user := r.value;
    if |cmd.args| < 2 {
      return Fatal("not enough arguments were provided.");
    }
    var arg := Feed(env.newId, cmd.args[0], cmd.args[1], user.id);
    var created := CreateFeed(s.db, arg);
    if created.Err? {
      s.Println(FeedCreateFailed(created.error));
      return Failed(Db(created.error));
    }
    s.db := created.value;
    s.Println(FeedCreated(arg));
    return Done;
  }

  method HandlerFeeds(s: State, cmd: Command, env: Env) returns (o: Outcome)
    modifies s
    ensures Step(s.View(), o) == FeedsStep(old(s.View()), cmd.args, env)
  {
    if |cmd.args| > 0 {
      return Fatal("feeds command needs to be used without any args.");
    }
    var r := GetFeeds(s.db);
    if r.Err? {
      return Failed(Db(r.error));
    }
    var feeds := r.value;
    var i := 0;
    while i < |feeds|
      invariant 0 <= i <= |feeds|
      invariant s.db == old(s.db) && s.cfg == old(s.cfg)
      invariant s.out == old(s.out) + FeedLines(feeds[..i])
    {
      assert feeds[..i + 1][..i] == feeds[..i];
      s.Println(FeedEntry(feeds[i]));
      i := i + 1;
    }
    assert feeds[..i] == feeds;
    return Done;
  }
}
