/**
 * The command registry (`commands` with `register` and `run`) and the entry point `main`:
 * a map from command name to handler, filled first-writer-wins, and dispatch by name.
 * Go stores the handler functions themselves; the model stores which handler it is.
 */
module Commands {
  import opened Wrappers
  import opened Repository
  import opened Handlers

  datatype HandlerId = LoginHandler | RegisterHandler | UsersHandler | ResetHandler | AggHandler | AddFeedHandler | FeedsHandler

  /** The registry after `register(name, f)`: a name already bound keeps its handler. */
  function Bind(m: map<string, HandlerId>, name: string, f: HandlerId): (m': map<string, HandlerId>)
    ensures name in m ==> m' == m
    ensures name !in m ==> name in m' && m'[name] == f
    ensures m'.Keys == m.Keys + {name}
    ensures forall k :: k in m && k != name ==> m'[k] == m[k]
  {
    if name in m then m else m[name := f]
  }

  /** Registering a name a second time has no observable effect: the first handler stays. */
  lemma FirstRegistrationWins(m: map<string, HandlerId>, name: string, f: HandlerId, g: HandlerId)
    ensures Bind(Bind(m, name, f), name, g) == Bind(m, name, f)
    ensures Bind(m[name := f], name, g)[name] == f
  {
  }

  /** What invoking handler `h` does to the state. */
  function Apply(h: HandlerId, st: AppState, args: seq<string>, env: Env): (t: Step)
    ensures Valid(st.db) ==> Valid(t.st.db)
    ensures t.st.db.faults == st.db.faults
    ensures |t.st.out| >= |st.out| && t.st.out[..|st.out|] == st.out
  {
    match h
    case LoginHandler => LoginStep(st, args, env)
    case RegisterHandler => RegisterStep(st, args, env)
    case UsersHandler => UsersStep(st, args, env)
    case ResetHandler => ResetStep(st, args, env)
    case AggHandler => AggStep(st, args, env)
    case AddFeedHandler => AddFeedStep(st, args, env)
    case FeedsHandler => FeedsStep(st, args, env)
  }

  /** The bindings `main` makes before dispatching. */
  function GatorHandlers(): map<string, HandlerId> {
    map["login" := LoginHandler, "register" := RegisterHandler, "users" := UsersHandler,
        "reset" := ResetHandler, "agg" := AggHandler, "addfeed" := AddFeedHandler, "feeds" := FeedsHandler]
  }

  class Commands {
    var commandHandlers: map<string, HandlerId>

    constructor ()
      ensures commandHandlers == map[]
    {
      commandHandlers := map[];
    }

    method Register(name: string, f: HandlerId)
      modifies this
      ensures commandHandlers == Bind(old(commandHandlers), name, f)
    {
      if name !in commandHandlers {
        commandHandlers := commandHandlers[name := f];
      }
    }

    /** Invokes the handler bound to `cmd.name` and returns its outcome unchanged. */
    method Run(s: State, cmd: Command, env: Env) returns (o: Outcome)
      modifies s
      ensures cmd.name in commandHandlers ==>
        Step(s.View(), o) == Apply(commandHandlers[cmd.name], old(s.View()), cmd.args, env)
      ensures cmd.name !in commandHandlers ==> o == Failed(CommandNotFound) && s.View() == old(s.View())
    {
      if cmd.name !in commandHandlers {
        return Failed(CommandNotFound);
      }
      match commandHandlers[cmd.name]
      case LoginHandler => o := HandlerLogin(s, cmd, env);
      case RegisterHandler => o := HandlerRegister(s, cmd, env);
      case UsersHandler => o := HandlerUsers(s, cmd, env);
      case ResetHandler => o := HandlerReset(s, cmd, env);
      case AggHandler => o := HandlerAgg(s, cmd, env);
      case AddFeedHandler => o := HandlerAddFeed(s, cmd, env);
      case FeedsHandler => o := HandlerFeeds(s, cmd, env);
    }
  }

  lemma BindAbsent(m: map<string, HandlerId>, name: string, f: HandlerId)
    requires name !in m
    ensures Bind(m, name, f) == m[name := f]
  {
  }

  /** Binding the seven names in `main`'s order, starting from the empty registry, gives `GatorHandlers()`. */
  lemma RegistrationOrder()
    ensures Bind(Bind(Bind(Bind(Bind(Bind(Bind(map[], "login", LoginHandler), "register", RegisterHandler),
      "users", UsersHandler), "reset", ResetHandler), "agg", AggHandler), "addfeed", AddFeedHandler),
      "feeds", FeedsHandler) == GatorHandlers()
  {
    // each new name differs from those before it in its length or in one character
    var m: map<string, HandlerId> := map[];
    BindAbsent(m, "login", LoginHandler);
    m := m["login" := LoginHandler];
    assert |"register"| == 8;
    BindAbsent(m, "register", RegisterHandler);
    m := m["register" := RegisterHandler];
    assert "users"[0] == 'u';
    BindAbsent(m, "users", UsersHandler);
    m := m["users" := UsersHandler];
    assert "reset"[1] == 'e';
    BindAbsent(m, "reset", ResetHandler);
    m := m["reset" := ResetHandler];
    LaterRegistrations(m);
  }

  lemma LaterRegistrations(m: map<string, HandlerId>)
    requires m == map["login" := LoginHandler, "register" := RegisterHandler, "users" := UsersHandler, "reset" := ResetHandler]
    ensures Bind(Bind(Bind(m, "agg", AggHandler), "addfeed", AddFeedHandler), "feeds", FeedsHandler) == GatorHandlers()
  {
    assert |"agg"| == 3;
    BindAbsent(m, "agg", AggHandler);
    var m1 := m["agg" := AggHandler];
    assert |"addfeed"| == 7;
    BindAbsent(m1, "addfeed", AddFeedHandler);
    var m2 := m1["addfeed" := AddFeedHandler];
    assert "feeds"[0] == 'f';
    BindAbsent(m2, "feeds", FeedsHandler);
  }

  /** The registry `main` builds, registering the seven commands in order. */
  method NewGatorCommands() returns (c: Commands)
    ensures fresh(c) && c.commandHandlers == GatorHandlers()
  {
    c := new Commands();
    c.Register("login", LoginHandler);
    c.Register("register", RegisterHandler);
    c.Register("users", UsersHandler);
    c.Register("reset", ResetHandler);
    c.Register("agg", AggHandler);
    c.Register("addfeed", AddFeedHandler);
    c.Register("feeds", FeedsHandler);
    RegistrationOrder();
  }

  /** The command `main` builds from `os.Args`: none with fewer than two, else name `args[1]`, arguments `args[2:]`. */
  function ParseArgs(argv: seq<string>): (r: Option<Command>)
    ensures r.None? <==> |argv| < 2
    ensures r.Some? ==> [argv[0], r.value.name] + r.value.args == argv
  {
    if |argv| < 2 then None else Some(Command(argv[1], argv[2..]))
  }

  /** The process exit status for a dispatch outcome. */
  function ExitCode(o: Outcome): (code: int)
    ensures code == 0 <==> o == Done || o == Exit(0)
    ensures o.Failed? || o.Fatal? ==> code == 1
    ensures o.Exit? ==> code == o.code
  {
    match o
    case Done => 0
    case Failed(_) => 1
    case Fatal(_) => 1
    case Exit(c) => c
  }

  /**
   * `main` after the configuration has been read and the database opened: builds the
   * registry, splits `argv`, dispatches, prints a returned error and picks the exit status.
   */
  method RunGator(s: State, argv: seq<string>, env: Env) returns (code: int)
    modifies s
    ensures ParseArgs(argv).None? ==>
      code == 1 && s.View() == old(s.View()).(out := old(s.out) + [NoArgumentsProvided])
    ensures ParseArgs(argv).Some? && ParseArgs(argv).value.name !in GatorHandlers() ==>
      code == 1 && s.View() == old(s.View()).(out := old(s.out) + [ErrorLine(CommandNotFound)])
    ensures ParseArgs(argv).Some? && ParseArgs(argv).value.name in GatorHandlers() ==>
      var cmd := ParseArgs(argv).value;
      var t := Apply(GatorHandlers()[cmd.name], old(s.View()), cmd.args, env);
      code == ExitCode(t.outcome) &&
      s.View() == if t.outcome.Failed? then t.st.(out := t.st.out + [ErrorLine(t.outcome.error)]) else t.st
  {
    var cmds := NewGatorCommands();
    if |argv| < 2 {
      s.Println(NoArgumentsProvided);
      return 1;
    }
    var cmd := Command(argv[1], argv[2..]);
    var o := cmds.Run(s, cmd, env);
    if o.Failed? {
      s.Println(ErrorLine(o.error));
      return 1;
    }
    return ExitCode(o);
  }
}
