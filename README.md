# gator-go: command dispatch, handlers and feed decoding

A model of the core of `gator`, a command-line RSS aggregator. The process reads a command
name and its arguments from `argv`. It looks the name up in a registry that is filled
first-writer-wins, and runs the bound handler against shared state: a user/feed repository
and the persisted "current user" name. The `agg` handler fetches one feed and decodes the
HTML entities in its text fields.

Modules:

- `Wrappers` (wrappers.dfy): `Option`, `Result`.
- `Repository` (repository.dfy): an in-memory stand-in for the generated database queries the
  handlers call. Users and feeds are sequences in insertion order. `faults` names the queries
  that fail with an error other than `sql.ErrNoRows`.
- `Rss` (rss.dfy): the parsed feed. `RSSFeed` is a class whose item slice is an
  `array<RSSItem>`. `DecodeEntities` is the in-place decoding loop of `fetchFeed`. `FetchFeed`
  takes the network round trip and the XML decode together as a function from URL to
  parsed channel (or error).
- `Handlers` (handlers.dfy): the seven handlers. Each one has a function `…Step` from the old
  state, the arguments and the environment to the new state and the outcome. The `ensures` of
  that function states the handler's behaviour. A method `Handler…` does the same work step by
  step on the shared `State` object and is proved equal to the function. `log.Fatal` is the
  outcome `Fatal`, `os.Exit(1)` is `Exit(1)` and a returned error is `Failed`.
- `Commands` (commands.dfy): the registry class `Commands` (`Register`, `Run`), the argv split
  and the entry point `RunGator`.

Environment values are parameters (the `Env` datatype): `uuid.New()`, the two `time.Now()`
readings in `handlerRegister`, the network, and `html.UnescapeString`. The last is an arbitrary
`string -> string` function, left uninterpreted.

The model follows the code as written, including these quirks:

- `register` and `login` reject only zero arguments and ignore extra ones. Zero arguments is a
  returned error ("username not provided"), not a fatal one.
- `addfeed` looks up the current user before it checks arguments. A failed lookup, including
  "no rows", is returned as an error. Fewer than two arguments is fatal; extra ones are ignored.
- `login` dies only on `sql.ErrNoRows`. On any other repository error it goes on with the
  zero-valued user, so it records `""` as the current user and reports success.
- The "command not found" error does not carry the unknown name.
- `reset` and `users` ignore their arguments. `feeds` returns a `GetFeeds` error rather than
  dying on it.
- `Config.SetUser` has a value receiver (internal/config/config.go:70-73), so only the file is
  written and the in-memory configuration is not changed. Each process runs one command, so the
  model treats the persisted name as one state field that `SetUser` assigns.
- main.go:81 assigns the result of `SetUser` to `err`, but `SetUser` returns nothing. `SetUser`
  is modelled as never failing, so the error branch at main.go:82-84 is dead.

## Model

| member | source | states |
|---|---|---|
| `Repository.GetUser` | main.go:41-43 | an injected fault yields a non-"no rows" error; otherwise "no rows" exactly when no user has the name; success exactly when there is no fault and a user has the name; a found user is in the repository with that name |
| `Repository.CreateUser` | main.go:52 | succeeds exactly when the insert does not fail, and then appends exactly the given user, leaving the feeds alone |
| `Repository.DeleteUsers` | main.go:92 | succeeds exactly when the delete does not fail, and then leaves no users and no feeds |
| `Repository.GetUsers` | main.go:103 | succeeds exactly when the query does not fail, and then returns every user in repository order |
| `Repository.CreateFeed` | main.go:153 | succeeds exactly when the insert does not fail, and then appends exactly the given feed, leaving the users alone |
| `Repository.GetFeeds` | main.go:170 | succeeds exactly when the query does not fail, and then returns every feed in repository order |
| `Rss.DecodeItem` | main.go:235-236 | an item's Title and Description become their unescaped form; Link and PubDate are unchanged |
| `Rss.DecodeItemsAt` | main.go:234-237 | decoding the items keeps their number, and item k of the result is item k of the input, decoded |
| `Rss.DecodeChannel` | main.go:229-237 | the channel Title and Description are unescaped, the Link is kept, and the items keep count and order, each decoded |
| `Rss.RSSFeed.constructor` | main.go:222-223 | the feed object holds exactly the parsed channel, in a fresh item array |
| `Rss.DecodeEntities` | main.go:229-237 | in place: same item array; channel and item Title/Description unescaped from their old values; every other field unchanged; the new value is `DecodeChannel` of the old one |
| `Rss.FetchFeed` | main.go:201-240 | on a failed request, read or unmarshal it returns that error and an empty feed; otherwise no error and the decoded parsed feed |
| `Handlers.UserLinesAt` | main.go:113-119 | one line per user, in repository order, marked current exactly when the name equals the current user name |
| `Handlers.FeedLinesAt` | main.go:174-176 | one line per feed, in repository order, holding that feed |
| `Handlers.RegisterStep` | main.go:33-64 | no args: "username not provided" error with nothing changed; an existing name: fatal with nothing changed; success exactly when the name is absent and both queries work, and then one user (fresh id, the two timestamps, the name) is appended and becomes current; with a name given, a failed lookup or insert is fatal too; any failure changes nothing; repository invariant kept |
| `Handlers.LoginStep` | main.go:67-86 | no args: error, nothing changed; unknown name: fatal, nothing changed; known name: current user set to it and success; other repository error: current user set to "" and success; the repository is never changed |
| `Handlers.ResetStep` | main.go:89-97 | fatal exactly when the delete fails, and then nothing changes; otherwise users and feeds are empty, the configuration is unchanged and success is reported |
| `Handlers.UsersStep` | main.go:100-121 | a failed query is fatal; zero users gives `Exit(1)` after "No users found"; otherwise one line per user in order, "(current)" exactly on the current user's name, and neither repository nor configuration changes |
| `Handlers.AddFeedStep` | main.go:134-161 | a failed current-user lookup is returned before any arity check, with nothing changed; fewer than 2 args is fatal with nothing changed; success exactly when there is no lookup fault, a user has the current name, the insert works and there are 2 args, appending one feed (fresh id, `args[0]`, `args[1]`, the current user's id); a failed insert is returned after printing it; repository invariant kept |
| `Handlers.FeedsStep` | main.go:163-178 | any args: fatal, nothing changed; a failed query is returned; otherwise success, and the feeds are printed unchanged and in order |
| `Handlers.AggStep` | main.go:123-132 | a fetch error is printed and then returned unchanged; otherwise the decoded feed is printed and success is reported |
| `Handlers.State.constructor` | main.go:253-256 | the shared state holds the given repository and configuration and nothing printed yet |
| `Handlers.State.Println` | main.go:57 | each `fmt.Println` appends its one line to the output and changes nothing else |
| `Handlers.State.SetUser` | internal/config/config.go:70-73 | only the persisted current user name changes, to the given name |
| `Handlers.HandlerRegister` | main.go:33-64 | new state and outcome are those of `RegisterStep` |
| `Handlers.HandlerLogin` | main.go:67-86 | new state and outcome are those of `LoginStep` |
| `Handlers.HandlerReset` | main.go:89-97 | new state and outcome are those of `ResetStep` |
| `Handlers.HandlerUsers` | main.go:100-121 | new state and outcome are those of `UsersStep`, printing through a loop over the users |
| `Handlers.HandlerAgg` | main.go:123-132 | new state and outcome are those of `AggStep`, via `FetchFeed` on the fixed URL |
| `Handlers.HandlerAddFeed` | main.go:134-161 | new state and outcome are those of `AddFeedStep` |
| `Handlers.HandlerFeeds` | main.go:163-178 | new state and outcome are those of `FeedsStep`, printing through a loop over the feeds |
| `Commands.Bind` | main.go:194-199 | a name already bound keeps its handler; an absent name becomes bound to the new one; the key set gains exactly that name; every other binding is kept |
| `Commands.FirstRegistrationWins` | main.go:194-199 | a second registration of a name has no effect; the first handler stays |
| `Commands.Commands.Register` | main.go:194-199 | the registry becomes `Bind` of the old registry |
| `Commands.Commands.constructor` | main.go:258-260 | the registry starts empty |
| `Commands.Apply` | main.go:186-188 | every handler keeps the repository invariant, keeps the fault set, and only appends output |
| `Commands.Commands.Run` | main.go:185-192 | for a bound name: the new state and outcome are exactly those of the bound handler; for an unbound name: the "command not found" error and no change |
| `Commands.RegistrationOrder` | main.go:262-268 | the seven registrations in order give exactly the seven name/handler bindings |
| `Commands.NewGatorCommands` | main.go:258-268 | the registry `main` builds binds exactly the seven commands |
| `Commands.ParseArgs` | main.go:269-280 | no command exactly when there are fewer than 2 args; otherwise program name, command name and arguments put back together give argv |
| `Commands.ExitCode` | main.go:282-286 | exit status 0 exactly for success (or an explicit exit 0); 1 for a returned error or a `log.Fatal`; the given code for a direct `os.Exit` |
| `Commands.RunGator` | main.go:242-287 | under 2 args: "No arguments provided" and status 1; unknown name: the error is printed and status 1; otherwise the bound handler's state and outcome, a returned error printed, and the status that outcome maps to |

## Left out

- HTTP and XML in `fetchFeed` (main.go:202-227): network I/O and foreign library calls. Their
  combined result is the `network` parameter. The User-Agent header is not modelled.
- `html.UnescapeString`: an uninterpreted parameter. Its algorithm is not modelled, and neither
  is idempotence: it does not hold (`&amp;amp;` decodes to `&amp;`), and the code does not rely on it.
- `config.Read`, `write` and `getConfigFilePath` in internal/config/config.go: file and JSON I/O.
  The configuration is a state field.
- The `internal/database` package is not part of this model. `sql.Open` and Postgres are replaced
  by the in-memory `Repository`. Its ordering is insertion order, and "every feed has an owner"
  with "user names are unique" stands in for the schema's constraints. The schema itself is not
  shown, so `DeleteUsers` clearing the feeds is an assumption (a cascading foreign key).
- `uuid.New`, `time.Now` and `context.Background`: runtime values, passed in through `Env`.
- The text `fmt.Println` prints: output is a log of `Line` values, not formatted strings.
  `log.Fatal`'s stderr message is the string in `Fatal`.
- `Handlers.HandlerAgg`: prints the decoded feed as one value, not Go's `%v` rendering of a pointer.
