/** The entry point of the runtime binary: choosing the runtime root
    directory, creating it, and handing the parsed subcommand to its handler
    together with the context that handler takes. */
module Cli {
  import opened Wrappers
  import opened Paths

  /** Default of the `--root` option. */
  const DefaultRoot: Path := "/run/youki"

  /** Root used instead of the default when running rootless. */
  const RootlessRoot: Path := "/tmp/rootless"

  /** The parsed arguments of one subcommand (container id, bundle, signal,
      ...). Each handler's own struct is not part of this model; dispatch only
      forwards it. */
  datatype Args = Args(argv: seq<string>)

  /** The closed set of subcommands the binary accepts. */
  datatype SubCommand =
    | Create(args: Args)
    | Start(args: Args)
    | Run(args: Args)
    | Exec(args: Args)
    | Kill(args: Args)
    | Delete(args: Args)
    | State(args: Args)
    | Info(args: Args)
    | Spec(args: Args)
    | List(args: Args)
    | Pause(args: Args)
    | Resume(args: Args)
    | Events(args: Args)
    | Ps(args: Args)

  /** The name a user types for each subcommand: the variant name in kebab
      case, as the derived command-line parser spells it. */
  function Verb(cmd: SubCommand): string {
    match cmd
    case Create(_) => "create"
    case Start(_) => "start"
    case Run(_) => "run"
    case Exec(_) => "exec"
    case Kill(_) => "kill"
    case Delete(_) => "delete"
    case State(_) => "state"
    case Info(_) => "info"
    case Spec(_) => "spec"
    case List(_) => "list"
    case Pause(_) => "pause"
    case Resume(_) => "resume"
    case Events(_) => "events"
    case Ps(_) => "ps"
  }

  /** The command modules whose `exec` runs a subcommand. */
  datatype Handler =
    | CreateCommand | StartCommand | RunCommand | ExecCommand | KillCommand
    | DeleteCommand | StateCommand | InfoCommand | SpecJsonCommand | ListCommand
    | PauseCommand | ResumeCommand | EventsCommand | PsCommand

  /** The verb each handler serves, written per command module: the module
      `spec_json` serves `spec`, every other module serves its own name. */
  function HandlerVerb(h: Handler): string {
    match h
    case CreateCommand => "create"
    case StartCommand => "start"
    case RunCommand => "run"
    case ExecCommand => "exec"
    case KillCommand => "kill"
    case DeleteCommand => "delete"
    case StateCommand => "state"
    case InfoCommand => "info"
    case SpecJsonCommand => "spec"
    case ListCommand => "list"
    case PauseCommand => "pause"
    case ResumeCommand => "resume"
    case EventsCommand => "events"
    case PsCommand => "ps"
  }

  /** Handlers that are told whether the systemd cgroup manager is in use. */
  const CgroupHandlers: set<Handler> :=
    {CreateCommand, RunCommand, DeleteCommand, PauseCommand, ResumeCommand}

  /** Handlers that receive no context at all: neither root nor cgroup flag. */
  const ContextFreeHandlers: set<Handler> := {InfoCommand, SpecJsonCommand}

  /** One handler invocation: which `exec` runs, on which arguments, and with
      which optional context values. */
  datatype Call = Call(handler: Handler, args: Args, root: Option<Path>, systemdCgroup: Option<bool>)

  /** Rootless runs redirect the default root (compared as Rust compares
      paths, component by component) to a location an unprivileged user can
      write; every other request is kept as given. */
  function ResolveRoot(requested: Path, rootless: bool): (r: Path)
    ensures r == requested || r == RootlessRoot
  {
    if rootless && PathEq(requested, DefaultRoot) then RootlessRoot
    else requested
  }

  /** Maps a subcommand to its handler and the context that handler takes. */
  function Dispatch(cmd: SubCommand, root: Path, systemdCgroup: bool): (c: Call)
    ensures HandlerVerb(c.handler) == Verb(cmd)
    ensures c.args == cmd.args
    ensures c.root.Some? ==> c.root.value == root
    ensures c.systemdCgroup.Some? ==> c.systemdCgroup.value == systemdCgroup
    ensures c.systemdCgroup.Some? <==> c.handler in CgroupHandlers
    ensures c.root.None? <==> c.handler in ContextFreeHandlers
  {
    match cmd
    case Create(a) => Call(CreateCommand, a, Some(root), Some(systemdCgroup))
    case Start(a) => Call(StartCommand, a, Some(root), None)
    case Run(a) => Call(RunCommand, a, Some(root), Some(systemdCgroup))
    case Exec(a) => Call(ExecCommand, a, Some(root), None)
    case Kill(a) => Call(KillCommand, a, Some(root), None)
    case Delete(a) => Call(DeleteCommand, a, Some(root), Some(systemdCgroup))
    case State(a) => Call(StateCommand, a, Some(root), None)
    case Info(a) => Call(InfoCommand, a, None, None)
    case List(a) => Call(ListCommand, a, Some(root), None)
    case Spec(a) => Call(SpecJsonCommand, a, None, None)
    case Pause(a) => Call(PauseCommand, a, Some(root), Some(systemdCgroup))
    case Resume(a) => Call(ResumeCommand, a, Some(root), Some(systemdCgroup))
    case Events(a) => Call(EventsCommand, a, Some(root), None)
    case Ps(a) => Call(PsCommand, a, Some(root), None)
  }

  /** Global options. `log` and `logFormat` only configure the logger, which
      is not part of this model. */
  datatype Opts = Opts(
    root: Path,
    log: Option<Path>,
    logFormat: Option<string>,
    systemdCgroup: bool,
    subcmd: SubCommand)

  /** The externally visible steps of one run, in order. */
  datatype Effect = CreateDirAll(path: Path) | Invoke(call: Call)

  datatype Outcome<E> = Outcome(effects: seq<Effect>, result: Result<(), E>)

  /** One run of the binary. `rootless` is the answer of the rootless probe,
      `createDir` the failure (if any) of creating the root directory, and
      `handlerResult` what the dispatched handler returns. */
  function Main<E>(opts: Opts, rootless: bool, createDir: Option<E>, handlerResult: Result<(), E>): (o: Outcome<E>)
    ensures |o.effects| > 0 && o.effects[0] == CreateDirAll(ResolveRoot(opts.root, rootless))
    ensures createDir.Some? ==> |o.effects| == 1 && o.result == Err(createDir.value)
    ensures createDir.None? ==>
      && o.effects == [o.effects[0], Invoke(Dispatch(opts.subcmd, ResolveRoot(opts.root, rootless), opts.systemdCgroup))]
      && o.result == handlerResult
  {
    var root := ResolveRoot(opts.root, rootless);
    match createDir
    case Some(e) => Outcome([CreateDirAll(root)], Err(e))
    case None =>
      var call := Dispatch(opts.subcmd, root, opts.systemdCgroup);
      Outcome([CreateDirAll(root), Invoke(call)], handlerResult)
  }

  // ---------------------------------------------------------------------------
  // Root resolution

  /** Components of a rooted two-level path `/a/b`. */
  lemma TwoLevelComponents(a: string, b: string)
    requires NormalName(a) && NormalName(b)
    ensures Components([Separator] + a + [Separator] + b) == [RootDir, Normal(a), Normal(b)]
  {
    var cs := [RootDir, Normal(a), Normal(b)];
    assert cs[1..] == [Normal(a), Normal(b)];
    assert [Normal(a), Normal(b)][1..] == [Normal(b)];
    assert JoinBody([Normal(a), Normal(b)]) == a + [Separator] + b;
    assert Render(cs) == [Separator] + (a + [Separator] + b);
    assert [Separator] + (a + [Separator] + b) == [Separator] + a + [Separator] + b;
    ComponentsOfRender(cs);
  }

  lemma DefaultRootComponents()
    ensures Components(DefaultRoot) == [RootDir, Normal("run"), Normal("youki")]
  {
    assert DefaultRoot == [Separator] + "run" + [Separator] + "youki";
    TwoLevelComponents("run", "youki");
  }

  lemma RootlessRootComponents()
    ensures Components(RootlessRoot) == [RootDir, Normal("tmp"), Normal("rootless")]
  {
    assert RootlessRoot == [Separator] + "tmp" + [Separator] + "rootless";
    TwoLevelComponents("tmp", "rootless");
  }

  /** The two paths the resolution rule chooses between differ as paths. */
  lemma DefaultAndRootlessDiffer()
    ensures !PathEq(RootlessRoot, DefaultRoot)
  {
    DefaultRootComponents();
    RootlessRootComponents();
    assert Components(RootlessRoot)[1] != Components(DefaultRoot)[1];
  }

  /** Rootless with the default root: the fallback location is used. */
  lemma RootlessDefaultRedirected(requested: Path)
    ensures PathEq(requested, DefaultRoot) ==> ResolveRoot(requested, true) == RootlessRoot
  {
  }

  /** A requested root that is not the default is honoured, rootless or not. */
  lemma OverrideHonoured(requested: Path, rootless: bool)
    ensures !PathEq(requested, DefaultRoot) ==> ResolveRoot(requested, rootless) == requested
  {
  }

  /** Without rootless mode the requested root is used as given, default included. */
  lemma PrivilegedKeepsRequest(requested: Path)
    ensures ResolveRoot(requested, false) == requested
  {
  }

  /** In rootless mode the resolved root is never the privileged default. */
  lemma RootlessNeverUsesDefault(requested: Path)
    ensures !PathEq(ResolveRoot(requested, true), DefaultRoot)
  {
    DefaultAndRootlessDiffer();
  }

  /** Resolving an already resolved root changes nothing. */
  lemma ResolveRootIdempotent(requested: Path, rootless: bool)
    ensures ResolveRoot(ResolveRoot(requested, rootless), rootless) == ResolveRoot(requested, rootless)
  {
    DefaultAndRootlessDiffer();
  }

  /** A spelling of the default with a trailing separator is the default too. */
  lemma TrailingSlashDefaultRedirected()
    ensures ResolveRoot(DefaultRoot + "/", true) == RootlessRoot
  {
    TrailingSeparatorIgnored(DefaultRoot);
    assert DefaultRoot + [Separator] == DefaultRoot + "/";
  }

  // ---------------------------------------------------------------------------
  // Dispatch

  /** A subcommand is determined by its verb and its arguments. */
  lemma VerbsDistinct(a: SubCommand, b: SubCommand)
    ensures a == b <==> Verb(a) == Verb(b) && a.args == b.args
  {
  }

  /** Dispatch is one-to-one on handlers: two subcommands reach the same
      handler exactly when they are the same verb. */
  lemma DispatchOneToOne(a: SubCommand, b: SubCommand, root: Path, flag: bool)
    ensures Dispatch(a, root, flag).handler == Dispatch(b, root, flag).handler <==> Verb(a) == Verb(b)
  {
  }

  /** Exactly create, run, delete, pause and resume receive the cgroup flag. */
  lemma CgroupFlagReceivers(cmd: SubCommand, root: Path, flag: bool)
    ensures Dispatch(cmd, root, flag).systemdCgroup == Some(flag) <==>
      Verb(cmd) in {"create", "run", "delete", "pause", "resume"}
  {
  }

  /** Only info and spec run without the root; everything else gets it. */
  lemma RootReceivers(cmd: SubCommand, root: Path, flag: bool)
    ensures Dispatch(cmd, root, flag).root == (if Verb(cmd) in {"info", "spec"} then None else Some(root))
  {
  }

  // ---------------------------------------------------------------------------
  // Ordering in `Main`

  /** The root directory is created before any handler runs, and every
      handler that is given a root is given the directory that was created. */
  lemma RootCreatedBeforeUse<E>(opts: Opts, rootless: bool, createDir: Option<E>, handlerResult: Result<(), E>)
    ensures var o := Main(opts, rootless, createDir, handlerResult);
      forall k :: 0 <= k < |o.effects| && o.effects[k].Invoke? ==>
        && 0 < k
        && o.effects[0].CreateDirAll?
        && (o.effects[k].call.root.Some? ==> o.effects[k].call.root.value == o.effects[0].path)
  {
  }

  /** A failure to create the root means no handler runs and that failure is returned. */
  lemma CreateFailureAborts<E>(opts: Opts, rootless: bool, e: E, handlerResult: Result<(), E>)
    ensures var o := Main(opts, rootless, Some(e), handlerResult);
      && (forall k :: 0 <= k < |o.effects| ==> !o.effects[k].Invoke?)
      && o.result == Err(e)
  {
  }
}
