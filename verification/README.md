# youki: runtime root, subcommand dispatch and the child synchronisation handle

This project models two pieces of the youki container runtime in Dafny:

- **The binary's entry point** (`src/main.rs`). It chooses the runtime root directory.
  When running rootless, the default `/run/youki` is replaced by `/tmp/rootless`.
  It then creates that directory. Only after that does it hand the parsed subcommand to its handler.
  A handler receives the root only, the root plus the systemd-cgroup flag, or nothing.
- **The `ChildProcess` handle** (`src/process/child.rs`). A child process uses it during container
  bootstrap. It holds the channel to the parent process, and optionally the receiving end of a pipe
  from the init process together with the poller watching it.

Files:

- `wrappers.dfy`: `Option` and `Result`.
- `paths.dfy`: Unix path components and component-wise path equality. The root check in
  `main` uses this equality, because Rust compares a `PathBuf` by its components, not by its bytes.
- `cli.dfy`: `ResolveRoot`, `Dispatch`, `Main` and their properties.
- `parent.dfy`: the parent channel as an identity plus an append-only log of requests.
- `child.dfy`: `ChildProcess` as an immutable record. Each `&mut self` method returns the new
  state and its result. OS handles are opaque numbers, and every fallible OS step is an input.

`main` compares the requested value with `/run/youki`; it does not check whether `--root` was given.
So an explicit `--root /run/youki` is redirected too, and so is any spelling with the same
components, such as `/run/youki/` or `/run//youki`.

## Model

| member | source | states |
|---|---|---|
| Cli.ResolveRoot | src/main.rs:91-95 | the resolved root is either the requested path, unchanged, or the rootless fallback; the comparison with the default is `Paths.PathEq`, equality of components, as `PathBuf::eq` compares |
| Cli.RootlessDefaultRedirected | src/main.rs:91-92 | rootless with a root path-equal to `/run/youki` resolves to `/tmp/rootless` |
| Cli.OverrideHonoured | src/main.rs:91-95 | a requested root that is not path-equal to the default is used unchanged, rootless or not |
| Cli.PrivilegedKeepsRequest | src/main.rs:91-95 | when not rootless, the requested root is used unchanged, the default included |
| Cli.RootlessNeverUsesDefault | src/main.rs:91-95 | in rootless mode the resolved root is never path-equal to the privileged default |
| Cli.ResolveRootIdempotent | src/main.rs:91-95 | resolving an already resolved root gives the same root |
| Cli.DefaultAndRootlessDiffer | src/main.rs:91-92 | `/tmp/rootless` and `/run/youki` are different paths |
| Cli.DefaultRootComponents | src/main.rs:34 | the default root `/run/youki` has components root, `run`, `youki` |
| Cli.RootlessRootComponents | src/main.rs:92 | the fallback root `/tmp/rootless` has components root, `tmp`, `rootless` |
| Cli.TrailingSlashDefaultRedirected | src/main.rs:91 | `/run/youki/` counts as the default, so rootless runs redirect it too |
| Cli.Dispatch | src/main.rs:100-115 | each subcommand reaches the handler that serves its own verb (`spec` reaches the `spec_json` module); the handler receives its own subcommand's arguments; the cgroup flag is passed exactly to the cgroup handlers; the root is withheld exactly from info and spec; values passed are the resolved root and the flag |
| Cli.VerbsDistinct | src/main.rs:51-80 | a subcommand is determined by its verb (`Cli.Verb`, the kebab-case name derived for each variant) and its arguments |
| Cli.DispatchOneToOne | src/main.rs:100-115 | two subcommands reach the same handler if and only if they have the same verb |
| Cli.CgroupFlagReceivers | src/main.rs:101-112 | exactly create, run, delete, pause and resume receive the systemd-cgroup flag |
| Cli.RootReceivers | src/main.rs:101-114 | info and spec receive no root; every other subcommand receives the resolved root |
| Cli.Main | src/main.rs:91-115 | the first step creates the resolved root; on failure nothing else happens and that error is returned; on success exactly one dispatched handler runs and its result is returned |
| Cli.RootCreatedBeforeUse | src/main.rs:96-100 | every handler invocation comes after the root directory was created, and receives that directory |
| Cli.CreateFailureAborts | src/main.rs:96 | a failed root creation runs no handler and returns that failure |
| Paths.Components | src/main.rs:91 | path components are well formed: root or `.` only in front, no empty, `.` or separator-containing names |
| Paths.ComponentsOfRender | src/main.rs:91 | every well-formed component list is the component list of its canonical rendering |
| Paths.RenderIsPathEqual | src/main.rs:91 | a path equals, as a path, the canonical rendering of its components |
| Paths.TrailingSeparatorIgnored | src/main.rs:91 | a trailing `/` does not change a non-empty path |
| Paths.BodyOfJoin | src/main.rs:91 | splitting separator-joined names gives back those names |
| Child.New | src/process/child.rs:28-34 | a new handle keeps the given parent channel and has neither receiver nor poller |
| Child.Register | src/process/child.rs:44-45 | registration fails exactly when the OS refuses it, with that error; on success the poller gains one registration for the receiver's pipe |
| Child.SetupPipe | src/process/child.rs:37-50 | on success the stored receiver and the returned sender are ends of the same new pipe, and the poller watches that receiver under token 1 for readability; on failure the handle is unchanged and the first failing step's error is returned; the parent channel never changes |
| Child.FailedSetupIsInvisible | src/process/child.rs:39-48 | a failing setup leaves the handle exactly as it was |
| Child.Delegate | src/process/child.rs:53-66 | a parent-channel request is logged, nothing else changes, and the channel's error is returned unchanged |
| Child.NotifyParent | src/process/child.rs:53-56 | logs exactly one `ChildReady` request; receiver, poller and channel identity unchanged; error passed through |
| Child.RequestIdentifierMapping | src/process/child.rs:58-61 | logs exactly one identifier-mapping request; nothing else changes; error passed through |
| Child.WaitForMappingAck | src/process/child.rs:63-66 | logs exactly one mapping-acknowledgement wait; nothing else changes; error passed through |
| Child.PerformPreservesValid | src/process/child.rs:14-18 | every sequence of operations keeps receiver and poller both present or both absent, with the poller watching the stored receiver |
| Child.PerformLogsRequests | src/process/child.rs:53-66 | after any sequence of operations the parent channel is the same channel and its log is the old log followed by exactly the operations' requests, in order |
| Child.HandshakeKeepsPipe | src/process/child.rs:53-66 | the three handshake methods never touch the receiver or the poller |
| Parent.Logged | src/process/child.rs:54 | making a request appends exactly that request to the channel's log and keeps the channel |

## Left out

- Command-line parsing, help and version metadata. Only the resulting `SubCommand` variants and their verbs are modelled.
- Logger initialisation and its error message (`src/main.rs:87-89`). It has side effects only and never stops the run.
- The rootless probe `should_use_rootless`. Its body is not part of this model, so it is a boolean input.
- The filesystem effect of `fs::create_dir_all`. It is an abstract step that either succeeds or fails with an error.
- The handler bodies (`create.exec`, `kill.exec`, ...). They are not part of this model. A handler's result is an input to `Main`, which returns it unchanged.
- The semantics of `mio` pipes, `Poll`, `Token` and `Interest`. These are OS I/O handles, so they are opaque ids. Pipe creation, poller creation and registration are fallible inputs.
- The parent channel's encoding, blocking and readiness behaviour. `src/process/parent.rs` is not part of this model. Each method is a logged request whose failure is an input.
- Releasing old handles when `setup_pipe` runs a second time. Rust drops the old receiver and poller, and the model simply replaces them.
- Process cloning, exec of the container payload, and the ordering of handshake messages across processes. `child.rs` does not enforce any order between its three handshake methods, so none is modelled.
- Child.New: returns the handle itself. The source wraps it in a `Result` that is always `Ok`, so nothing is lost.
- Paths are character strings. Rust paths are byte strings, and only `/` is a separator.
