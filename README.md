# SSH pipeline steps: a Dafny model

This project models the core of the Jenkins SSH Steps plugin. Three pieces are covered:

- **The correlated log handler** (`log_handler.dfy`, module `LogHandler`). The SSH library's log records pass through this handler. It binds to one execution id and drops records logged under any other id. It counts lines in a fixed one-second window and drops the lines over the limit; exactly one marker line, `[Rate limit exceeded: some output suppressed]`, stands for the dropped lines of a window. It buffers the lines it accepts and writes them to the step's print stream when the buffer is full or the flush interval has passed. The handler is a class with the same fields as the Java handler. Its methods are proved against a pure specification, `Published`, and the properties of the handler are lemmas about that specification, for one record and for whole sequences of records.
- **The step executions** (`steps.dfy`, module `SshSteps`). This covers sshGet, sshPut, sshScript, sshCommand, sshRemove and the legacy sshExecuteScript. Each step checks its fields in a fixed order. It then either throws an exception with a field-specific message or makes exactly one call to the SSH service with fixed arguments. A step is a tagged datatype. Its outcome is `Fail(error) | Call(failOnError, dryRun, verbose, op)`. A small `Service` class records the calls and the verbose flag that sshGet sets before its call.
- **Remote descriptor validation** (`remote_config.dfy`, module `RemoteConfig`). This is the check the SSH service runs on a step's `remote` map before it opens a session. The service's implementation is not part of this model. Its behaviour is taken from the service's tests: the order of the checks, the two error kinds and the exact messages.

Inputs from the environment are made explicit:

- The wall clock is a `now` argument.
- The ambient execution id (MDC `execution.id`) is a `currentId` argument.
- The print stream is a `seq<string>` that the handler appends to and never closes.
- The workspace has three abstract functions: `resolve` (the remote path of a workspace child), and `fileExists` and `isDirectory`, which are asked of resolved paths.
- Whether the launcher has a channel is a boolean.

On these points the model follows the code, not what one might expect:

- An empty field is a null or zero-length string, as `hudson.Util.fixEmpty` decides it. There is no trimming.
- The rate window is a fixed window, not a rolling one. It restarts with the first record that comes 1000 ms or more after the window's start.
- A missing `knownHosts` is an IllegalArgumentException, as the service's tests assert. It is not the same error kind as the missing-field assertion failures.
- The buffer may hold up to `max(bufferSize - 1, 0) + 1` lines without being flushed: `bufferSize` lines, or one line when `bufferSize` is 0. This happens when the last line added is the window's marker, which is added without a flush check.
- The legacy sshExecuteScript has no channel check. Without a channel it fails with a NullPointerException (error `NullChannel`), not with the channel message.

## Model

| member | source | states |
|---|---|---|
| `LogHandler.Flushed` | src/main/java/org/jenkinsci/plugins/sshsteps/util/CustomLogHandler.java:105-113 | flushing empties the buffer and loses or reorders no line (sink + buffer is unchanged); on an empty buffer it changes nothing |
| `LogHandler.PublishedKeepsInv` | src/main/java/org/jenkinsci/plugins/sshsteps/util/CustomLogHandler.java:85-102 | publishing keeps the counter non-negative and the buffer under `bufferSize` lines, except for the one marker of the current window |
| `LogHandler.BindsOnFirstPublish` | src/main/java/org/jenkinsci/plugins/sshsteps/util/CustomLogHandler.java:65-68 | an unbound handler binds to the current id, which may be null, and then processes the record |
| `LogHandler.ForeignRecordIgnored` | src/main/java/org/jenkinsci/plugins/sshsteps/util/CustomLogHandler.java:70-74 | a record whose id differs from the bound id leaves the whole state unchanged: buffer, counter, window start, flush time and sink |
| `LogHandler.NewWindowAcceptsLine` | src/main/java/org/jenkinsci/plugins/sshsteps/util/CustomLogHandler.java:77-83 | with a rate limit, a record 1000 ms or more after the window start resets the counter (to 1 after counting itself), moves the window start to `now` and keeps the line |
| `LogHandler.OverQuotaLineDropped` | src/main/java/org/jenkinsci/plugins/sshsteps/util/CustomLogHandler.java:85-92 | once the window's quota is spent, a line is dropped but still counted; the marker is added only for the line whose count is `rateLimit + 1`; nothing is flushed |
| `LogHandler.AcceptedLineFlushRule` | src/main/java/org/jenkinsci/plugins/sshsteps/util/CustomLogHandler.java:95-102 | after an accepted line, the buffer is flushed and the flush time set to `now` if and only if the buffer reached `bufferSize` or the interval elapsed; the buffer is then empty or below `bufferSize` |
| `LogHandler.InWindowStep` | src/main/java/org/jenkinsci/plugins/sshsteps/util/CustomLogHandler.java:76-95 | inside a window, a record adds its message below the quota, the marker at the quota, and nothing beyond it; it always counts |
| `LogHandler.BurstInOneWindow` | src/main/java/org/jenkinsci/plugins/sshsteps/util/CustomLogHandler.java:76-95 | a burst within one window writes the first `rateLimit - count` messages in order, plus one marker exactly when the quota is crossed during the burst; every record counts |
| `LogHandler.FreshWindowBurst` | src/main/java/org/jenkinsci/plugins/sshsteps/util/CustomLogHandler.java:85-92 | from a fresh window, more than `rateLimit` lines give exactly the first `rateLimit` lines and then one marker |
| `LogHandler.NewWindowBurst` | src/main/java/org/jenkinsci/plugins/sshsteps/util/CustomLogHandler.java:77-92 | a burst whose first record opens a new window, with the rest within one second of it, writes the first `rateLimit` messages in order, then one marker if there are more; the window starts at the first record and every record counts |
| `LogHandler.UnlimitedStep` | src/main/java/org/jenkinsci/plugins/sshsteps/util/CustomLogHandler.java:77-95 | with a rate limit of 0, a record of the bound execution always adds its message |
| `LogHandler.UnlimitedKeepsEveryLine` | src/main/java/org/jenkinsci/plugins/sshsteps/util/CustomLogHandler.java:77-95 | with a rate limit of 0, no line is ever dropped: the output is every message of the bound execution, in order |
| `LogHandler.IsolatedFromOtherExecutions` | src/main/java/org/jenkinsci/plugins/sshsteps/util/CustomLogHandler.java:70-74 | once bound, the handler ends in the same state whether or not records of other executions are interleaved |
| `LogHandler.CustomLogHandler.constructor` | src/main/java/org/jenkinsci/plugins/sshsteps/util/CustomLogHandler.java:52-61 | the configured handler starts with an empty buffer, counter 0, and window start and flush time at `now` |
| `LogHandler.CustomLogHandler.WithDefaults` | src/main/java/org/jenkinsci/plugins/sshsteps/util/CustomLogHandler.java:39-41 | the default handler buffers 50 lines, flushes every 100 ms and allows 1000 lines per second |
| `LogHandler.CustomLogHandler.Publish` | src/main/java/org/jenkinsci/plugins/sshsteps/util/CustomLogHandler.java:63-103 | the in-place `publish` reaches exactly the specified state `Published` and keeps the invariant |
| `LogHandler.CustomLogHandler.FlushBuffer` | src/main/java/org/jenkinsci/plugins/sshsteps/util/CustomLogHandler.java:105-113 | printing the buffer line by line appends it to the sink in insertion order, then clears it |
| `LogHandler.CustomLogHandler.Flush` | src/main/java/org/jenkinsci/plugins/sshsteps/util/CustomLogHandler.java:115-118 | `flush` leaves the buffer empty, with its lines appended to the sink |
| `LogHandler.CustomLogHandler.Close` | src/main/java/org/jenkinsci/plugins/sshsteps/util/CustomLogHandler.java:120-125 | `close` only flushes: the buffer ends empty and the sink is only appended to, never closed |
| `SshSteps.NewGetStep` | src/main/java/org/jenkinsci/plugins/sshsteps/steps/GetStep.java:32-56 | a new sshGet keeps `from` and `into` as given; `filterBy` is "name", `filterRegex` null, `override` and `verbose` false, `failOnError` true and `dryRun` false |
| `SshSteps.NewPutStep` | src/main/java/org/jenkinsci/plugins/sshsteps/steps/PutStep.java:32-48 | a new sshPut keeps `from` and `into` as given; `filterBy` is "name", `filterRegex` null, `failOnError` true and `dryRun` false |
| `SshSteps.NewCommandStep` | src/main/java/org/jenkinsci/plugins/sshsteps/steps/CommandStep.java:27-36 | a new sshCommand keeps its command as given; `sudo` is false, `failOnError` true and `dryRun` false |
| `SshSteps.NewRemoveStep` | src/main/java/org/jenkinsci/plugins/sshsteps/steps/RemoveStep.java:29-34 | a new sshRemove keeps its path as given; `failOnError` is true and `dryRun` false |
| `SshSteps.NewScriptStep` | src/main/java/org/jenkinsci/plugins/sshsteps/steps/ScriptStep.java:26-31 | a new sshScript keeps its script as given; `failOnError` is true and `dryRun` false |
| `SshSteps.FixEmpty` | src/main/java/org/jenkinsci/plugins/sshsteps/steps/GetStep.java:95-101 | a field counts as missing exactly when it is null or has length 0 (no trimming); a present value is passed on unchanged |
| `SshSteps.MessageIdentifiesError` | src/main/java/org/jenkinsci/plugins/sshsteps/steps/GetStep.java:95-108 | the exception messages of the steps ("`<field>` is null or empty", "`<path>` already exist. …", "`<path>` does not exist.", "`<path>` is a directory.", the channel message) are equal if and only if the failures are: a message names its failure and its field or path |
| `SshSteps.RunGet` | src/main/java/org/jenkinsci/plugins/sshsteps/steps/GetStep.java:89-111 | the checks run in order: empty `from`, empty `into`, existing resolved `into` without `override`, channel. Each failure is if-and-only-if its condition. A call happens iff all pass; it is `get(from, resolve(into), filterBy, filterRegex)` with `from` unresolved, after setting verbose to the step's flag |
| `SshSteps.RunPut` | src/main/java/org/jenkinsci/plugins/sshsteps/steps/PutStep.java:81-102 | the checks run in order: empty `from`, missing resolved `from`, empty `into`, channel. Each failure is if-and-only-if its condition. A call happens iff all pass; it is `put(resolve(from), into, filterBy, filterRegex)` with `into` unresolved |
| `SshSteps.ScriptFileChecks` | src/main/java/org/jenkinsci/plugins/sshsteps/steps/ScriptStep.java:67-79 | a script passes iff it is non-empty, its resolved path exists and is not a directory; each failure names the resolved path; success yields the resolved path |
| `SshSteps.RunScript` | src/main/java/org/jenkinsci/plugins/sshsteps/steps/ScriptStep.java:62-82 | the script file checks come first and decide the failure; then the channel; then exactly one `executeScriptFromFile(resolve(script))` |
| `SshSteps.RunCommand` | src/main/java/org/jenkinsci/plugins/sshsteps/steps/CommandStep.java:67-80 | an empty command fails before the channel check; without a channel it fails with the channel message; otherwise it calls `executeCommand(command, sudo)` with the text unchanged |
| `SshSteps.RunRemove` | src/main/java/org/jenkinsci/plugins/sshsteps/steps/RemoveStep.java:67-74 | an empty path fails before the channel check; otherwise it calls `remove(path)` with the raw path |
| `SshSteps.RunExecuteScript` | src/main/java/org/jenkinsci/plugins/ssh/steps/ExecuteScriptStep.java:62-83 | the same file checks as sshScript; the call goes through the channel unchecked, so a missing channel is a NullPointerException |
| `SshSteps.ChannelCheckedLast` | src/main/java/org/jenkinsci/plugins/sshsteps/util/SSHStepExecution.java:70-77 | for every non-legacy step, removing the channel turns a call into the channel failure and leaves every other failure unchanged |
| `SshSteps.LegacyScriptAgreesWithScriptStep` | src/main/java/org/jenkinsci/plugins/ssh/steps/ExecuteScriptStep.java:62-83 | with a channel, the legacy step decides exactly as sshScript for every input; without one, they differ only where sshScript reports the channel |
| `SshSteps.CommandAndRemoveIgnoreWorkspace` | src/main/java/org/jenkinsci/plugins/sshsteps/steps/RemoveStep.java:67-74 | sshCommand and sshRemove give the same outcome in every workspace |
| `SshSteps.PutLooksOnlyAtFrom` | src/main/java/org/jenkinsci/plugins/sshsteps/steps/PutStep.java:81-102 | sshPut's outcome depends on the workspace only through the resolved `from` and its existence: there is no override or existence guard on `into` |
| `SshSteps.GetLooksOnlyAtInto` | src/main/java/org/jenkinsci/plugins/sshsteps/steps/GetStep.java:103-110 | sshGet's outcome depends on the workspace only through the resolved `into`, and with `override` set not on its existence |
| `SshSteps.DefaultGetRefusesExistingInto` | src/main/java/org/jenkinsci/plugins/sshsteps/steps/GetStep.java:105-108 | since `override` defaults to false, a default sshGet fails on an existing `into` with "`<resolved>` already exist. Please set override to true just in case." |
| `SshSteps.DefaultGetCall` | src/main/java/org/jenkinsci/plugins/sshsteps/steps/GetStep.java:123-126 | a default sshGet calls `get(from, resolve(into), "name", null)` after setting verbose to false; it fails on error and is not a dry run |
| `SshSteps.DefaultPutCall` | src/main/java/org/jenkinsci/plugins/sshsteps/steps/PutStep.java:114-116 | a default sshPut calls `put(resolve(from), into, "name", null)` |
| `SshSteps.DefaultCommandCall` | src/test/java/org/jenkinsci/plugins/sshsteps/steps/CommandStepTest.java:32-43 | a default sshCommand calls `executeCommand(command, false)` with failOnError true and dryRun false |
| `SshSteps.EmptyFieldMessages` | src/main/java/org/jenkinsci/plugins/sshsteps/steps/RemoveStep.java:69-71 | six cases fail with their field's message in every context: sshRemove with an empty or null `path`, sshCommand with an empty `command`, sshScript with an empty `script`, and sshGet and sshPut with an empty `from`; `remove("")` reads "path is null or empty" |
| `SshSteps.Execute` | src/main/java/org/jenkinsci/plugins/sshsteps/steps/GetStep.java:123-126 | a failed step makes no service call; a passing one sets the verbose flag first (sshGet) and then makes exactly one call |
| `RemoteConfig.Validate` | src/test/java/org/jenkinsci/plugins/sshsteps/SSHServiceTest.java:17-69 | checks run in order: empty map, `name`, `user`, host-key policy. The structural failures are assertion failures; the host-key failure is an IllegalArgument. Validation succeeds iff name and user are given and knownHosts or allowAnyHosts is |
| `RemoteConfig.UserCheckedBeforeHostPolicy` | src/test/java/org/jenkinsci/plugins/sshsteps/SSHServiceTest.java:38-47 | with a name and no user, the outcome is the user failure whatever `knownHosts` and `allowAnyHosts` say |
| `RemoteConfig.EmptyRemoteTestCase` | src/test/java/org/jenkinsci/plugins/sshsteps/SSHServiceTest.java:17-23 | an empty map fails with "SSH Steps: remote is null or empty. …" as an assertion failure |
| `RemoteConfig.EmptyNameTestCase` | src/test/java/org/jenkinsci/plugins/sshsteps/SSHServiceTest.java:26-35 | an empty name fails with the missing-field `'name'` assertion |
| `RemoteConfig.MissingUserMessageText` | src/test/java/org/jenkinsci/plugins/sshsteps/SSHServiceTest.java:38-43 | the user message for the name `dummy` reads exactly as the test expects |
| `RemoteConfig.MissingUserTestCase` | src/test/java/org/jenkinsci/plugins/sshsteps/SSHServiceTest.java:38-47 | a name without a user fails with "SSH Steps: user must be given (dummy). …" |
| `RemoteConfig.MissingKnownHostsTestCase` | src/test/java/org/jenkinsci/plugins/sshsteps/SSHServiceTest.java:49-60 | name and user without a host-key policy fail with the IllegalArgument knownHosts message |
| `RemoteConfig.MinimumRemoteTestCase` | src/test/java/org/jenkinsci/plugins/sshsteps/SSHServiceTest.java:62-69 | name, user and `allowAnyHosts = true` validate without `knownHosts` |

## Left out

- Execution scheduling in `SSHStepExecution` is not modelled: the worker pool, cancellation, the stop and suppressed-cause handling, impersonation and the MDC bookkeeping. This is concurrency and security context. Only the channel check of `getChannel` is part of the steps.
- `SSHMasterToSlaveCallable` is not modelled beyond what the outcome says: for the sshGet, sshPut, sshScript, sshCommand and sshRemove steps, the service it creates receives the step's `failOnError` and `dryRun`. The UUID generation and the MDC side effect are left out.
- `SshSteps.Execute`: the callable creates a fresh SSH service for every call. The model's `Service` object may instead receive several calls and keeps their history. A call that does not set `verbose` carries the flag the object already held.
- The `remote` map is not carried through the step outcomes. The steps pass it to the service unchanged.
- The SSH service's operations are not modelled: command and script execution, get, put, remove, interaction capture and partial-line output. Their implementation is not part of this model; each step's outcome stops at the call it makes.
- `RemoteConfig.Validate`: a null `remote` and the recursive validation of a `gateway` are not modelled. The tests pin neither down. A field counts as given when it is Groovy-true (a non-empty string or `true`); this is an assumption about the service, which is not shown.
- `LogHandler.CustomLogHandler.constructor`: it requires `bufferSize >= 0`. A negative capacity makes the buffer's allocation throw, and that exception is not modelled.
- `LogHandler.CustomLogHandler.constructor`: one `now` stands for the two clock reads that set the window start and the flush time.
- `LogHandler.CustomLogHandler.Publish`: one `now` stands for both clock reads of `publish`. Time is an unbounded integer, so overflow of the Java `long` arithmetic is not modelled.
- `synchronized` and the `AtomicLong` counter are not modelled. The model is sequential.
- `SshSteps.RunExecuteScript`: the legacy step builds on its own base step and callable classes, which are not part of this model. That its call carries the step's `failOnError` and `dryRun` defaults, as the newer steps' calls do, is an assumption.
- A log record's message is always a string here. A null message, which the handler buffers and prints as "null", is not modelled.
- The workspace queries `resolve`, `fileExists` and `isDirectory` are total. The IOException or InterruptedException that a remote file check can throw is not modelled.
- The step descriptors (function names, display names, required contexts) and the Lombok accessors are not modelled. The serialization ids are left out too.
- The step's workspace is assumed present. The Java code only asserts it, with a Java `assert`.
