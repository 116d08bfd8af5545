# Conduit client: a verified model

This project models the parts of the Python client for Conduit that keep state and make promises
about every run, and proves those promises in Dafny 4.11. `dafny verify dfyconfig.toml` checks all
of it.

| module | models |
|---|---|
| `Text` | `str.splitlines`, `str.split` and joining lines, with the laws that invert them |
| `Provision` | version resolution, checksum verification, archive extraction (`_provision.py`) |
| `Install`, `InstallSafety`, `InstallReuse` | the lock-free install protocol of the binary cache as a state machine over a shared disk, and its guarantees |
| `EnsureBinary` | `ensure_binary` itself, as system calls on a mutable machine |
| `Errors` | `ConduitError`: decoding from a failed call, rendering (`errors.py`) |
| `Builder` | the fluent `Pipeline` builder and its request objects (`pipeline.py`) |
| `Submission`, `SubmissionSafety` | interleaved submissions to one engine, and their guarantees (`client.py`) |
| `Client` | `Client.run` itself, on mutable requests and a mutable engine |
| `Waiting` | `Run.wait_running` on a real-valued clock (`run.py`) |
| `Supervisor`, `Startup` | teardown, closing and readiness of the supervised process, as functions on a world value (`_local.py`) |
| `LocalEngine` | `LocalConduit` and `Client.close` as objects with the flags the code keeps |

## How the model is laid out

Code that changes state is written as methods on classes whose fields are reassigned. Each such
method is proved against a specification function, and what the code promises is proved about
those functions over every run.

The two protocols (installing and submitting) are state machines. A run is any finite sequence of
moves: a move names a caller and what the environment does to its next step. A move that is not
possible changes nothing, so every sequence is a run and no theorem assumes a well-chosen schedule.
`EnsureBinary.Machine.Ensure` and `Client.RunPipeline` are written step by step like the code; the
parameter `others` says which steps the other callers take in between, and `Leads` in their
contracts says that what happened is a run of the state machine. For that purpose the machine and
the engine hold a table with the locals of every caller; only the model needs it.

The disk has inodes, because the code writes through a descriptor but changes modes, renames and
unlinks by name. Writes land in pieces of any size, every system call may fail, and a caller may be
killed between any two steps.

## Assumptions

- Only `ensure_binary` writes the cache directory; a version is a single path segment; an HTTP read
  returns the whole body or raises OSError.
- `mkstemp` never opens a name that exists, and does not pick a name that a live caller has just
  renamed away and not yet unlinked. The second half is needed: `InstallSafety.NameChoiceDecides`
  shows it is exactly what keeps the invariant, `InstallSafety.NameChoiceMatters` that without it a
  writer can find its temp file gone, and `InstallReuse.ReuseInstallsHalfABinary` is a run without it
  that ends with half a binary installed.
- SHA-256, UTF-8 decoding and archive decoding are arbitrary functions; the last two may fail.
- Server-assigned pipeline ids are fresh and non-empty. The server goes by the ids in a request, not
  by its sender, and a request that names no pipeline it has takes no effect. Each request is
  acknowledged, refused without effect, or carried out with the response lost.
- Status and readiness calls honour their timeouts; sleeps last at least as long as asked and at
  most `slack` longer, with `slack` a parameter.
- Events around the supervised process are sequential; closing a channel does not raise.
- Parsing a rich error status, or unpacking an error detail, whose bytes do not parse raises an
  exception that is not a ValueError.

## Where the code and its documentation differ

The model follows the code; each point below is a theorem.

- `ConduitError.from_rpc_error` is documented never to raise. It does, exactly when the bytes of the
  rich status do not parse, or those of the first detail it does not step over
  (`Errors.RaisesExactlyOnUnparsableBytes`). `Client.run` then raises that exception without the
  pipeline id, and only then (`SubmissionSafety.OutcomeFromFates`).
- `run` is documented to set the pipeline id on the error whenever creation succeeded. That holds for
  every `ConduitError` (`SubmissionSafety.ErrorNamesThePipeline`), where succeeded means that the
  response arrived: a creation whose response is lost leaves a pipeline nobody can name
  (`SubmissionSafety.HoldsFirstRequests` with no request acknowledged).
- Extraction is documented to take the binary out of the archive. The zip branch does not ask
  whether the member is a file (`Provision.ZipTakesDirectory`). It picks what the tar branch picks
  exactly when every non-file with the binary's name comes after a file with it
  (`Provision.PicksAgreeExactlyWhen`), and `Provision.MembersAgreeExactlyWhen` says when it also
  returns that member's bytes.
- A close that fails because the killed process does not exit is reported once; later closes return
  normally although the log is still open (`Supervisor.LaterClosesAreSilent`).
- A process that dies while the client waits for it can be reported as unreachable. It cannot be, in
  any environment, exactly when there is a budget and the death precedes the first look, or one lap
  (1.1 seconds) does not use up the budget and the death comes a whole lap before the deadline or
  before the first pause is over (`Startup.DeathIsSeenExactlyWhen`).

## Model

| member | source | states |
|---|---|---|
| `Text.SplitUndoesUnlines` | src/conduit/_provision.py:134-134 | splitting a text into lines gives back the lines it was made of |
| `Text.LineEnds` | src/conduit/_provision.py:134-134 | a line ends at each line boundary, CRLF being one, and the rest is split for itself |
| `Text.LastLine` | src/conduit/_provision.py:134-134 | the last line needs no boundary |
| `Text.CharacterClasses` | src/conduit/_provision.py:134-135 | which code points separate lines and which separate fields |
| `Text.FieldsOfPair` | src/conduit/_provision.py:135-135 | a line of two white-space-free words two blanks apart has exactly those fields |
| `Provision.ResolvingTwice` | src/conduit/_provision.py:50-58 | resolving a resolved version is stable exactly when the chosen text does not begin with two `v`, and is a lone `v` only if the environment says so too |
| `Provision.Precedence` | src/conduit/_provision.py:50-58 | argument before environment before default, empty counting as absent, one leading `v` immaterial |
| `Provision.AssetNameParts` | src/conduit/_provision.py:85-88 | an asset name splits into `conduit`, version, operating system and architecture in this order, with the platform's ending |
| `Provision.VerifyChecksum` | src/conduit/_provision.py:125-151 | the line loop with its break returns the verdict of the first matching line |
| `Provision.ChecksumMeaning` | src/conduit/_provision.py:132-151 | for any text an archive is accepted exactly when the first pair for its name has its digest in front; not listed is a mismatch too |
| `Provision.ListedIsPublished` | src/conduit/_provision.py:133-138 | the parser finds the first published pair for a name, whatever other lines lie between |
| `Provision.ChecksumRoundTrip` | src/conduit/_provision.py:125-151 | for any rendered checksums file an archive is accepted exactly when its digest is the first one published under its name, and is a mismatch otherwise |
| `Provision.ExtractBinary` | src/conduit/_provision.py:154-172 | both member scans with early return yield the extraction of the archive, or the error, as `Provision.ExtractionMeaning` spells them out |
| `Provision.ExtractionMeaning` | src/conduit/_provision.py:154-172 | the bytes of the first regular member called `conduit`, or on Windows of the last with the name of the first called `conduit.exe`; the malformed-asset error exactly when there is none; a library error for an unreadable archive |
| `Provision.FileNameInDirectory` | src/conduit/_provision.py:159-164 | the directory a member lies in does not matter for finding it |
| `Provision.FileNameBeforeDots` | src/conduit/_provision.py:159-164 | nor do a slash or a dot after it |
| `Provision.TarScanIsFirst` | src/conduit/_provision.py:162-172 | tar extraction is the first regular member of that name, and fails only when there is none |
| `Provision.ZipScanIsFirst` | src/conduit/_provision.py:157-160 | zip extraction reads the name of the first member whose last component matches |
| `Provision.ZipReadUnique` | src/conduit/_provision.py:160-160 | reading a unique zip name gives that member's bytes |
| `Provision.ReadersTake` | src/conduit/_provision.py:156-167 | each reader returns the data of the member its scan takes, whatever the archive |
| `Provision.PicksAgreeExactlyWhen` | src/conduit/_provision.py:157-164 | the two scans pick the same member exactly when every non-file with the binary's name comes after a file with it |
| `Provision.MembersAgreeExactlyWhen` | src/conduit/_provision.py:157-167 | when exactly the member read is the same too, for any archive, repeated names included |
| `Provision.ZipAgreesWithTar` | src/conduit/_provision.py:156-167 | on archives with unique names the two readers take the same member exactly when files come first, and then return the same bytes |
| `Provision.ZipTakesDirectory` | src/conduit/_provision.py:157-160 | a directory with the binary's name that comes first is taken for the binary by the zip reader |
| `Install.StepKeepsInv` | src/conduit/_provision.py:197-231 | every step of every caller, including failures and kills, keeps the whole invariant |
| `Install.RunKeepsInv` | src/conduit/_provision.py:197-231 | so does every run |
| `Install.EffectOfStep` | src/conduit/_provision.py:199-229 | what any step may change: names appear only by mkstemp and rename, data only through the caller's own inode |
| `Install.OtherUndisturbed` | src/conduit/_provision.py:220-229 | two callers that share no temp name and no inode leave each other's facts intact |
| `InstallSafety.CacheIsAlwaysGood` | src/conduit/_provision.py:175-229 | in every reachable state the final path is absent or holds, whole, with the owner's read and write bits and all three execute bits, the extraction of an archive whose digest the checksums fetched by a caller that installed it list first under its name |
| `InstallSafety.ReturnedPathIsGood` | src/conduit/_provision.py:189-200 | whoever returns, by hit or install, returns a path that is good then and after any further run |
| `InstallSafety.TargetStays` | src/conduit/_provision.py:227-227 | an installed target never disappears |
| `InstallSafety.LaterCallsDownloadNothing` | src/conduit/_provision.py:178-200 | a call that begins once the target exists makes no download, whatever the others do |
| `InstallSafety.InjectiveDigestPins` | src/conduit/_provision.py:145-151 | with a collision-free digest one checksums text admits one archive |
| `InstallSafety.BytesNeverChange` | src/conduit/_provision.py:223-229 | once installed the bytes are final when all installers of the version were served the same checksums |
| `InstallSafety.ProvisioningConverges` | src/conduit/_provision.py:175-231 | the two previous points from an empty cache over any split of any run |
| `InstallSafety.TempFilesAreOwned` | src/conduit/_provision.py:220-229 | the temp files present are exactly those of callers between mkstemp and rename or unlink, dead or alive, and of callers whose unlink failed |
| `InstallSafety.NothingLeftBehind` | src/conduit/_provision.py:228-229 | when all callers have returned or raised, the temp files left are exactly those of callers that failed before their rename and whose unlink failed too |
| `InstallSafety.OthersTempsUntouched` | src/conduit/_provision.py:221-229 | no step changes another caller's locals, temp name or temp data |
| `InstallSafety.OtherVersionsUntouched` | src/conduit/_provision.py:99-106 | no step changes what is installed for another version |
| `InstallSafety.StepMakesProgress` | src/conduit/_provision.py:197-231 | a caller's progress rises with each own step and is unmoved by everyone else's |
| `InstallSafety.WaitFree` | src/conduit/_provision.py:197-231 | in any run a caller takes at most eleven steps plus one per byte it installs |
| `InstallSafety.NeverBlocked` | src/conduit/_provision.py:197-231 | a live caller always has a step that neither fails nor waits for another |
| `InstallSafety.NameChoiceDecides` | src/conduit/_provision.py:221-229 | choosing a temp name keeps the invariant exactly when no live caller is still to unlink that name |
| `InstallSafety.NameChoiceMatters` | src/conduit/_provision.py:221-229 | every writer finds its temp file in every continuation exactly when the chosen name is not one a live caller is still to unlink |
| `InstallReuse.ReuseInstallsHalfABinary` | src/conduit/_provision.py:221-229 | a concrete run in which a reused temp name ends in a truncated installed binary |
| `EnsureBinary.Machine.Ensure` | src/conduit/_provision.py:197-231 | the call, interleaved with any others, is a run of the protocol; success returns a good path, and if it downloaded nothing failed; failure is what the downloads lead to, or after good ones a failing system call or no temp name left; its temp file stays only where filling and unlinking it both failed; a cached version is never downloaded |
| `EnsureBinary.Machine.Provide` | src/conduit/_provision.py:199-231 | hit, or obtain and publish; when it fails and why, and what becomes of the temp file |
| `EnsureBinary.Machine.Obtain` | src/conduit/_provision.py:202-218 | download, verification and extraction in the order of the code, with the first failure |
| `EnsureBinary.ObtainedMeaning` | src/conduit/_provision.py:202-218 | which binary, or which error code, the answers lead to, in the order platform, downloads, decoding, digest, extraction |
| `EnsureBinary.Machine.Publish` | src/conduit/_provision.py:220-231 | mkdir, mkstemp, write, chmod, rename, and unlink in every case: success exactly when no system call fails and a temp name is to be had, and then the target is good; the temp file stays only where filling and unlinking it both failed |
| `EnsureBinary.Machine.WriteAll` | src/conduit/_provision.py:224-225 | the temp name leads to the open file, which holds the whole data, or, exactly when a write fails, what had been written before it |
| `EnsureBinary.Machine.MkStemp` | src/conduit/_provision.py:221-222 | the file opened is new and its owner's alone to read and write, under the first candidate name that is neither present nor about to be unlinked; it raises only when there is none or the system call fails |
| `EnsureBinary.Machine.Replace` | src/conduit/_provision.py:227-227 | the rename moves the temp file's inode to the target name, or changes nothing |
| `Errors.ConduitDetailRecovered` | src/conduit/errors.py:108-133 | every field comes from a Conduit detail after any foreign details and before any others, absent keys giving empty fields and an empty reason the default code; the message is the call's, or the exception's text |
| `Errors.NoConduitDetail` | src/conduit/errors.py:135-152 | without a Conduit detail the code is the one of the status category, table entry by table entry, and the message the call's, or the exception's text |
| `Errors.CodeNeverEmpty` | src/conduit/errors.py:126-139 | the code is never empty, not even for an empty reason |
| `Errors.RaisesExactlyOnUnparsableBytes` | src/conduit/errors.py:109-124 | when exactly the translation raises instead of returning |
| `Errors.ConduitError.FromRpcError` | src/conduit/errors.py:86-139 | the loop over details with early return builds the decoded report with the status code of the call, or lets the exception out |
| `Errors.ConduitError.Str` | src/conduit/errors.py:73-84 | appending lines one by one renders the report |
| `Errors.RenderSpelledOut` | src/conduit/errors.py:73-84 | the text itself: bracketed code, message, and the labelled line of each field present |
| `Errors.RenderRoundTrip` | src/conduit/errors.py:73-84 | all six fields can be read back from the text, for all combinations of present and absent ones |
| `Errors.RenderInjective` | src/conduit/errors.py:73-84 | two printable errors with the same text are the same |
| `Errors.NewlineCollides` | src/conduit/errors.py:75-84 | a line feed in a message can pass for another field |
| `Errors.BracketCollides` | src/conduit/errors.py:75-75 | a bracket in a code can pass for the start of the message |
| `Builder.MergeSettings` | src/conduit/pipeline.py:55-70 | the loop over merged items produces the wire settings: every key, keyword arguments winning, booleans as `true` and `false`, anything else as its text |
| `Builder.SettingsMeaning` | src/conduit/pipeline.py:55-70 | the same of the function the builder is specified with |
| `Builder.ConnectorsByKind` | src/conduit/pipeline.py:178-205 | the connectors of a chain are those of its connector calls alone |
| `Builder.ProcessorsByKind` | src/conduit/pipeline.py:233-241 | likewise its processors |
| `Builder.DlqByKind` | src/conduit/pipeline.py:284-292 | the last dead-letter call decides, earlier ones leave no trace |
| `Builder.SamePartsSameDraft` | src/conduit/pipeline.py:152-292 | chains with the same connector calls, processor calls and last dead-letter call build the same thing |
| `Builder.NormalFormSameDraft` | src/conduit/pipeline.py:152-292 | a chain and its form sorted by kind are interchangeable |
| `Builder.EncodableExactlyWhen` | src/conduit/pipeline.py:308-353 | a chain can be sent exactly when workers fit 32 bits and windows 64 bits in every call but overridden dead-letter calls; leaving a number out always fits |
| `Builder.Pipeline.Source` | src/conduit/pipeline.py:152-186 | appends one source and returns the builder |
| `Builder.Pipeline.Destination` | src/conduit/pipeline.py:188-205 | appends one destination and returns the builder |
| `Builder.Pipeline.Process` | src/conduit/pipeline.py:207-241 | appends one processor and returns the builder |
| `Builder.Pipeline.Dlq` | src/conduit/pipeline.py:243-292 | overwrites the dead-letter queue, with defaults 1 and 0 unless given |
| `Builder.Pipeline.BuildRequests` | src/conduit/pipeline.py:294-353 | new, distinct requests in declaration order without ids, or an error when a number does not fit the wire; the builder is only read |
| `Submission.ServeNext` | src/conduit/client.py:166-184 | each request takes the partially built pipeline one step on, whatever its id |
| `Submission.BodyNames` | src/conduit/client.py:166-184 | every request after creation carries the pipeline's id, processors with the parent type that makes it count |
| `Submission.MeaningOfDraft` | src/conduit/pipeline.py:152-292 | reading the calls one by one on the engine agrees with what the builder accumulated |
| `Submission.CompleteIsMeaning` | src/conduit/pipeline.py:308-353 | a completely submitted plan is the meaning of the chain of calls |
| `SubmissionSafety.PlanInOrder` | src/conduit/client.py:158-184 | the plan request by request, with every field: creation, connectors and processors in the order declared, the dead-letter queue, the start |
| `Submission.StepKeepsInv` | src/conduit/client.py:158-193 | every request of every session, with every fate, keeps the invariant |
| `Submission.RunKeepsInv` | src/conduit/client.py:158-193 | so does every run |
| `SubmissionSafety.HoldsFirstRequests` | src/conduit/client.py:132-139 | each pipeline created by a run holds exactly the first k, or after a lost response k+1, requests of its plan |
| `SubmissionSafety.StartedOnlyWhenComplete` | src/conduit/client.py:166-184 | a pipeline runs only if start was asked for and everything declared is in place |
| `SubmissionSafety.SuccessMeansMeaning` | src/conduit/client.py:123-130 | a successful run leaves, under the id it was given, what the chain of builder calls says, although the server goes by the ids in the requests of all runs |
| `SubmissionSafety.TraceIsPlanPrefix` | src/conduit/client.py:126-130 | requests sent are the acknowledged ones and the one a failed run failed on, a prefix of the plan bounded in length, all acknowledged exactly on success |
| `SubmissionSafety.ErrorNamesThePipeline` | src/conduit/client.py:185-191 | the error carries the id exactly when creation was acknowledged, and it names this run's pipeline |
| `SubmissionSafety.OutcomeFromFates` | src/conduit/client.py:160-193 | success exactly when every request was acknowledged; a failed run raises what the first failure decodes to, with the id it was given, or the bare exception exactly where decoding raises |
| `SubmissionSafety.NobodyElseTouched` | src/conduit/client.py:160-191 | earlier pipelines are unchanged, no run creates two, and the ids written into requests reach no pipeline but their run's own |
| `SubmissionSafety.IdsDoNotCross` | src/conduit/client.py:163-177 | every request names its own run's id, and no two runs share one |
| `SubmissionSafety.ProgressIsOwn` | src/conduit/client.py:158-193 | how far a run gets and what it sends, ids aside, depends only on how the server treats that run |
| `SubmissionSafety.SamePartsSameRequests` | src/conduit/pipeline.py:152-292 | chains that agree by kind, treated alike by any two engines, send the same requests up to the id |
| `SubmissionSafety.SubmissionsDoNotInterfere` | src/conduit/client.py:158-193 | treated alike, the same submission leaves equal pipelines in any two crowds and interleavings |
| `Client.Call` | src/conduit/client.py:104-110 | a reply exactly when the request is acknowledged; otherwise a new translated error that does not name a pipeline yet, or the exception where translation raises |
| `Client.SendConnectors` | src/conduit/client.py:166-168 | the loop writes the id into each request and sends it; it comes through exactly when all are acknowledged and else stops at the first that is not, with its error |
| `Client.SendProcessors` | src/conduit/client.py:170-173 | likewise for processors and their parent |
| `Client.Finish` | src/conduit/client.py:175-184 | the dead-letter queue if there is one, then start if asked, in the same way |
| `Client.Submit` | src/conduit/client.py:160-193 | creation, then the rest: the handle exactly when all are acknowledged, else the decoded failure of the first that is not, with the id if it is a ConduitError |
| `Client.RunPipeline` | src/conduit/client.py:123-193 | the method interleaved with any other clients is a run of the system; a handle exactly when the plan can be encoded and every request is acknowledged, and then it names a complete pipeline which is what the chain of builder calls means; else the decoded failure of the first that is not, naming what was created; an unencodable plan sends nothing |
| `Waiting.RefinesDecision` | src/conduit/run.py:130-147 | waiting is the first-decisive-answer function of what it saw; stopped and recovering never decide |
| `Waiting.EndsAreTruthful` | src/conduit/run.py:130-147 | each outcome names what the last answer was, and all earlier answers were neither running, nor degraded, nor failed |
| `Waiting.TimeoutIsNeverEarly` | src/conduit/run.py:130-147 | a timeout is reported only after it passed, and without a poll exactly when there was no budget |
| `Waiting.EndsSoonAfterDeadline` | src/conduit/run.py:130-142 | it ends within one call timeout, one interval and one late wake-up of the deadline |
| `Waiting.OvershootExactlyWhen` | src/conduit/run.py:82-142 | for every budget and interval, how late waiting can end: all but any given part of a lap late exactly when so many laps can lead to that instant |
| `Waiting.OvershootIsTight` | src/conduit/run.py:82-142 | no smaller overshoot bound holds for any budget above the interval, for intervals up to a call timeout and one late wake-up |
| `Waiting.PollBound` | src/conduit/run.py:132-142 | at most ceil(timeout / (interval + tick)) polls, where tick is the least time a call takes |
| `Waiting.Terminates` | src/conduit/run.py:132-142 | it is over after that many turns and one more, with an interval of zero too if calls take some minimum of time |
| `Waiting.BoundedExactlyWhen` | src/conduit/run.py:113-142 | the number of turns is bounded in advance, over all environments in which calls take time, exactly when the interval is not zero or there is no budget |
| `Waiting.WaitRunning` | src/conduit/run.py:130-147 | the loop on a mutable clock computes that function and terminates |
| `Supervisor.TerminateTrace` | src/conduit/_local.py:164-177 | one teardown leaves one of four timed traces, and a dead process unless the kill did not help |
| `Supervisor.TeardownTimes` | src/conduit/_local.py:164-177 | the exact journal and duration of a teardown: no signal to a process that is gone, waiting as long as it takes within each ten seconds, then giving up |
| `Supervisor.AtMostOnce` | src/conduit/_local.py:164-220 | over every history at most one channel close, termination, kill and log close |
| `Supervisor.HistoriesAreOrderly` | src/conduit/_local.py:164-188 | a kill only right after a termination and a full grace period, and no signal after an exit was seen |
| `Supervisor.ChannelClosesFirst` | src/conduit/client.py:98-102 | in every history the channel is closed before anything else happens exactly when a close is the first thing to stop the engine; only after the exit hook does it come last |
| `Supervisor.CloseSucceedsExactlyWhen` | src/conduit/client.py:92-102 | the first close closes the channel at once and leaves everything down exactly when the process yields to its waits and signals |
| `Supervisor.LaterClosesAreSilent` | src/conduit/_local.py:164-168 | in every history after a failed close each close returns normally and nothing is signalled or closed any more |
| `Supervisor.DownAfterAnyClose` | src/conduit/_local.py:205-220 | if the process yields to begin with, after any close in any history the channel was closed once, the process is dead and the log closed |
| `Supervisor.EveryCloseWorksExactlyWhen` | src/conduit/_local.py:164-220 | every close in every history leaves everything down exactly when the process yields |
| `Startup.EndsSoonAfterDeadline` | src/conduit/_local.py:124-146 | the readiness loop ends within 1.1 seconds of the deadline in every environment |
| `Startup.Terminates` | src/conduit/_local.py:129-144 | and within a bounded number of probes |
| `Startup.DeathIsNoticed` | src/conduit/_local.py:117-137 | a death at least 1.1 seconds before the deadline is reported as a crash within 1.1 seconds |
| `Startup.DeathIsSeenExactlyWhen` | src/conduit/_local.py:117-151 | a death is never taken for unreachability, in any environment, exactly under a condition on budget and time of death |
| `Startup.LateDeathIsMissed` | src/conduit/_local.py:129-151 | outside that condition some environment looks last before the death and next after the deadline, and reports it as unreachable |
| `Startup.EndsAreTruthful` | src/conduit/_local.py:129-151 | ready, crashed and unreachable each say what was observed |
| `Startup.ConstructionOutcomes` | src/conduit/_local.py:103-151 | a ready client with nothing torn down; or the error of its branch, unreachability with the last error, unless the teardown fails, exactly when the process does not yield; the channel closed once and first on both ConduitError exits; the whole journal after a crash |
| `LocalEngine.LocalConduit.TerminateProcess` | src/conduit/_local.py:164-177 | the method does to the objects what the teardown function says |
| `LocalEngine.LocalConduit.StopRunning` | src/conduit/_local.py:169-175 | terminate, wait, kill, wait |
| `LocalEngine.LocalConduit.AtExitKill` | src/conduit/_local.py:179-188 | the exit hook is a teardown whose exception is swallowed |
| `LocalEngine.LocalConduit.WaitReady` | src/conduit/_local.py:117-151 | the polling loop computes the readiness function and closes the channel on its two errors |
| `LocalEngine.Client.CloseClient` | src/conduit/client.py:92-102 | closes the channel once, before it calls back into the owner, if there is one |
| `LocalEngine.Construct` | src/conduit/_local.py:88-110 | construction after the spawn concludes as the specification says, with the result of each branch |

## Left out

- Generated gRPC stubs, sockets, HTTP, subprocess and signal mechanics: only the message fields the client reads or writes, and outcomes as inputs.
- The platform table, enum-name stripping, log tails, warnings, printing and `connect`: finite or trivial.
- `_free_port`: nothing in the code checks that the process answering is the one spawned, so readiness means only that a probe was answered.
- Failures before the process is spawned, and downloads that fail with something other than an OSError.
- Thread safety of `close` and teardown: the flags are tested and set without a lock, so only sequential histories are covered.
- Default argument values (the `builtin:log` plugin of `.dlq`, time limits): callers pass them.
- Windows rename failures, paths with backslashes, and version strings with path separators.
- `Run.status` and `Run.stop` as calls: `wait_running` takes the answers as input.
- `str()` of a setting value, which may itself raise: a value comes with its text.
- InstallReuse.ReuseInstallsHalfABinary: one run and not a family, because it exists to show that an assumption cannot be dropped; the exact condition is `InstallSafety.NameChoiceDecides`.
- Waiting.WaitRunning: as a method only where the loop ends, which `Waiting.Terminates` shows for every non-zero interval and for zero whenever calls take some minimum of time; calls that take no time at all, or ever less, are left to the step function.
- The engine's own record processing and its dead-letter window.
