# Symphony: a verified model of its hard core

Symphony drives coding-agent command-line programs over a Kanban board. This
project models the parts of it that carry the real logic and proves what they
promise, for every input, every interleaving and every run. `dafny verify
dfyconfig.toml` checks the whole project.

| files | what they model |
|---|---|
| `CommitGraph`, `Snapshot` | the auto-commit script over a commit DAG, an index and a workspace |
| `Refresh` | the guarded fast-forward of a preserved worktree while other actors move refs |
| `ProcessTree` | the signal-and-wait ladder that takes a process group down |
| `PerTurn`, `AcpProcess` | ownership of child processes over spawn, cancel, timeout, stop and restart |
| `Pi` | a resumed session, a turn's stream, and when a turn counts as completed |
| `OpenCode`, `OpenCodeMeaning` | live publication of a chunked stream, reconciled with the batch decode; what events say of usage and session |
| `AcpRpc`, `Codex` | request ids, responses and a completion waiter on a line stream |
| `WindowsGate` | the READY/GO handshake between host and supervisor |
| `Template`, `TemplateLaws`, `TemplateParser`, `TemplateLexer`, `TemplateExpr`, `TemplateRender`, `TemplateMeaning`, `RenderMeaning`, `RenderScopes`, `RenderStrictness` | the prompt template language: parser, printer, lexer, expressions, evaluator, and what they mean |
| `Board`, `BoardRuns`, `Lease` | the self-filing board of continuous improvement, its runs among ticket moves and crashes, and the lease between processes |
| `Artifacts`, `ArtifactsMeaning` | the per-ticket artifact store, and what becomes of each file |
| `FileTree`, `Eject`, `Bootstrap` | file transactions with rollback |
| `Stats` | the fold of run statistics |
| `Sections`, `PromptContext`, `RenderedContext` | ticket sections, the compacted prompt context, and its text read back |
| `Prelude`, `TextUtil` | result types and string operations |

How the program's own shape is kept: methods that update fields are classes
whose methods are tied, one per section of code between two awaits, to the step
function of a state machine; the machines are then run over arbitrary event
sequences. Loops are methods proved against a recursive specification, and the
laws are lemmas about the specification: runs told on their events, and relations
that say on the inputs alone when a result is given. What the operating system, git, a
JSON or regex engine, a clock or another process answers is a parameter or an
arbitrary choice.

Where a promise does not hold as it stands, the model keeps the code, gives an
input, and proves exactly when the promise does hold:

- a merged branch is rewritten (`Snapshot.MergedBranchRewritten`) when its recorded base,
  a commit of the repository, is not one of its ancestors (`Snapshot.MergedBranchFateIff`);
- renames can hide deletions from the 25-file guard and from the guard on protected
  names (`Snapshot.ManyDeletionsPass`, `Snapshot.ProtectedRenamePasses`), as far as
  there are additions to pair them with and no further (`Snapshot.GuardPassesIff`);
- the escalation to SIGKILL does not ask for the leader's identity again
  (`ProcessTree.UnsafeKillExists`, `ProcessTree.AllSignalsSafeIff`);
- raw template blocks lose the blanks inside the marks of outputs and tags
  (`TemplateLexer.RawDropsPadding`, `TemplateLexer.RawIsVerbatimIff`);
- a lease read that fails steals a fresh lease (`Lease.UnreadableStealsFresh`,
  `Lease.StolenFreshIff`); two leases are fresh at once when the clock steps back behind
  a takeover, during it or later (`Lease.BackwardClockBreaks`, `Lease.StepBackAfterTakeover`,
  `Lease.TwoFreshIff`); and acquiring while already held answers yes without looking
  (`Lease.HeldAnswersBlindly`, `Lease.AcquireAnswer`);
- JSON `true` answers ACP request 1 (`AcpRpc.TrueAnswersFirstRequest`, `AcpRpc.OwnIdIff`);
- a response that comes after its caller's timeout is lost (`AcpRpc.LateReplyIsLost`,
  `AcpRpc.SettledIff`);
- a launch that reports no file after its child came up ends without a reap
  (`PerTurn.MissingFileStrands`, `PerTurn.RestMeansReaped`, `AcpProcess.MissingFileKeepsProcess`);
- a stop during an ACP spawn leaves a process held
  (`AcpProcess.StopDuringSpawnLeavesProcess`, `AcpProcess.StopIsFinalUnlessSpawning`);
- a second run_turn during a launch loses a child (`PerTurn.SecondLaunchLosesFirst`,
  `PerTurn.TurnIsSafeIff`), and so can a start or run_turn that overlaps another call
  of an ACP backend (`AcpProcess.SecondProcessLosesFirst`, `AcpProcess.StartIsSafeIff`,
  `AcpProcess.TurnIsSafeIff`);
- codex completions are not matched to turns (`Codex.LateCompletionEndsNextTurn`,
  `Codex.OwnCompletionIff`), and a reply that says `failed` beside a missing turn
  object is a success (`Codex.FailedBesideNoTurnSucceeds`, `Codex.VerdictDisagreesIff`);
- a codex reader that is killed settles nothing (`Codex.KilledReaderLosesWakeup`,
  `Codex.StillReachableIff`);
- an operator who reopens a closed fix can leave two for one source
  (`Board.ReopenedFixDuplicates`, `Board.ReopeningFixIff`); a run that dies between
  creating a fix and linking it leaves the source without it
  (`BoardRuns.CrashLeavesFixUnlinked`, `BoardRuns.CrashIsSafeIff`), and a new title can then
  lead to a second one (`BoardRuns.RetitleAfterCrashIsUnsafe`, `BoardRuns.RetitleIsSafeIff`, and for
  any move `BoardRuns.StepIsSafeIff`); and the link can close a cycle if the fix was moved in
  between (`BoardRuns.LinkAfterMoveCycles`, `BoardRuns.LinkKeepsAcyclicIff`);
- a resume flag is sent once, so a first turn that fails leaves later turns
  failing (`Pi.LostResumeKeepsFailing`, `Pi.FlagSentIff`, `Pi.EveryTurnAsksIff`);
- bootstrap cleanup misses a half-copied file (`Bootstrap.PartialCopyStays`,
  `Bootstrap.CleanupCreated`) and the parents made for a new repository
  (`Bootstrap.RootRemoved`);
- a kept section with neither title nor body does not survive the stripping of the
  rendered context (`RenderedContext.BlankHeadingIsLost`, `RenderedContext.ContextReadsBackIff`);
- a source that grows during collection is recorded at its old size
  (`Artifacts.GrownSourceBreaksQuota`, `Artifacts.NewRecordIsTrueIff`), although the comment at
  src/symphony/artifacts.py:337-340 says the copied size is the one recorded;
- a stored file that a rebuild cannot read does not count, so its content can be stored
  again and the quota exceeded (`Artifacts.UnreadFileBreaksQuota`,
  `Artifacts.RebuildIsHarmlessIff`), and a file that an earlier collection listed can be
  overwritten (`Artifacts.ListedFileOverwritten`, `Artifacts.FileKeptIff`);
- tickets are credited to the wrong mode (`Board.WrongModeCredited`,
  `Board.ModeCreditIsRightIff`, and per proposal `Board.CreditIsRightIff`);
- the day list of the statistics falls short by the undated events, and by nothing
  else (`Stats.ShownDaysFallShort`).

## Model
| member | source | states |
|---|---|---|
| `CommitGraph.MergeBaseInside` | src/symphony/workspace.py:1116-1121 | A branch that lies inside the merge target has only itself as merge base with it, over any commit DAG |
| `CommitGraph.AncestorTransitive` | src/symphony/workspace.py:1117-1119 | Ancestry over parent chains is transitive, which every `--is-ancestor` argument of the script relies on |
| `CommitGraph.AncestorExtends` | src/symphony/workspace.py:1105-1185 | Adding commits never removes an ancestry |
| `CommitGraph.NewAncestors` | src/symphony/workspace.py:1184 | A new commit descends from itself and from what its parents descend from, and from nothing else |
| `CommitGraph.OldAncestors` | src/symphony/workspace.py:1184 | A new commit changes no ancestry between old ones |
| `Snapshot.UnstagedPath` | src/symphony/workspace.py:1158-1167 | After the exclude loop every path under an excluded path is back at its HEAD entry and every other path keeps its staged entry |
| `Snapshot.Repository.ResetTo` | src/symphony/workspace.py:1148-1149 | Soft reset and index reset, at whichever of them something goes wrong: the branch moves if the first succeeds, the index if both do, to the base and nothing else |
| `Snapshot.Repository.UnstageExcluded` | src/symphony/workspace.py:1160-1167 | The loop over excluded paths takes each of them back to HEAD in turn, up to the one where something goes wrong |
| `Snapshot.Repository.CommitIndex` | src/symphony/workspace.py:1184 | A commit has the index as tree and the old HEAD as only parent |
| `Snapshot.Repository.SquashToFork` | src/symphony/workspace.py:1137-1150 | The branch moves back to the recorded base exactly when that parses, is not HEAD, and names a commit; where it stops is the reset that failed or was not come to |
| `Snapshot.Repository.StageWorkspace` | src/symphony/workspace.py:1151-1171 | Staging gives the workspace files with excluded paths as in HEAD; it is ready exactly when that differs from HEAD, and stops exactly at a command that is come to and goes wrong |
| `Snapshot.Repository.CommitOnDone` | src/symphony/workspace.py:1105-1185 | For whatever git answers and whatever goes wrong at whichever command: the outcome, the branch and the commit are those of the situation, from the merge base when the recorded base is one of its ancestors and else from the recorded base; history only grows, by at most one commit; a committed or no-op outcome leaves the tree of HEAD equal to the workspace (excluded paths as in the base); a commit deletes what the guard can admit; the merge base survives; a merged branch is kept exactly when its recorded base is one of its ancestors |
| `Snapshot.Repository.RunScript` | src/symphony/workspace.py:1137-1185 | The script from an effective base on ends as the situation says, for a failure or a kill at any command, and commits exactly the tree that is wanted, on the fork point |
| `Snapshot.Repository.RecordWorkspace` | src/symphony/workspace.py:1151-1184 | From the staging to the commit: how it ends, and the one commit it makes |
| `Snapshot.EndsIff` | src/symphony/workspace.py:1105-1185 | What each end tells, over every situation: 41, 42, 43 and 44 exactly when a command of that group is come to and fails, or the fork point is no commit; killed exactly when the timeout strikes at a point reached |
| `Snapshot.SmoothRun` | src/symphony/workspace.py:1137-1185 | With nothing going wrong: no-op exactly when the tree below holds at every path what the snapshot is to hold, 45 exactly when the guard refuses what differs, and a commit in every other case, on the recorded base if one parses |
| `Snapshot.WantedIs` | src/symphony/workspace.py:1151-1167 | Path by path what the snapshot is to hold: excluded paths as below, every other file of the workspace that is tracked or not ignored |
| `Snapshot.ScriptMeans` | src/symphony/workspace.py:1105-1185 | A durable outcome has squashed everything since the fork point and holds the workspace; a commit went past the guard |
| `Snapshot.EffectiveBaseIs` | src/symphony/workspace.py:1111-1121 | The squash starts from the merge base with the target when the recorded base is one of its ancestors, and else from the recorded base |
| `Snapshot.MergedBranchKeptIff` | src/symphony/workspace.py:1111-1121 | For a branch already inside the target the effective base is HEAD itself if and only if the recorded base is an ancestor of HEAD |
| `Snapshot.MergedBranchFateIff` | src/symphony/workspace.py:1111-1185 | After a snapshot of a branch inside the target whose recorded base is a commit of the repository: the branch was kept if and only if that base is one of its ancestors, and its old tip is still part of it if and only if either is an ancestor of the other |
| `Snapshot.MergedBranchRewritten` | src/symphony/workspace.py:1111-1121 | A merged branch and a recorded base it shares no history with: whatever is committed, the branch ends on the base and no longer contains its old tip |
| `Snapshot.MergeBaseSurvives` | src/symphony/workspace.py:1111-1150 | If the recorded base is an ancestor of the merge base of HEAD and the target, that merge base is still an ancestor of HEAD after the script, whatever its outcome |
| `Snapshot.MergedBranchNotRewritten` | src/symphony/workspace.py:1111-1150 | A branch inside the target whose recorded base is one of its ancestors is never rewritten |
| `Snapshot.DeletionsPassIff` | src/symphony/workspace.py:1172-1183 | Some rename pairing leaves at most 25 deletions if and only if no more than 25 plus the number of added files were deleted |
| `Snapshot.ProtectedDeletionPassesIff` | src/symphony/workspace.py:1173-1179 | A deletion is hidden whole by some pairing if and only if it is no larger than what was added; on the protected names, exactly when a protected deletion passes |
| `Snapshot.GuardPassesIff` | src/symphony/workspace.py:1172-1183 | Some truthful report of git lets a snapshot through if and only if the deletions exceed the additions by at most 25 and no more protected files are deleted than added |
| `Snapshot.ManyDeletionsPass` | src/symphony/workspace.py:1172 | For every number of files: a snapshot that deletes all of them and adds as many passes under some pairing |
| `Snapshot.RenamesAreFew` | src/symphony/workspace.py:1172 | A rename pairing hides at most as many deletions as there are added files |
| `Snapshot.GuardMeaning` | src/symphony/workspace.py:1172-1183 | What a passed guard says about the trees, for any truthful report: at most 25 more deletions than additions, no more protected ones than protected additions; and no protected file is deleted if and only if the report pairs none, so that each of the four that was there is still there |
| `Snapshot.ProtectedRenamePasses` | src/symphony/workspace.py:1173-1179 | A snapshot that renames WORKFLOW.md to another protected name is admitted although the file is gone |
| `Refresh.Git.CapturePlan` | src/symphony/workspace.py:167-275 | Reads only; a plan means that every check said yes, that HEAD and the branch were read at one commit, and that this was an ancestor of the target when git answered; undisturbed there is a plan exactly for a managed worktree behind the target branch |
| `Refresh.Git.CheckTopology` | src/symphony/workspace.py:182-223 | The six checks are asked in order up to the first no, each yes recorded as true when it was given, and nothing is mutated |
| `Refresh.Git.MergeFastForward` | src/symphony/workspace.py:335-350 | The merge moves HEAD forward to the target along ancestry and with it only the branch HEAD is on, or moves nothing; an error code means that nothing moved, zero that HEAD is at the target or beyond |
| `Refresh.Git.BothAt` | src/symphony/workspace.py:352-375 | Two reads, and yes exactly when both saw the target |
| `Refresh.Git.WriteConfigs` | src/symphony/workspace.py:380-416 | The config writes in order, up to the first that fails, and no ref movement |
| `Refresh.Git.FinishRefresh` | src/symphony/workspace.py:352-450 | After the merge no ref moves; True requires both refs read as the target before and again after the config writes |
| `Refresh.Git.RefreshInPlace` | src/symphony/workspace.py:294-450 | Whatever other actors do between queries: refs only move forward; False means git was only read; an error means that at most one ref moved, to the target captured twice; True means the captured target was seen on both refs after the merge and again after the config writes, with the captured head its ancestor. Undisturbed, it succeeds exactly on a managed worktree whose branch is below the target branch, moves that branch to it, records it, and changes nothing else; and otherwise changes nothing |
| `Refresh.RefreshMovesOnce` | src/symphony/workspace.py:294-450 | Whether a refresh succeeds or raises, at most one ref moved, forward, to the captured target |
| `Refresh.NewCommit` | src/symphony/workspace.py:1184 | The walks git takes over a grown graph are those of its commits: a new commit reaches itself and what its parents reach, and no older ancestry changes |
| `ProcessTree.PollGroupGone` | src/symphony/_shell.py:486-496 | The polling loop is the specification function, for every answer the probe can give over time |
| `ProcessTree.TerminateProcessTree` | src/symphony/_shell.py:498-537 | The ladder with a moving clock computes exactly the status, the end time and the acts (probes, signals, waits) of the specification |
| `ProcessTree.SignalGroup` | src/symphony/_shell.py:521-537 | The TERM, wait, KILL, wait part of the ladder, against the specification |
| `ProcessTree.StatusMeansGone` | src/symphony/_shell.py:498-537 | For every sequence of probe answers a returned status means the group is gone |
| `ProcessTree.PolledGone` | src/symphony/_shell.py:486-496 | A poll that answers yes saw a group that is gone |
| `ProcessTree.GroupStatusMeansGone` | src/symphony/_shell.py:521-537 | The same for the ladder on a group that was seen alive |
| `ProcessTree.StatusIff` | src/symphony/_shell.py:498-537 | A status is given exactly when the last probe says that the group is gone and a return code is known; it is the return code at the end, or else what the last wait or an earlier look brought |
| `ProcessTree.SentIff` | src/symphony/_shell.py:498-537 | Exactly these signals are sent: one SIGTERM unless the first answer forbids it, and one SIGKILL where the answers of waits and probes up to the deadline leave the process or the group there |
| `ProcessTree.PollingIs` | src/symphony/_shell.py:486-496 | Polling probes at the start and then one pause after each probe that neither found the group gone nor passed the deadline |
| `ProcessTree.EndsWithPolling` | src/symphony/_shell.py:498-537 | Past the first answer the ladder always ends with polling: five seconds after a SIGKILL to a group it could see, else two |
| `ProcessTree.EverySignalIsWaitedFor` | src/symphony/_shell.py:501-533 | Each signal is followed by a wait of two or five seconds, unless the leader has been reaped by then |
| `ProcessTree.ActsAreTrue` | src/symphony/_shell.py:486-537 | What the ladder goes by is what the host answered at that time |
| `ProcessTree.OtherSignalsSafe` | src/symphony/_shell.py:501-521 | SIGTERM, and the SIGKILL for a group ps could not describe, never go to a group whose reaped leader has a missing or changed identity |
| `ProcessTree.AllSignalsSafeIff` | src/symphony/_shell.py:516-537 | All signals are safe in that sense if and only if the escalation does not meet a leader reaped meanwhile whose identity is missing or changed |
| `ProcessTree.UnsafeKillExists` | src/symphony/_shell.py:527-531 | A leader that exits on SIGTERM while another member lives on: the SIGKILL is sent without asking for the identity again |
| `ProcessTree.TerminationBounded` | src/symphony/_shell.py:486-537 | The ladder always ends within its bounded waits |
| `ProcessTree.PollingBounded` | src/symphony/_shell.py:486-496 | Polling ends within its deadline plus one sleep and one probe |
| `ProcessTree.GroupBounded` | src/symphony/_shell.py:521-537 | The signalling part ends within its share of the bound |
| `PerTurn.PerTurnBackend.EnterRunTurn` | src/symphony/backends/per_turn.py:276-282 | A turn is accepted exactly when the backend is open and holds no child |
| `PerTurn.PerTurnBackend.TrackProcess` | src/symphony/backends/per_turn.py:400-402 | The early callback holds the supervisor while the launch is still in progress |
| `PerTurn.PerTurnBackend.SpawnReturned` | src/symphony/backends/per_turn.py:365-368 | Ownership is recorded before the next await |
| `PerTurn.PerTurnBackend.SpawnRaised` | src/symphony/backends/per_turn.py:378-386 | A failed launch cleans up the child it owns, if any |
| `PerTurn.PerTurnBackend.SpawnFoundNothing` | src/symphony/backends/per_turn.py:376-377 | A child created before a FileNotFoundError stays held |
| `PerTurn.PerTurnBackend.LaunchPublished` | src/symphony/backends/per_turn.py:287-294 | After publication a closed backend reaps the child instead of driving the turn |
| `PerTurn.PerTurnBackend.DriveEnded` | src/symphony/backends/per_turn.py:294-312 | Every way a turn ends goes through the final reap |
| `PerTurn.PerTurnBackend.ReapReturned` | src/symphony/backends/per_turn.py:291-312 | A confirmed reap lets go of the child; any other keeps it held |
| `PerTurn.PerTurnBackend.Stop` | src/symphony/backends/per_turn.py:230-238 | Stop closes the backend and waits exactly when a child is held |
| `PerTurn.PerTurnBackend.StopReturned` | src/symphony/backends/per_turn.py:236-244 | Stop lets go only on a confirmed reap and raises otherwise |
| `PerTurn.StepKeepsInvariant` | src/symphony/backends/per_turn.py:230-398 | Every event in every state keeps the ownership invariant, except a turn accepted while another call is in progress |
| `PerTurn.RunKeepsInvariant` | src/symphony/backends/per_turn.py:230-398 | The ownership invariant holds over every run in which no turn is accepted while another call is in progress |
| `PerTurn.ChildrenAreOwned` | src/symphony/backends/per_turn.py:230-398 | In every such interleaving of turns, launches, reaps and stops a child not confirmed gone is the one held, and there is at most one |
| `PerTurn.SpawnOnlyWhenFree` | src/symphony/backends/per_turn.py:276-282 | In such runs a child is created only when none is held and every earlier one is confirmed gone |
| `PerTurn.TurnIsSafeIff` | src/symphony/backends/per_turn.py:276-312 | At any point of such a run: a turn that is accepted keeps every child owned whatever follows if and only if no other call is in progress |
| `PerTurn.SecondLaunchLosesFirst` | src/symphony/backends/per_turn.py:276-368 | A turn accepted while another is launching: the second child takes the place of the first, which nothing holds any more |
| `PerTurn.ClosedForGood` | src/symphony/backends/per_turn.py:230-293 | Once closed with no launch in flight, no child is ever created again |
| `PerTurn.StoppedMeansGone` | src/symphony/backends/per_turn.py:230-244 | In such runs closed, idle and holding nothing means every child ever created is gone, for the rest of every run |
| `PerTurn.GoneIff` | src/symphony/backends/per_turn.py:291-312 | Over every run: a child is confirmed gone if and only if some reap of it was confirmed |
| `PerTurn.HeldIsWorkedOn` | src/symphony/backends/per_turn.py:276-398 | Over every run: the child held belongs to a call in progress, unless that call gave up on it |
| `PerTurn.RestMeansReaped` | src/symphony/backends/per_turn.py:276-312 | Over every orderly run, with no call in progress: a child still held is one whose own call gave up on it, by a reap that was not confirmed or a launch that found no file; every other child was reaped and is confirmed gone |
| `PerTurn.ConfirmedReapsLeaveNothing` | src/symphony/backends/per_turn.py:276-312 | So with every reap confirmed and no launch missing its file nothing is held at rest and every child ever created is gone |
| `PerTurn.CallEndsByReap` | src/symphony/backends/per_turn.py:276-312 | A call that has its child is over only by a reap of that child, or because the launch found no file, or because a stop has seen the child go |
| `PerTurn.StopWaitsForReap` | src/symphony/backends/per_turn.py:230-244 | A stop on a held child waits for its reap, whatever happens meanwhile |
| `PerTurn.ReapedTurnMakesRoom` | src/symphony/backends/per_turn.py:276-312 | After a confirmed reap, of a turn or of a failed launch, the next turn is accepted |
| `PerTurn.TrackedIsReaped` | src/symphony/backends/per_turn.py:348-402 | A supervisor shown by the early callback is held and counted, and a launch that then fails goes on to its reap |
| `PerTurn.MissingFileStrands` | src/symphony/backends/per_turn.py:276-398 | A launch that finds no file after its child came up: the child stays held and every turn is refused until a stop reaps it |
| `PerTurn.ClosedNeverDrives` | src/symphony/backends/per_turn.py:287-293 | Once closed no turn starts to run, whatever launches come to their end |
| `PerTurn.ClosedIff` | src/symphony/backends/per_turn.py:230-238 | Over every run: closed if and only if stop was called |
| `PerTurn.UnconfirmedIff` | src/symphony/backends/per_turn.py:230-312 | Over every run: the cleanup counts as unconfirmed if and only if some reap left it in doubt and none since cleared it |
| `OpenCode.FramesLossless` | src/symphony/backends/opencode.py:112-127 | The published frames put together are the stream |
| `OpenCode.FramesAreLines` | src/symphony/backends/opencode.py:119-126 | Every frame but the last ends at its only line feed, and the last has none unless it ends the stream |
| `OpenCode.CutAppend` | src/symphony/backends/opencode.py:116-124 | Cutting complete frames off a growing buffer gives the frames of the whole: chunk boundaries do not show |
| `OpenCode.PublishAll` | src/symphony/backends/opencode.py:129-154 | Publishing completes exactly when no event names another session than the expected one, and then leaves nothing out |
| `OpenCode.PublishAppend` | src/symphony/backends/opencode.py:129-154 | Publishing a list of events in two parts is publishing it at once |
| `OpenCode.PublishedIsMaximum` | src/symphony/backends/opencode.py:156-164 | Each event ends up published max(streamed count, batch count) times |
| `OpenCode.UnmatchedCounts` | src/symphony/backends/opencode.py:158-164 | The reconciliation loop publishes exactly the multiset difference of batch and stream |
| `OpenCode.UsageOfMultiset` | src/symphony/backends/opencode.py:255-300 | Usage depends only on how often each event is published, not on the order |
| `OpenCode.FinalUsage` | src/symphony/backends/opencode.py:156-165 | Final usage is the sum over the maximum multiset of streamed and batch events, for every order of publication |
| `OpenCode.NoDoubleCounting` | src/symphony/backends/opencode.py:156-165 | When stream and batch decode to the same events the batch adds nothing and each event is counted once |
| `OpenCode.OpenCodeBackend.ResumeSession` | src/symphony/backends/opencode.py:83-91 | An accepted resume fixes the expected session and clears its confirmation |
| `OpenCode.OpenCodeBackend.PublishEvent` | src/symphony/backends/opencode.py:135-154 | Publishing adopts only the expected session while one is expected; the session is always the last one an accepted event named since it was selected; and the event is added to usage |
| `OpenCode.OpenCodeBackend.PublishFrame` | src/symphony/backends/opencode.py:129-133 | Each decoded event of a frame is published and counted |
| `OpenCode.OpenCodeBackend.PublishComplete` | src/symphony/backends/opencode.py:119-124 | The inner loop publishes every complete frame and keeps the tail |
| `OpenCode.OpenCodeBackend.ReadStdout` | src/symphony/backends/opencode.py:112-127 | For every way of cutting stdout into chunks: the same frames are published, the output is the concatenation, and the counts are those of the published events |
| `OpenCode.OpenCodeBackend.CompleteTurn` | src/symphony/backends/opencode.py:156-172 | Completion publishes what the stream did not, and succeeds exactly when all of it is accepted and, for a session being resumed, some event published since the resume named it |
| `OpenCode.OpenCodeBackend.DriveTurn` | src/symphony/backends/per_turn.py:314-337 | A whole turn: for every way of cutting stdout into chunks a completed turn adds to the usage the sum over the maximum of the streamed and the batch events, and it completes exactly when everything is accepted, the exit status is 0, there is output, and a session being resumed was named since |
| `OpenCodeMeaning.UsageMeans` | src/symphony/backends/opencode.py:260-300 | What one usage dictionary reports: input tokens with the cached ones, output tokens, and the total given or else their sum |
| `OpenCodeMeaning.FirstIntMeans` | src/symphony/backends/opencode.py:355-367 | The first key in order that holds an integer other than zero, else zero |
| `OpenCodeMeaning.SumIntsMeans` | src/symphony/backends/opencode.py:369-378 | The positive integers among the keys, added up |
| `OpenCodeMeaning.CachedMeans` | src/symphony/backends/opencode.py:260-300 | Cached tokens are those given outright, or else all the parts, in the dictionary and in its cache |
| `OpenCodeMeaning.ValueUsageIsSum` | src/symphony/backends/opencode.py:255-353 | The usage of an event is the sum over the dictionaries found in it |
| `OpenCodeMeaning.FoundIff` | src/symphony/backends/opencode.py:342-353 | A dictionary is found in a value if and only if it has a token key and a way of items and known keys leads to it |
| `OpenCodeMeaning.DecodeMeans` | src/symphony/backends/opencode.py:207-232 | The events of a text are the objects of its one document, or else of its lines, in order, and nothing else |
| `OpenCodeMeaning.SessionMeans` | src/symphony/backends/opencode.py:307-321 | An event names the session it carries itself, else the one under session, else the one under data, and none exactly when none of these does |
| `Template.ParsePrinted` | src/symphony/prompt.py:88-179 | Parsing the tokens of a printed well-formed tree gives back that tree and stops at its end, in every kind of block and whatever follows |
| `Template.PrintThenParse` | src/symphony/prompt.py:88-179 | At top level the parser undoes the printer and consumes every token |
| `Template.ParsePrintedNode` | src/symphony/prompt.py:92-179 | The same for one node at the head of a block |
| `TemplateLaws.ParseThenPrint` | src/symphony/prompt.py:88-179 | The parser accepts a token list only as the spelling of a well-formed tree: printing gives the list back in canonical form (outside raw text), and parsing that gives the same tree |
| `TemplateLaws.PrintReturnsTokensIff` | src/symphony/prompt.py:88-179 | Printing what was parsed gives the very tokens back if and only if every tag outside raw blocks is spelled as printed and every raw block holds at most one text |
| `TemplateLaws.PrintInjective` | src/symphony/prompt.py:88-179 | Two well-formed trees with the same tokens are the same tree |
| `TemplateLaws.PrintParsed` | src/symphony/prompt.py:88-179 | Printing what a block parsed, followed by what it left, is the canonical form of its tokens |
| `TemplateParser.ParseBlockFrom` | src/symphony/prompt.py:88-179 | The index-based parser always advances and terminates, and computes the specification; at top level it consumes every token or fails |
| `TemplateParser.ParseTagFrom` | src/symphony/prompt.py:103-176 | One tag of the block loop, against the specification |
| `TemplateParser.ParseIfTail` | src/symphony/prompt.py:110-141 | The loop over elsif, else and endif, against the specification |
| `TemplateParser.ParseRawFrom` | src/symphony/prompt.py:154-174 | The raw loop, against the specification |
| `TemplateLexer.LexText` | src/symphony/prompt.py:67-80 | The lexing loop with its two positions computes the specification |
| `TemplateLexer.ParseText` | src/symphony/prompt.py:67-85 | Lexing and parsing a text at top level, with the trailing-token check |
| `TemplateLexer.LexSource` | src/symphony/prompt.py:67-80 | Spelling tokens out and lexing the text gives the tokens back |
| `TemplateLexer.SourceThenParse` | src/symphony/prompt.py:67-179 | Writing a tree out as text and parsing the text gives the tree |
| `TemplateLexer.RawIsVerbatimIff` | src/symphony/prompt.py:67-175 | For every opening raw tag and every text after it: the parser ends the block where the text does and keeps at most the text of the block; it keeps all of it if and only if every output and tag matched inside is free of blanks inside its marks |
| `TemplateLexer.RawReading` | src/symphony/prompt.py:73-174 | The same for the raw loop itself, on every text: no longer than the text, as long exactly without padding, and equal to it then |
| `TemplateLexer.PieceShrinks` | src/symphony/prompt.py:73-171 | What a raw block keeps of one match is never longer than the match, and as long only without padding |
| `TemplateLexer.RawDropsPadding` | src/symphony/prompt.py:73-171 | A raw block with one padded output or tag loses the blanks inside its marks |
| `TemplateExpr.SplitLoop` | src/symphony/prompt.py:277-303 | The quote-aware scanning loop computes the recursive split |
| `TemplateExpr.SplitIsLossless` | src/symphony/prompt.py:277-303 | Whatever the quoting, putting the separators back between the pieces gives the expression |
| `TemplateExpr.SplitJoined` | src/symphony/prompt.py:277-303 | Pieces with no open quote or bare separator, joined, are split back into the same pieces |
| `TemplateExpr.ArgsRoundTrip` | src/symphony/prompt.py:325-352 | Arguments written with commas are read back as the same arguments, the empty list too |
| `TemplateExpr.FilterRoundTrip` | src/symphony/prompt.py:306-322 | A printed filter is read back with its name and arguments |
| `TemplateExpr.OutputRoundTrip` | src/symphony/prompt.py:306-322 | A printed output expression is read back as the same value, filters and arguments |
| `TemplateMeaning.MatchForIff` | src/symphony/prompt.py:143-148 | A loop tag is accepted if and only if its operand is a name, white space, the word in, white space and an expression on one line; and it binds that name over that expression |
| `TemplateMeaning.IdentIff` | src/symphony/prompt.py:145 | A name is a letter or underscore followed by letters, underscores and digits |
| `TemplateMeaning.QuotesProtect` | src/symphony/prompt.py:277-303 | Anything between single or double quotes, separators and escaped marks included, stays in one piece |
| `TemplateMeaning.FirstBadTagFails` | src/symphony/prompt.py:88-176 | After any well-formed nodes the first bad tag gives its own error, whatever comes later |
| `TemplateMeaning.MissingEndFails` | src/symphony/prompt.py:177-179 | A body that ends with the template reports its missing end tag |
| `TemplateMeaning.EmptyElsifFails` | src/symphony/prompt.py:117-124 | An elsif without a condition is an error, after any first branch |
| `TemplateRender.RenderNodes` | src/symphony/prompt.py:395-432 | The rendering loop computes the specification, whose meaning is `RenderMeaning.RenderMeans` |
| `TemplateRender.RenderOne` | src/symphony/prompt.py:398-431 | One node, against the specification |
| `TemplateRender.ChooseBranch` | src/symphony/prompt.py:406-412 | Conditions are evaluated in order and none after the first that holds |
| `TemplateRender.RepeatBody` | src/symphony/prompt.py:425-429 | The body is rendered once per item in a copy of the environment |
| `RenderMeaning.RenderMeans` | src/symphony/prompt.py:395-432 | For all trees, environments and languages: rendering is Ok(s) if and only if the nodes give s by a relation of their own, in which s is the nodes' pieces in order |
| `RenderMeaning.NodeMeans` | src/symphony/prompt.py:398-431 | One node: text and raw text give themselves, an output what its expression gives, an if the body of the first branch whose condition holds with all earlier ones false, else the else body or nothing |
| `RenderMeaning.BranchesMean` | src/symphony/prompt.py:405-414 | The branch taken is the first whose condition holds, with every earlier condition false |
| `RenderMeaning.LoopMeans` | src/symphony/prompt.py:415-429 | A loop gives one copy of its body for each item, in item order, with that item bound; nothing for nil; an error for what has no items |
| `RenderMeaning.ItemsMean` | src/symphony/prompt.py:415-424 | What a loop runs over: the items of a list, the pairs of a dictionary in order, nothing for nil |
| `RenderMeaning.ValueMeans` | src/symphony/prompt.py:210-274 | A token stands for its literal, or for what its name and then each step lead to |
| `RenderMeaning.OutputMeans` | src/symphony/prompt.py:306-322 | An output gives its value put through each filter in order |
| `RenderMeaning.ConditionMeans` | src/symphony/prompt.py:355-366 | A condition holds or not: a comparison at the first ==, else the first !=, else the opposite of what stands behind a !, else whether the value counts as true |
| `RenderMeaning.TruthyMeans` | src/symphony/prompt.py:369-376 | A value counts as true exactly when it is not nil, false, zero or empty |
| `RenderMeaning.UnequalIsNotEqual` | src/symphony/prompt.py:358-363 | a != b holds exactly when a == b is false, and both fail together |
| `RenderMeaning.BangNegates` | src/symphony/prompt.py:364-366 | !a holds exactly when a does not |
| `RenderMeaning.PlainTextRenders` | src/symphony/prompt.py:67-432 | A text in which the lexer finds no mark, lexed, parsed and rendered, is that text |
| `RenderScopes.RenderAppend` | src/symphony/prompt.py:395-432 | A template renders piece by piece in one environment: what a loop binds is gone after it |
| `RenderScopes.RenderAgrees` | src/symphony/prompt.py:253-432 | Rendering, output or error, depends only on the template's free names; a loop binds its variable in its body |
| `RenderStrictness.RenderIsStable` | src/symphony/prompt.py:210-432 | Once a template renders, further definitions never change its output: nothing undefined was read as empty |
| `RenderStrictness.UndefinedOutputFails` | src/symphony/prompt.py:253-274 | An output whose value names an undefined variable fails whatever stands before and after it in its list |
| `RenderStrictness.UndefinedNameFails` | src/symphony/prompt.py:253-432 | A template that gets to an undefined name does not render, however deep in chosen branches and loop bodies, and whether the name is an output's, a filter argument's, a condition's or a loop's |
| `RenderScopes.ConditionAgrees` | src/symphony/prompt.py:355-366 | A condition depends only on the names of its operands |
| `RenderScopes.FiltersAgree` | src/symphony/prompt.py:306-322 | A filter chain depends only on the names of its arguments |
| `Board.FilingKeepsAcyclic` | src/symphony/continuous_improvement.py:946-989 | Creating a ticket with no blockers and making it block another closes no dependency cycle |
| `Board.FilingKeepsSound` | src/symphony/continuous_improvement.py:946-989 | Filing a fix for a source without one keeps every edge and the one-open-fix rule |
| `Board.ReopeningKeepsSound` | src/symphony/continuous_improvement.py:1026-1079 | Handing sources back changes no edge and opens no closed ticket |
| `Board.NormalMoveKeepsSound` | src/symphony/continuous_improvement.py:1082-1139 | So do ticket moves that keep edges, keep closed tickets closed and add no cycle |
| `Board.NeedsFixIsUnfixed` | src/symphony/continuous_improvement.py:1096-1106 | A source the scan picks has no open fix ticket |
| `Board.FilingChanges` | src/symphony/continuous_improvement.py:888-989 | Filing for a source adds one open, labelled ticket without blockers, makes it the last blocker of its source, makes its marker and title seen, and changes nothing else |
| `Board.CollectedAgainIff` | src/symphony/continuous_improvement.py:1082-1139 | With its fix at some status, a source is collected once more if and only if it is stuck and nothing that blocks it is open |
| `Board.HandedBackIff` | src/symphony/continuous_improvement.py:1026-1079 | With its fix at some status, a source goes back to work if and only if it is blocked and the fix and all its other blockers are resolved; only its lane changes |
| `BoardRuns.StepKeepsInvariant` | src/symphony/continuous_improvement.py:888-1139 | From a guarded world every step of a heartbeat, a crash at any point, and every normal operator move, retitling included, keeps the board invariant and every edge; all but operator moves and crashes leave the world guarded |
| `BoardRuns.RunKeepsBoardSound` | src/symphony/continuous_improvement.py:888-1139 | Over any run of heartbeats cut short anywhere, interleaved with normal moves, whose moves and crashes leave the world guarded: the graph stays acyclic, every edge stays, and no source has two open fix tickets |
| `BoardRuns.StepIsSafeIff` | src/symphony/continuous_improvement.py:888-1139 | A normal move or a crash is safe in every careful continuation if and only if it leaves the world guarded; every other step always is |
| `BoardRuns.FiledIsSeen` | src/symphony/continuous_improvement.py:909-969 | What a registration has filed, with or without a source, is seen from then on by its marker and by its title |
| `BoardRuns.UncutRunIsSound` | src/symphony/continuous_improvement.py:888-1139 | Whatever titles and markers are changed meanwhile, a run of heartbeats none of which dies is sound, and every open fix blocks its source or is about to, if no move leads a fix to its source before the link |
| `BoardRuns.SoundUnlessCut` | src/symphony/continuous_improvement.py:946-962 | Between heartbeats every open fix blocks its source, unless a run died after creating it |
| `BoardRuns.CrashLeavesFixUnlinked` | src/symphony/continuous_improvement.py:946-962 | A run that dies between creating a fix and linking it: the source does not list its fix and is collected again |
| `BoardRuns.CrashIsSafeIff` | src/symphony/continuous_improvement.py:909-962 | Dying there is safe in every careful continuation if and only if the fix, while both are open and unlinked, bears the marker or the title its source gives it now |
| `BoardRuns.RetitleIsSafeIff` | src/symphony/continuous_improvement.py:909-962 | A source whose open fix was cut off gets a new title between heartbeats: no careful continuation gives it a second fix if and only if the fix bears the marker or the title that goes with the new title |
| `BoardRuns.RetitleAfterCrashIsUnsafe` | src/symphony/continuous_improvement.py:909-962 | After such a crash a new title that changes both the marker and the title of the proposal leads to two open fixes |
| `BoardRuns.LinkKeepsAcyclicIff` | src/symphony/continuous_improvement.py:972-989 | Making a fix a blocker keeps the graph acyclic if and only if blockers do not lead from the fix to the source |
| `BoardRuns.LinkAfterMoveCycles` | src/symphony/continuous_improvement.py:972-989 | A fix that was given its source as blocker before the link: the link closes a cycle |
| `Board.ReopenedFixDuplicates` | src/symphony/continuous_improvement.py:1096-1106 | If an operator reopens a closed fix, one source can have two open fixes |
| `Board.ReopeningFixIff` | src/symphony/continuous_improvement.py:1096-1106 | Reopening a closed fix keeps the board sound if and only if its source has no open fix and still lists it as a blocker |
| `Board.FileBoard.FileProposal` | src/symphony/continuous_improvement.py:946-962 | A proposal is filed under an unused id and then linked |
| `Board.FileBoard.LinkBlocker` | src/symphony/continuous_improvement.py:972-989 | Additive, and nothing on a self-edge, a missing source or an existing edge |
| `Board.FileBoard.ReopenResolvedBlockedSources` | src/symphony/continuous_improvement.py:1026-1079 | Reopens exactly the blocked sources with a blocker, all blockers present and resolved, one of them with the `ci` label; nothing else changes |
| `Board.FileBoard.CollectBlockedFixProposals` | src/symphony/continuous_improvement.py:1082-1139 | Proposes exactly the stuck sources that no open ticket blocks, each once |
| `Board.FileBoard.RegisterProposals` | src/symphony/continuous_improvement.py:888-969 | Files exactly the proposals the dedupe-and-cap rule admits, in order and under new ids, counts the others and keeps every edge, whatever the proposals; the board stays sound if no source is repeated or already fixed |
| `Board.FilingAllSoundIff` | src/symphony/continuous_improvement.py:946-962 | Filing proposals for sources on the board keeps it sound if and only if no two are for one source and none is for a source with an open fix |
| `Board.RegistrationLaws` | src/symphony/continuous_improvement.py:909-969 | At most the cap is filed; filed proposals repeat neither each other nor an open ticket, by marker or title; created, duplicate and skipped counts cover all proposals |
| `Board.CreditIsRightIff` | src/symphony/continuous_improvement.py:1732-1752 | Crediting the k-th ticket to the k-th proposal is right for every ticket if and only if no filed proposal comes after one that was not filed |
| `Board.ModeCreditIsRightIff` | src/symphony/continuous_improvement.py:1732-1752 | Every mode is credited with exactly the tickets filed for its proposals if and only if the modes of the filed proposals are, in order, those of the first ones |
| `Board.WrongModeCredited` | src/symphony/continuous_improvement.py:1732-1752 | A duplicate of one mode before a filed proposal of another: the ticket is credited to the mode that filed nothing |
| `Board.AttributeTickets` | src/symphony/continuous_improvement.py:1743-1752 | The attribution loop gives the k-th ticket to the mode of the k-th proposal, for any number of tickets |
| `Board.FirstFree` | src/symphony/continuous_improvement.py:836-848 | The first free number: unused, with every smaller one from the start in use |
| `Lease.FileLease.Acquire` | src/symphony/continuous_improvement.py:1862-1884 | Two tries at exclusive creation: the result, the file and the memory of the specification |
| `Lease.FileLease.Refresh` | src/symphony/continuous_improvement.py:1886-1892 | Renews only a file it owns, and gives the lease up when it does not |
| `Lease.FileLease.Release` | src/symphony/continuous_improvement.py:1894-1903 | Removes only a file it owns |
| `Lease.HeldIff` | src/symphony/continuous_improvement.py:1862-1903 | Who holds after a call and what it leaves in the file: an acquire gets a lease that is free, lapsed, corrupt or unreadable, a refresh keeps and renews only its own, a release removes only its own |
| `Lease.RefreshingKeepsLease` | src/symphony/continuous_improvement.py:1862-1892 | Over every run in which the holder only refreshes, and nobody looks as late as a lease's length after the last refresh: it keeps the lease, the file is its last refresh, and nobody else gets to hold |
| `Lease.ReleaseHandsOver` | src/symphony/continuous_improvement.py:1862-1903 | A lease that its holder releases is there for the next to take, whatever the clocks say |
| `Lease.NextKeepsInvariant` | src/symphony/continuous_improvement.py:1846-1903 | With a forward clock and a readable file, any call by any process keeps: a fresh holder's last payload is the file |
| `Lease.OneFreshHolder` | src/symphony/continuous_improvement.py:1846-1903 | Over every run of calls with a forward clock and successful staleness reads, no two leases are held with a last write younger than the TTL |
| `Lease.TwoFreshMeansStepBack` | src/symphony/continuous_improvement.py:1846-1903 | Over every run with any clock and successful staleness reads: two leases are fresh at once only if the clock ends below the highest reading at which a file was taken over as stale |
| `Lease.TwoFreshIff` | src/symphony/continuous_improvement.py:1846-1903 | For every highest takeover reading and every last reading, some such run ends with two fresh leases if and only if the last reading is the lower one |
| `Lease.StepBackAfterTakeover` | src/symphony/continuous_improvement.py:1846-1903 | A takeover in order, then a call with a clock that stepped back: two leases are fresh though no call took a fresh one |
| `Lease.StolenFreshIff` | src/symphony/continuous_improvement.py:1853-1860 | A call ends another's fresh hold of the file if and only if it acquires over a file it failed to read |
| `Lease.UnreadableStealsFresh` | src/symphony/continuous_improvement.py:1853-1884 | A fresh lease and an acquire that cannot read the file: two leases are fresh and the file is the second one's |
| `Lease.TakenWhileFreshIff` | src/symphony/continuous_improvement.py:1853-1884 | One call, any clock, a readable file: a call by another takes the file of a lease that is fresh right after it if and only if it acquires, and the clock is past the lease's end at the check and before it at the write |
| `Lease.LostLeaseIsHarmless` | src/symphony/continuous_improvement.py:1886-1903 | Until it acquires again, a lease whose file was stolen never changes the file, over any run |
| `Lease.FileReplacedIff` | src/symphony/continuous_improvement.py:1862-1884 | Another's file is replaced if and only if the caller does not hold and the file is stale or unreadable |
| `Lease.AcquireAnswer` | src/symphony/continuous_improvement.py:1862-1864 | Acquire's yes is right except when the lease was held already and its file was taken meanwhile |
| `Lease.HeldAnswersBlindly` | src/symphony/continuous_improvement.py:1862-1864 | A held lease whose file is another's answers yes to acquire |
| `Lease.BackwardClockBreaks` | src/symphony/continuous_improvement.py:1853-1860 | With a clock that steps back two leases can be fresh at once |
| `AcpProcess.AcpBackend.EnterStart` | src/symphony/backends/acp.py:165-169 | A start is refused when closed or when a cleanup is unconfirmed, and only then |
| `AcpProcess.AcpBackend.SpawnReturned` | src/symphony/backends/acp.py:185-206 | The process is held before the launch is published |
| `AcpProcess.AcpBackend.LaunchRaised` | src/symphony/backends/acp.py:209-214 | A failed launch goes on to clean up the process still held |
| `AcpProcess.AcpBackend.LaunchFoundNothing` | src/symphony/backends/acp.py:207-208 | A process created before a FileNotFoundError stays held |
| `AcpProcess.AcpBackend.LaunchPublished` | src/symphony/backends/acp.py:206-230 | A start goes on exactly when a process is still held, and a restarted turn with it |
| `AcpProcess.AcpBackend.LaunchCleanupReturned` | src/symphony/backends/acp.py:211-227 | Only a confirmed cleanup lets go of the process |
| `AcpProcess.AcpBackend.EnterRunTurn` | src/symphony/backends/acp.py:309-318 | A turn is refused when closed or unconfirmed; a dead process is reaped before a relaunch |
| `AcpProcess.AcpBackend.AbortTurn` | src/symphony/backends/acp.py:420-436 | The abort reaps the process held after the grace |
| `AcpProcess.AcpBackend.AbortReturned` | src/symphony/backends/acp.py:435-445 | Only a confirmed reap lets go; any other blocks further launches |
| `AcpProcess.AcpBackend.RestartReturned` | src/symphony/backends/acp.py:481-487 | A relaunch happens only after a confirmed reap |
| `AcpProcess.AcpBackend.Relaunch` | src/symphony/backends/acp.py:488-489 | A restart looks at the closed and unconfirmed flags again before it spawns |
| `AcpProcess.AcpBackend.Stop` | src/symphony/backends/acp.py:352-356 | Stop closes and waits exactly when a process is held |
| `AcpProcess.AcpBackend.StopReapReturned` | src/symphony/backends/acp.py:356-360 | Stop lets go only on a confirmed reap |
| `AcpProcess.AcpBackend.StopFailed` | src/symphony/backends/acp.py:361-364 | An unconfirmed stop blocks further launches |
| `AcpProcess.StepKeepsInvariant` | src/symphony/backends/acp.py:165-508 | Every event in every state keeps the ownership invariant, except a start or run_turn accepted where it does not fit |
| `AcpProcess.RunKeepsInvariant` | src/symphony/backends/acp.py:165-508 | The ownership invariant is kept in every run whose calls fit (a start finds no live process and only quiet calls; a turn finds no process and only quiet calls, a live one and no restart, or a dead one and no other call) |
| `AcpProcess.LaunchedIsHeld` | src/symphony/backends/acp.py:165-508 | In every such interleaving, overlapping calls included, a launched process not confirmed gone is the one held, and there is at most one |
| `AcpProcess.StartIsSafeIff` | src/symphony/backends/acp.py:165-230 | At any point of such a run: an accepted start loses no process whatever fitting events follow if and only if no live process is held and no call is about to launch or to let go of one |
| `AcpProcess.TurnIsSafeIff` | src/symphony/backends/acp.py:309-508 | At any point of such a run: an accepted run_turn loses no process if and only if it finds none held and only quiet calls, a live one while no call restarts, or a dead one while no other call is in progress |
| `AcpProcess.SecondProcessLosesFirst` | src/symphony/backends/acp.py:165-206 | A start taken while a live process is held: the process it creates takes the place of the live one, which nothing holds any more |
| `AcpProcess.LaunchOnlyWhenFree` | src/symphony/backends/acp.py:165-170 | In such runs a process is launched only when all earlier ones are confirmed gone |
| `AcpProcess.UnconfirmedForGood` | src/symphony/backends/acp.py:165-170 | In such runs, once a cleanup is unconfirmed nothing is launched again, for the rest of every run |
| `AcpProcess.StoppedMeansGone` | src/symphony/backends/acp.py:352-364 | Closed, idle and holding nothing means everything is gone for good |
| `AcpProcess.StopDuringSpawnLeavesProcess` | src/symphony/backends/acp.py:165-230 | A stop that comes while start is spawning leaves a live process held after both are done |
| `AcpProcess.StopIsFinalUnlessSpawning` | src/symphony/backends/acp.py:165-364 | In every state: after a stop some continuation can still launch a process if and only if a spawn is in progress |
| `AcpProcess.ClosedForGood` | src/symphony/backends/acp.py:165-364 | Once closed with no spawn in progress, nothing is launched in any continuation |
| `AcpProcess.ReapsDecide` | src/symphony/backends/acp.py:183-225 | Over every run: a process is confirmed gone if and only if some reap of it was confirmed, and the backend refuses further launches if and only if some cleanup was reported unconfirmed |
| `AcpProcess.ReapsUntilAnswered` | src/symphony/backends/acp.py:183-508 | A call that is reaping a process goes on with that until its reap is answered |
| `AcpProcess.FailuresReap` | src/symphony/backends/acp.py:183-508 | A failed launch, an aborted turn and a dead process found by a turn each go on to the reap of the process held; its answer ends the call, or for a confirmed restart leads to the relaunch |
| `AcpProcess.StopWaitsForReap` | src/symphony/backends/acp.py:352-368 | A stop on a held process waits for its reap, whatever happens meanwhile |
| `AcpProcess.UnconfirmedStopRaises` | src/symphony/backends/acp.py:356-368 | A stop whose reap was not confirmed is over only by raising, which blocks further launches |
| `AcpProcess.StopReportsIff` | src/symphony/backends/acp.py:352-368 | A stop has an unconfirmed cleanup to report if and only if its own reap was not confirmed |
| `AcpProcess.WholeLife` | src/symphony/backends/acp.py:165-368 | A start, a turn and a stop, each with its reap confirmed, leave nothing behind |
| `AcpProcess.RelaunchRuns` | src/symphony/backends/acp.py:309-508 | A run_turn without a process launches one and then runs; a start is over once its process is up and held |
| `AcpProcess.MissingFileKeepsProcess` | src/symphony/backends/acp.py:165-231 | A launch that finds no file after its process came up leaves it held and unreaped, with later calls let in: a run_turn that finds it dead reaps it, a start puts the next one in its place |
| `AcpRpc.RequestTable.RegisterRequest` | src/symphony/backends/acp.py:530-533 | A request takes the next id and is in the table before anything of it is written |
| `AcpRpc.RequestTable.WriteReturned` | src/symphony/backends/acp.py:534-541 | A closed pipe takes the request back; any other end of the write leaves it in the table |
| `AcpRpc.PendingIff` | src/symphony/backends/acp.py:525-558 | In every run a request is pending exactly from its registration, while it is still being written, until its caller forgets it or finds the pipe closed |
| `AcpRpc.ReplyDuringWrite` | src/symphony/backends/acp.py:533-541 | A response read while the request is being written reaches it, and stands whether or not the write then fails |
| `AcpRpc.RequestTable.ReadLine` | src/symphony/backends/acp.py:595-611 | One line of the reader: malformed lines are counted in a row, any other resets the count |
| `AcpRpc.RequestTable.Dispatch` | src/symphony/backends/acp.py:640-646 | A response settles the pending request its id names, and nothing else |
| `AcpRpc.RequestTable.FailPending` | src/symphony/backends/acp.py:612-622 | The reader's end fails every pending request that still waits |
| `AcpRpc.RequestTable.ForgetRequest` | src/symphony/backends/acp.py:348-349 | A caller that is done takes its request out of the table |
| `AcpRpc.IdsAreNeverReused` | src/symphony/backends/acp.py:530-531 | In every run the next id was never used, also across restarts |
| `AcpRpc.SettledIff` | src/symphony/backends/acp.py:595-646 | The future of a request is settled if and only if it waits and either its caller's wait runs out, or it is pending and a response carrying its id is read or the stream ends |
| `AcpRpc.LateReplyIsLost` | src/symphony/backends/acp.py:543-558 | A response read after the caller's timeout settles nothing although the request is still in the table |
| `AcpRpc.RequestTable.WaitTimedOut` | src/symphony/backends/acp.py:548-555 | A wait that runs out cancels the future and leaves the request in the table |
| `AcpRpc.ReplyWasForRequest` | src/symphony/backends/acp.py:640-646 | Over any run a reply reached its request as a response with that id, read while the request was pending |
| `AcpRpc.OutcomeIsFinal` | src/symphony/backends/acp.py:612-646 | An outcome never changes afterwards |
| `AcpRpc.OwnIdIff` | src/symphony/backends/acp.py:643 | The response carries the very id that was sent if and only if its id is not a JSON boolean |
| `AcpRpc.TrueAnswersFirstRequest` | src/symphony/backends/acp.py:643 | A response with id `true` settles request 1 |
| `AcpRpc.OnlyIntegersAndTrueAnswer` | src/symphony/backends/acp.py:640-659 | Over every run: messages with a method, and ids that are absent, false, text or fractions settle nothing |
| `AcpRpc.EndFailsAllPending` | src/symphony/backends/acp.py:612-622 | Nothing pending is left waiting when the stream ends |
| `AcpRpc.StrayMessagesSettleNothing` | src/symphony/backends/acp.py:640-659 | Late and unknown responses, and agent requests whatever their id, settle nothing |
| `AcpRpc.TenMalformedEnd` | src/symphony/backends/acp.py:600-607 | Ten malformed lines in a row end the stream, blank lines between them or not, and fewer do not |
| `Codex.CodexBackend.EnterRunTurn` | src/symphony/backends/codex.py:541-678 | The waiter is armed before the request is registered, and that before its bytes are written |
| `Codex.CodexBackend.WriteReturned` | src/symphony/backends/codex.py:677-683 | A write that finds the pipe closed takes the request back; one that ends in another exception leaves it, and both end the turn in failure |
| `Codex.CodexBackend.ArmCompletionWaiter` | src/symphony/backends/codex.py:580-586 | A fresh waiter is in place before the send |
| `Codex.CodexBackend.HandleLine` | src/symphony/backends/codex.py:714-744 | One line of the reader; an id that is pending is matched before anything else |
| `Codex.CodexBackend.FailEverything` | src/symphony/backends/codex.py:745-763 | The reader's end fails the pending request and the waiter |
| `Codex.CodexBackend.Resume` | src/symphony/backends/codex.py:597-654 | What the caller does with a settled future |
| `Codex.CodexBackend.GiveUp` | src/symphony/backends/codex.py:603-628 | A timeout ends the turn only while its future is still waiting |
| `Codex.CodexBackend.LeaveRunTurn` | src/symphony/backends/codex.py:556-557 | The waiter is dropped whenever the turn is over |
| `Codex.WaiterIsSettled` | src/symphony/backends/codex.py:541-633 | From before the send, in every interleaving with the write, the reader and timeouts, the waiter holds exactly what the first turn/completed read, or the reader's own end, settled it with |
| `Codex.NoLostWakeup` | src/symphony/backends/codex.py:588-633 | A caller awaiting completion can go on if and only if turn/completed was read or the reader ended since the waiter was armed, before or after the inProgress reply; the end means failure |
| `Codex.StillWaitingMeansReadingOrKilled` | src/symphony/backends/codex.py:708-763 | A waiter left unsettled means the reader is still reading or was killed |
| `Codex.EndBreaksRequest` | src/symphony/backends/codex.py:745-763 | When the reader ends, during the write too, the waiter and the pending request are settled with failure |
| `Codex.ReadingDuringWrite` | src/symphony/backends/codex.py:676-763 | Whatever the reader does while the request is being written has the effect it would have had after the write |
| `Codex.FailedWriteFailsTurn` | src/symphony/backends/codex.py:677-683 | A write that is not completed ends the turn in failure, whatever was read meanwhile; only a closed pipe takes the request back |
| `Codex.TenMalformedClose` | src/symphony/backends/codex.py:727-733 | Ten malformed lines in a row close the connection, and fewer do not |
| `Codex.VerdictDisagreesIff` | src/symphony/backends/codex.py:607-654 | A reply is judged a success against the status it carries if and only if its turn has no status and the one beside it is interrupted, failed or unknown |
| `Codex.TurnOutcomeIff` | src/symphony/backends/codex.py:588-697 | Over every interleaving of one turn, on the events read alone: it times out if and only if it ends at its timeout; it succeeds if and only if it wakes to an answer of its own that carries a status of none or completed, or says in progress and the first settled completion carries one; it is cancelled if and only if that status is interrupted; anything else is a failure |
| `Codex.RefusedTurnFails` | src/symphony/backends/codex.py:692-697 | A turn answered by an error is a failure, whatever else is read |
| `Codex.AnswerWakes` | src/symphony/backends/codex.py:588-697 | A caller that waits for its reply goes on if and only if its own answer was read or the reader ended |
| `Codex.StreakIsRun` | src/symphony/backends/codex.py:714-744 | Over any lines that handling survives: a line that decodes starts the count of malformed ones anew, blank ones leave it, and the tenth in a row closes |
| `Codex.ClosedFailsTurns` | src/symphony/backends/codex.py:660-668 | On a closed connection every turn fails at once, with nothing sent |
| `Codex.TimedOutIsForgotten` | src/symphony/backends/codex.py:660-690 | The reply to a turn that ran out of time goes nowhere |
| `Codex.NothingWaitsBetween` | src/symphony/backends/codex.py:541-586 | Between turns nothing waits: a completion read then settles nothing in the next turn |
| `Codex.BareCompletionSucceedsIff` | src/symphony/backends/codex.py:597-618 | A completion without a turn object makes a success exactly of a turn whose reply had no status either |
| `Codex.FailedBesideNoTurnSucceeds` | src/symphony/backends/codex.py:607-618 | A reply that says `failed` beside a missing turn object is judged a success |
| `Codex.OwnCompletionIff` | src/symphony/backends/codex.py:597-604 | Over every interleaving of one turn: the waiter holds the turn's own completion if and only if the first completion read since it was armed is that turn's |
| `Codex.LateCompletionEndsNextTurn` | src/symphony/backends/codex.py:829-833 | A run of two turns: the first times out, and its late completion ends the second as a success |
| `Codex.KilledReaderLosesWakeup` | src/symphony/backends/codex.py:708-763 | A reader ended by an exception or a cancellation settles nothing it would have read, before the write ends or after |
| `Codex.StillReachableIff` | src/symphony/backends/codex.py:588-633 | A caller left waiting for its completion can still be told, by some continuation, if and only if the reader is reading |
| `FileTree.LastDirEmpty` | src/symphony/cli/eject.py:93-96 | With the created files gone, the directory created last is empty |
| `FileTree.Disk.MakeMissing` | src/symphony/cli/eject.py:78-85 | Missing parents are made outermost first and recorded one by one, also when a mkdir fails on the way |
| `FileTree.Disk.MissingUpFrom` | src/symphony/cli/eject.py:79-83 | The walk up lists exactly the missing ancestors, nearest first |
| `Eject.RollBack` | src/symphony/cli/eject.py:92-97 | Reverse-order unlink and rmdir restore the tree exactly; every rmdir succeeds |
| `Eject.Preflight` | src/symphony/cli/eject.py:65-76 | Accepts exactly when no destination exists and everything between it and the base is a directory or absent |
| `Eject.PlaceTarget` | src/symphony/cli/eject.py:78-90 | One target with its parents, content and mode, or a recorded part of it |
| `Eject.Eject` | src/symphony/cli/eject.py:45-98 | All or nothing: after any failure the tree is as before; after success the only changes are the targets, their new parent directories and the workflow file. Without faults, and with destinations apart from each other, it succeeds if and only if no destination exists and everything on the way is a directory or absent |
| `Eject.FillMissing` | src/symphony/cli/eject.py:23-42 | The in-place merge computes the specification |
| `Eject.FillKey` | src/symphony/cli/eject.py:24-42 | One key of the merge, against the specification |
| `Eject.FillingKeepsUserKeys` | src/symphony/cli/eject.py:23-42 | Every key the user wrote keeps its value; sections are extended at most, those under `stages` and `state_descriptions` not at all |
| `Eject.DefaultArrivesIff` | src/symphony/cli/eject.py:23-42 | A default the user has no setting for arrives if and only if nothing the user wrote stands on the way to it: no value, and no section that is left as written |
| `Eject.FillingIsIdempotent` | src/symphony/cli/eject.py:23-42 | Filling twice is filling once |
| `Eject.FilledFromNothing` | src/symphony/cli/eject.py:34-37 | Filling an empty section copies the defaults |
| `Bootstrap.CleanupCreated` | src/symphony/projects.py:873-889 | The tree is restored if and only if no copy failed half way; otherwise exactly the half-written file and its new parents remain |
| `Bootstrap.PartialCopyStays` | src/symphony/projects.py:543-559 | A copy that fails after creating its file in a directory made for it is not undone |
| `Bootstrap.UnrelatedIsEmpty` | src/symphony/projects.py:885-889 | A created directory that is no ancestor of the half-written file is empty when its turn to be removed comes |
| `Bootstrap.EnsureDirectory` | src/symphony/projects.py:529-540 | Absent parents are created and recorded; a file or link in the way is refused |
| `Bootstrap.CopyMissingFile` | src/symphony/projects.py:543-559 | Never over an existing file; a tracked file that is absent stays deleted; what is added is the file with its content and directories on the way |
| `Bootstrap.MergeMissingTree` | src/symphony/projects.py:562-592 | After a merge every bundle file is there unless its absence is tracked, everything present stayed as it was, and everything added is an entry of the bundle, with its content and untracked, or a directory on the way |
| `Bootstrap.CopyMappings` | src/symphony/projects.py:791-802 | Every mapped file is there unless its absence is tracked; everything added is an untracked mapped file with its content, the workflow filled in, or a directory on the way |
| `Bootstrap.AddBoard` | src/symphony/projects.py:803-810 | Beside what the mappings add, only the board directory, the way to it and an empty, untracked `.gitkeep` |
| `Bootstrap.BootstrapMissing` | src/symphony/projects.py:777-820 | The whole merge, with the rewrites of files it created and the skill link, adds nothing but what the bundle supplies |
| `Bootstrap.Bootstrap` | src/symphony/projects.py:1027-1153 | Success, or a failure after the commit, keeps every existing entry and adds only what the bundle supplies; an earlier failure restores the tree of an existing repository if and only if no copy failed half way, and of a new one up to the parents made for it. Without faults, and with nothing in the way of a layout that has room for the whole bundle, only what follows the merge decides the outcome |
| `Bootstrap.RootRemoved` | src/symphony/projects.py:1140-1141 | Removing a repository directory made for the project leaves exactly the parents made for it, so the tree is restored if and only if its parent existed |
| `Bootstrap.MakeRoot` | src/symphony/projects.py:1033-1034 | Making the repository directory keeps every entry, adds only directories on the way, and succeeds exactly when the directory is there |
| `Artifacts.FindUniqueName` | src/symphony/artifacts.py:434-444 | The name itself or its first free variant from 2 to 999, or none when all are taken |
| `Artifacts.ArtifactStore.CopyIntoStore` | src/symphony/artifacts.py:446-462 | A copy replaces the target whole or changes nothing, and reports what landed |
| `Artifacts.ArtifactStore.TakeSource` | src/symphony/artifacts.py:295-367 | The loop body computes the specification, branch by branch |
| `ArtifactsMeaning.TakeIff` | src/symphony/artifacts.py:295-367 | Of any file and any listing: each reason to skip is reported if and only if it is the case, the file is collected if and only if none is, and the scan raises if and only if a wanted file finds every name used |
| `ArtifactsMeaning.TakeAdds` | src/symphony/artifacts.py:295-367 | A file that is collected adds one record with its first size and content under the free name, its copy, and its copied size to the total; one that grew too far is discarded or left; no other file changes anything |
| `ArtifactsMeaning.PassAccounts` | src/symphony/artifacts.py:279-372 | A pass that ends accounts for every file once, collected or skipped with its cause, and lists what it collected in order behind what was listed before |
| `ArtifactsMeaning.UniqueNameIff` | src/symphony/artifacts.py:434-444 | The name used is the wanted one if it is free, else its variant with the lowest unused number from 2; none is left if and only if all up to 999 are used |
| `ArtifactsMeaning.VariantIs` | src/symphony/artifacts.py:437-441 | A variant puts a dash and a plain decimal number before the suffix, which starts at the last dot |
| `ArtifactsMeaning.VariantsDiffer` | src/symphony/artifacts.py:437-441 | Variants with different numbers are different names |
| `Artifacts.ArtifactStore.LoadIndex` | src/symphony/artifacts.py:470-503 | A readable index is taken as it is; a missing or corrupt one is rebuilt, and only a corrupt one written back, which may raise |
| `Artifacts.ArtifactStore.RebuildFromFiles` | src/symphony/artifacts.py:505-543 | The rebuilt listing names exactly the readable files, each once, with its content and size |
| `Artifacts.ArtifactStore.CollectFromWorkspace` | src/symphony/artifacts.py:253-372 | A collection is one pass over the sources from the listing the load gives, exactly as the collection relation of the run theorem says; the index is written only when something was collected, and running out of names, a failed restore or a failed write raises without it |
| `Artifacts.ArtifactStore.Scan` | src/symphony/artifacts.py:279-372 | The scan itself: the sources taken in order, then one index write if something was collected |
| `Artifacts.CollectKeepsListed` | src/symphony/artifacts.py:295-367 | Whatever the sources do during the scan, no listed file is overwritten or removed |
| `Artifacts.CollectKeepsSound` | src/symphony/artifacts.py:295-367 | With sources unchanged during the scan: names and hashes stay distinct, each file fits its cap, and together they fit the quota |
| `Artifacts.RecollectAddsNothing` | src/symphony/artifacts.py:267-270 | Collecting an unchanged directory again adds nothing and touches no file |
| `Artifacts.NewRecordIsTrueIff` | src/symphony/artifacts.py:302-361 | A new record names the stored content and its size if and only if the source did not change between its size, its hash and its copy |
| `Artifacts.GrownSourceBreaksQuota` | src/symphony/artifacts.py:324-341 | A source that grows between the scan and the copy is recorded at its old size, and the stored files can then exceed the quota |
| `Artifacts.LostIndexIsHarmless` | src/symphony/artifacts.py:505-543 | If every stored file was listed, any listing rebuilt from the files is as sound as the lost index |
| `Artifacts.SubListingIsSmaller` | src/symphony/artifacts.py:505-543 | A listing of some of the files another names is no larger |
| `Artifacts.CollectionKeepsGood` | src/symphony/artifacts.py:253-372 | One collection, with a failed index write or a rebuild along the way, keeps the promises of the next load if every stored file was readable or an index was written; no listed file is lost in any case |
| `Artifacts.PassesKeepGood` | src/symphony/artifacts.py:253-372 | Over any sequence of collections, with an index lost in between only while it listed every stored file, the listing stays sound and no pass loses a file of its own listing |
| `Artifacts.ListedStays` | src/symphony/artifacts.py:253-543 | Across collections, whatever the sources do: a file one pass listed is unchanged after every later pass, as long as each load in between had an index or could read the file |
| `Artifacts.KnownFileKept` | src/symphony/artifacts.py:253-372 | A collection whose load knows of a file leaves it alone, and an index it writes lists it |
| `Artifacts.FileKeptIff` | src/symphony/artifacts.py:253-543 | A stored file that a source can be named like survives every collection if and only if the index lists it or, without an index, the rebuild could read it |
| `Artifacts.ListedFileOverwritten` | src/symphony/artifacts.py:253-543 | Two collections without an index: the first lists a file, the second cannot read it and stores another content under its name |
| `Artifacts.RebuildIsHarmlessIff` | src/symphony/artifacts.py:253-543 | Every collection of unchanged sources leaves listings that keep their promises if and only if an index was found, every stored file was readable, or the index was corrupt and some file was readable |
| `Artifacts.UnreadFileBreaksQuota` | src/symphony/artifacts.py:253-543 | A stored file of 2 bytes that a rebuild could not read, a quota of 3 and a source of 3 whose index write fails: the next listing names 5 bytes |
| `Pi.PiBackend.ResumeSession` | src/symphony/backends/per_turn.py:576-584 | An accepted resume selects the session, expects it, and clears its confirmation |
| `Pi.PiBackend.CommandForTurn` | src/symphony/backends/pi.py:104-118 | Last text is cleared and the resume flag is used up |
| `Pi.PiBackend.ConsumeStream` | src/symphony/backends/per_turn.py:646-688 | The reading loop computes the specification and stops at ten malformed lines or another session |
| `Pi.PiBackend.CompleteStreamTurn` | src/symphony/backends/pi.py:212-295 | Terminal event, failure reason, exit status and confirmation in the code's order |
| `Pi.PiBackend.RequireResumeConfirmation` | src/symphony/backends/per_turn.py:740-750 | Passes without an expected session, or with a confirmed one, which it then drops |
| `Pi.PiBackend.ExtractLastAssistantMessage` | src/symphony/backends/pi.py:349-359 | The last non-empty assistant text, or empty when there is none |
| `Pi.PiBackend.RunTurn` | src/symphony/backends/per_turn.py:276-312 | A whole turn computes the specification, and its command carries the session id exactly when it resumes |
| `Pi.ResumedSessionMustShow` | src/symphony/backends/per_turn.py:725-750 | After an accepted resume, over any turns: until the stream shows the session no other id is adopted and no turn is reported completed |
| `Pi.TurnKeepsExpecting` | src/symphony/backends/per_turn.py:725-750 | The same for one turn: it completes only if its own lines, or an earlier turn's, showed the session |
| `Pi.CompletedTurn` | src/symphony/backends/pi.py:212-295 | Without a terminal event a turn completes only on exit status 0 with text from its own stream; with one, only if the last reports no error and the status is clean |
| `Pi.CompletedIff` | src/symphony/backends/pi.py:212-291 | A turn is completed with a message if and only if, on its own lines: the child came up, no other session and no ten malformed lines in a row were read, it did not time out, a session being resumed was shown, and either the last agent_end stops cleanly with exit status none or 0, or there is none and the status is 0 with text; the message is the last assistant text of that agent_end, or else the stream's |
| `Pi.TimedOutIff` | src/symphony/backends/per_turn.py:597-630 | A turn times out if and only if the child came up, the clock ran out, and no other session had been read |
| `Pi.PreviewIs` | src/symphony/backends/pi.py:127-150 | The text reported is the beginning of the message's, whole up to 400 characters |
| `Pi.SessionIsLastNamed` | src/symphony/backends/per_turn.py:725-738 | The session after a stream is the last one named in it, or the one of before |
| `Pi.CompletedTurnSettles` | src/symphony/backends/per_turn.py:725-750 | A completed turn has met what was expected: the next one may show any session, and carries the flag only as a continuation |
| `Pi.TextComesFromLines` | src/symphony/backends/pi.py:127-150 | The text a turn ends with was in its lines, or was there before it |
| `Pi.TenMalformedFail` | src/symphony/backends/per_turn.py:671-680 | Ten malformed lines in a row end the turn in failure, whatever follows |
| `Pi.StreakIsRun` | src/symphony/backends/per_turn.py:671-680 | The streak counter is the run of malformed lines since the last that decoded, blank ones aside |
| `Pi.LostResumeKeepsFailing` | src/symphony/backends/per_turn.py:586-595 | After a first turn that did not show the session, a later turn carries the flag if and only if it is a continuation on a backend that resumes across turns; unless its stream shows the session it fails and leaves the next one in the same place |
| `Pi.FlagSentIff` | src/symphony/backends/per_turn.py:576-595 | After any turns that did not show the session: the next command carries the resume flag if and only if it is the first since the resume, or such a continuation |
| `Pi.EveryTurnAsksIff` | src/symphony/backends/per_turn.py:576-595 | Every turn until the session is shown asks for it if and only if all but the first are such continuations |
| `Stats.Accumulator.Fold` | src/symphony/stats.py:250-261 | Folding an event keeps every counter equal to its own tally over the events so far |
| `Stats.Accumulator.Dispatch` | src/symphony/stats.py:250-321 | What one event does to every table, by its kind |
| `Stats.Accumulator.FoldTurn` | src/symphony/stats.py:275-289 | A turn adds its tokens and itself to the totals and to one row of each table |
| `Stats.Accumulator.FoldTransition` | src/symphony/stats.py:299-321 | A transition closes a dwell time, and counts a rewind and a completion when it is one |
| `Stats.Accumulator.FoldGate` | src/symphony/stats.py:263-273 | A recognised gate decision is counted, and a contract failure charged to its lane with its misses |
| `Stats.Aggregate` | src/symphony/stats.py:206-211 | Folding a whole log |
| `Stats.RowsMatchTotals` | src/symphony/stats.py:275-321 | For every event list the token, turn, run and completion totals equal their sums over days, states and agents |
| `Stats.RewindsMatch` | src/symphony/stats.py:309-314 | Rewinds equal total rewinds in and total rewinds out |
| `Stats.RewindIff` | src/symphony/stats.py:311-317 | A move is a rewind if and only if both lanes are on the board and it goes to the left, by their last positions |
| `Stats.TurnCounts` | src/symphony/stats.py:275-289 | What one more turn adds to the totals, to its own date and to the rows of its state and agent, told on its own fields |
| `Stats.TransitionCounts` | src/symphony/stats.py:299-321 | What one more transition adds: done by where it goes to, a rewind once to the lane it enters and once to the one it leaves |
| `Stats.RunAndGateCount` | src/symphony/stats.py:263-297 | What one more end of a run or gate decision adds |
| `Stats.LowerIs` | src/symphony/stats.py:311-318 | Lower-casing works letter by letter, changes nothing twice, and leaves no capital |
| `Stats.LaneIndexIff` | src/symphony/stats.py:219-240 | A lane's index is its last position |
| `Stats.ContractFailuresMatch` | src/symphony/stats.py:263-273 | Contract failures per lane add up to the gate count |
| `Stats.ShownDaysFallShort` | src/symphony/stats.py:330-335 | The day list that is shown falls short of the totals by exactly the share of undated events |
| `Stats.DwellTelescopes` | src/symphony/stats.py:301-308 | All dwell times together are the issues' last minus first transition times, even when timestamps run backwards |
| `Stats.DwellMatchesSpans` | src/symphony/stats.py:301-308 | The same for the accumulator's own tables |
| `Stats.TalliesAddUp` | src/symphony/stats.py:250-321 | Tallies split by key add up to the tally of the whole, for every key function |
| `Stats.RowsAddUp` | src/symphony/stats.py:250-321 | The rows of a table whose cells are tallies add up to the whole tally |
| `Sections.HeadingRule` | src/symphony/prompt_context.py:10 | The two-character heading test is the heading pattern, on every line |
| `Sections.FencesAre` | src/symphony/prompt_context.py:11 | Three backquotes or three tildes make a fence, whatever the indent |
| `Sections.FenceStarts` | src/symphony/prompt_context.py:11 | And nothing else does |
| `Sections.TitleBetweenMarks` | src/symphony/prompt_context.py:190-193 | The title of a heading is what stands between its marks, without closing marks or blanks |
| `Sections.NormalizedIsName` | src/symphony/prompt_context.py:209-210 | A section's name is words of small letters and digits, one space apart |
| `Sections.SquashJoins` | src/symphony/prompt_context.py:209-210 | Letters and digits keep their place in a name |
| `Sections.GapIsOneSpace` | src/symphony/prompt_context.py:209-210 | Everything between them becomes one space |
| `Sections.ParseTicketSections` | src/symphony/prompt_context.py:159-200 | The loop with its open section computes the split: preamble, headings, titles, bodies and indexes |
| `Sections.ParseCut` | src/symphony/prompt_context.py:159-200 | A text can be cut anywhere: reading on from the fence state at the cut gives the same sections |
| `Sections.ParseIsLossless` | src/symphony/prompt_context.py:159-200 | The lines of the preamble and the sections are the lines of the text |
| `Sections.NothingLost` | src/symphony/prompt_context.py:159-200 | Preamble followed by each heading and body is the original text |
| `Sections.HeadingsOutsideFences` | src/symphony/prompt_context.py:186-199 | The section headings are exactly the heading lines with an even number of fence lines before them, in order |
| `Sections.PreambleIsPlain` | src/symphony/prompt_context.py:186-199 | The text before the first heading has none of its own, and leaves no fence open if a heading follows |
| `Sections.SectionsStandAlone` | src/symphony/prompt_context.py:159-200 | Every parsed section read on its own is that section again, and only the last can leave a fence open |
| `Sections.SelectionReadsBack` | src/symphony/prompt_context.py:159-200 | Any sections that stand alone, written one after another, read back as themselves |
| `PromptContext.LeadingScopeSections` | src/symphony/prompt_context.py:245-251 | Exactly the sections before the first agent-owned one |
| `PromptContext.LatestSection` | src/symphony/prompt_context.py:235-242 | The last section with a name in the set, or none |
| `PromptContext.LatestByName` | src/symphony/prompt_context.py:227-230 | Each name in the set maps to its last section |
| `PromptContext.SelectLatestMatching` | src/symphony/prompt_context.py:222-232 | Adds exactly the last section of each name in the set |
| `PromptContext.SelectScope` | src/symphony/prompt_context.py:121-125 | Leading scope sections and scope sections, exactly |
| `PromptContext.Select` | src/symphony/prompt_context.py:119-144 | The selection is exactly the declarative rule, for every lane and for rewinds |
| `PromptContext.SelectForBuild` | src/symphony/prompt_context.py:137-144 | The build lanes add the triage section, the newest failure, and the newest plan if it has open items |
| `PromptContext.PlanKeptIff` | src/symphony/prompt_context.py:137-144 | A plan that nothing else keeps is kept in a build lane if and only if it is the newest and has open items, and never in a rewind |
| `PromptContext.ChooseSections` | src/symphony/prompt_context.py:150-153 | Each kept section once, in document order |
| `PromptContext.BuildIssuePromptContext` | src/symphony/prompt_context.py:105-156 | The whole context: the kept sections and the text they render to |
| `PromptContext.ChunksAre` | src/symphony/prompt_context.py:146-155 | The text has one chunk for each kept section that is not blank, in order, and no other |
| `PromptContext.ScopeAlwaysKept` | src/symphony/prompt_context.py:121-125 | Leading scope and scope sections are kept in every lane, rewind or not |
| `PromptContext.RewindKeepsNewestFailure` | src/symphony/prompt_context.py:128-131 | A rewind keeps the newest failure section, and no other agent-owned one |
| `PromptContext.SelectionIsIdempotent` | src/symphony/prompt_context.py:105-156 | Selecting again from what was kept keeps all of it |
| `PromptContext.SelectionReparses` | src/symphony/prompt_context.py:105-200 | The kept sections of a text, written one after another, read back as themselves |
| `RenderedContext.ContextReadsBackIff` | src/symphony/prompt_context.py:101-200 | The text of the context is the stripped kept sections set apart by empty lines, behind the cleaned preamble, and they read back with their titles and text if and only if none of them is only marks and white space |
| `RenderedContext.WrittenReadsBackIff` | src/symphony/prompt_context.py:101-200 | The same for any sections that stand alone, written behind any lines without a heading |
| `RenderedContext.WrittenText` | src/symphony/prompt_context.py:146-155 | Those lines spell the joined chunks, which outer stripping leaves as they are |
| `RenderedContext.BlankHeadingIsLost` | src/symphony/prompt_context.py:101-102 | A heading of two marks and two blanks is rendered as two marks and read back as plain text |
| `WindowsGate.ReadFrame` | src/symphony/_windows_backend.py:101-106 | Short reads or not, the loop takes exactly the frame's length or reports the end of the stream |
| `WindowsGate.Gate` | src/symphony/_windows_backend.py:101-114 | However the reads are cut, the child starts exactly when the stream begins with GO, and its stdin is everything after |
| `WindowsGate.GatedLaunch.CheckReady` | src/symphony/_windows_backend.py:41-44 | Any other READY frame fails the launch |
| `WindowsGate.GatedLaunch.RecordOwnership` | src/symphony/_windows_backend.py:46-52 | A refusal, or no positive acknowledgement where one is required, fails the launch |
| `WindowsGate.GatedLaunch.SendGo` | src/symphony/_windows_backend.py:53-57 | GO is written only after the launch was published |
| `WindowsGate.GatedLaunch.ReadChunk` | src/symphony/_windows_backend.py:102-106 | One read of at most what the frame still lacks |
| `WindowsGate.GatedLaunch.StartOrAbort` | src/symphony/_windows_backend.py:107-114 | The child starts exactly on the GO frame |
| `WindowsGate.RunKeepsInvariant` | src/symphony/_windows_backend.py:41-114 | Over every interleaving: the host writes GO first and only when owned and published; the supervisor has taken exactly its frame |
| `WindowsGate.LaunchStartsChild` | src/symphony/_windows_backend.py:41-114 | An orderly launch, with GO read in pieces of any sizes, starts the child and leaves it exactly the payload |
| `WindowsGate.SupervisorMovesIff` | src/symphony/_windows_backend.py:101-114 | In every run the supervisor starts the child at the first look at a whole frame, and ends without one only by a stream closed before that or by an abort |
| `WindowsGate.ChildStartsOwned` | src/symphony/_windows_backend.py:41-114 | In every interleaving, including host death, timers, bad frames and short reads, the child starts only after ownership was accepted (positively when it must be durable), the start was published and GO sent; its stdin is everything after GO |
| `WindowsGate.GivenUpNeverStarts` | src/symphony/_windows_backend.py:62-66 | A host that gives up or dies before it sent GO: the child never starts, for the rest of every run |
| `WindowsGate.RefusalGivesUp` | src/symphony/_windows_backend.py:51-52 | A refused callback is such a case |

## Left out
- Git itself, bash, `ps`, `kill` and the Win32 calls: each is an answer or an abstract change of state.
- `Snapshot.Repository.CommitOnDone`: does not model pre-commit hooks, nested repositories or a workspace that is a sub-directory of a larger repository; ignored untracked files stay out of the snapshot as git leaves them out.
- `Snapshot.GuardMeaning`: speaks of git's own rename pairing, which is a parameter.
- `Refresh.Git.RefreshInPlace`: when it has to succeed is said for a repository that nobody else touches meanwhile and a git that answers every query; with others at work only what it may do is said.
- `finalize_delivery_history` and `verify_branch_history`: a push followed by a table of exit codes.
- `ProcessTree.TerminateProcessTree`: does not model the Windows job and taskkill ladders or a child without a pid; answers are functions of the time of asking.
- `PerTurn.RunKeepsInvariant`: the content of a turn is in `Pi` and `OpenCode`.
- `AcpProcess.RunKeepsInvariant`: what a restarted turn does between its launch and its prompt is part of the turn; the Windows spawn is in `WindowsGate`.
- `AcpRpc.SettledIff`: does not model the handling of agent requests and session updates beyond their settling nothing; a request sent after the reader has ended is left to its timeout.
- `Codex.NoLostWakeup`: one turn at a time; token usage, rate limits, approvals and tool calls are not modelled, nor other requests in flight beside turn/start.
- `Pi.CompletedTurn`: does not model usage accounting, stderr collection, compaction and retry notices, or how a text block is found in a message; the same stream half serves other backends with their own terminal events.
- `OpenCode.OpenCodeBackend.ReadStdout`: JSON and UTF-8 decoding are a parameter with the contract that a line decodes on its own; heartbeats are not modelled.
- `TemplateRender.RenderNodes`: how operand tokens are read, the table of filters, equality and printing of values are parameters; attributes of Python objects other than dictionaries are not modelled.
- `TemplateLexer.LexSource`: only for tokens that contain no closing mark, which is what can be spelled.
- `BoardRuns.RunKeepsBoardSound`: operators keep edges and closed tickets closed, add no cycle and add no fix tickets; which of their moves are covered while a fix is unlinked or in hand is exactly what `BoardRuns.StepIsSafeIff` says; ticket bodies, slugs and title keys are compared only for equality, and `register_findings`, cadence and reports are left out.
- `Lease.OneFreshHolder`: each call is one step, all processes use the same TTL, and tokens are unique.
- `Artifacts.PassesKeepGood`: does not cover a collection that stores a file but ends without an index after a rebuild that missed one, where the promise fails (`Artifacts.RebuildIsHarmlessIff`); a file listed by one pass is safe in the next ones only as `Artifacts.ListedStays` says; manifest titles, content types, provenance, symlink and hidden-file filtering and the sweep are left out, and digests stand for contents.
- `Eject.Eject`: that it succeeds is said for a disk on which no operation fails of itself, here and for `Bootstrap.Bootstrap`; undoing a file or directory this run created is taken not to fail, and an interrupt that is no `Exception` is not rolled back by the code either; the order of settings and their YAML style are not modelled.
- `Bootstrap.Bootstrap`: undoing what this run created is taken not to fail; file modes, git commands and the `.git` directory, resource ownership, excludes, presets and the Windows junction fallback are not modelled beyond making the operation fail.
- `validate_unique`, `ProjectRegistry` and `_exclusive_path_lock`: load, append and save under a lock.
- `Stats.RowsMatchTotals`: run seconds and the averages built from floating-point numbers, the cycle list, contract-miss keys as `_miss_key` makes them, and timestamps that mix naive and aware forms are left out; lower-casing is for ASCII.
- `Sections.ParseTicketSections`: a text is given as its lines with their endings, here and in `RenderedContext`; title lower-casing is for ASCII.
- `PromptContext.BuildIssuePromptContext`: the name lists, the open-item test and the preamble filter are parameters; `PromptContext.SelectionReparses` is about the sections as written in the ticket, `RenderedContext.ContextReadsBackIff` about those the context shows.
- `WindowsGate.ChildStartsOwned`: the job object, its monitor thread and the timer are events that abort.
- HTTP servers, the hub, the web and terminal screens, trackers other than what the board needs, and the orchestrator's scheduling.
