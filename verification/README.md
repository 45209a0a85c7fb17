# agent-gov: a verified model

agent-gov lets at most one or two heavy development commands run at a time on a machine shared by
several coding agents. Processes coordinate through files and advisory locks only; a host hook puts
`agent-gov run … --` in front of heavy commands; an installer edits the hosts' settings; a supervisor
runs the command. This project models those four parts in Dafny and proves what they are for.

`dafny verify dfyconfig.toml` checks everything.

## What is modelled

**The slot protocol.** `Protocol` is a transition system of any number of processes over the queue
lock, the slot locks, the lease files, the metadata files, the drain flag and the capacity. Every
constructor of `Action` is one step between two file operations, and `Crash` (SIGKILL) may come between
any two of them. `ProtocolInvariant` gives each process a local invariant and a guarantee to the others
(rely and guarantee); `ProtocolSafety` adds the children; `ProtocolRuns` states the results over whole
runs; `Semaphore` maps every step to an operation of a bounded counting semaphore, or to none;
`ProtocolScan` shows that a scan does not miss a free slot; `Sharpness` builds two runs that show why the
bound on live children has to count losses. `RuntimeFiles` and `Acquiring` are the same code as loops
over mutable state, for one process between two appearances of the others. `Occupancy` says what any scan
makes of the slots on which children run; `SoloScan`, `SoloTurns` and `SoloAdmins` show that the loops, up to
a whole pass through the critical section, a whole job and whole administrative commands, and the single
steps agree.

**The shell rewrite.** `Words` is a POSIX word splitter (Shell Command Language, sections 2.2.1 to
2.2.3 and 2.3), `Paths` the file name of a path, `Classify` wrapper stripping and rules, `Parse` the
walk over the syntax tree, `Analyses` the analysis and the check on outside rewriters; `ClassifyFacts`,
`SegmentFacts` and `AcceptedRewrites` say what these mean for the words, the text and the tree; `Insertion` and
`Rewriting` the in-place insertion and what it means for the shell, `Hook` the decision and the answer to
the host, `Governance` what holds for heavy commands and every answer of the outside rewriter (RTK),
`LightWork` what holds for all others, and `GovernanceLost` the two inputs on which the hook fails instead.

**Installation.** `Json` holds objects as ordered fields (the program builds its JSON library that
way), `Patch` and `PatchResults` are the edits of the settings, `Drives` a disk that may fail at any write,
`Disks` the commit with rollback on it, `CommitFaults` what one fault does to a commit, `Installing` and
`Lifecycle` the commands and their sequences, and `InstalledHooks` what they leave in the settings.

**The rest.** `Supervision` is the supervisor loop over arbitrary signals, clocks and child exits;
`Decimal`, `Durations` and `LeaseNames` are printed numbers, durations in the configuration, and the
order of lease names.

### What is taken for granted

- New lease names are new: a nanosecond clock reading and 64 random bits do not repeat a name used before.
- A probe of a process id may find a dead process alive (the id was reused) but never a live one dead.
- The parser gives nested byte ranges in source order, with the name of a command inside its range.
  Where a result needs more (the words before an executable are assignments and end at a blank; the
  rewritten text parses into the segments that were written), it says so in a `requires`.
- SHA-256 is injective, and a manifest reads back as it was written.
- All processes use one configuration, and the runtime directory is initialised.

### What the proofs found

- Draining also turns away processes that are already queued (`RuntimeFiles.Runtime.TakeTurn`); FR-059 in
  docs/product-requirements.md says they may finish. The model follows the code.
- The repository says that heavy commands never run outside the governor once recognised and that a
  failing RTK never bypasses governance. There are two kinds of input on which the hook fails with an error
  and neither governs nor refuses: an RTK answer that cannot be analysed, for example one nested more than
  128 levels deep, and an executable whose path is not UTF-8. `GovernanceKept` shows that these are all, and
  `DeepAnswerLosesGovernance` and `PathLosesGovernance` give an instance of each.
- An accepted RTK prefix keeps what is classified unless the command starts with `--`
  (`RtkPrefixKeepsNormalForm`, `DashesLost`).
- Without losses the number of live children is at most the capacity. A kill between the spawn and the
  metadata update can leave one child more (`LossesHappen`), and so can a probe of metadata that changed
  after it was read (`StaleProbesLose`); nothing else can (`ConcurrencyBound`, `FreshProbeLosesNothing`).
- `set_capacity_transactional` may report a failed write although the capacity has changed: the write can
  fail after its rename (`RuntimeFiles.Runtime.SetCapacityTransactional`).
- `config set-capacity --drain` can report an error and leave the pool draining, and it can report one
  although the capacity has changed; `RuntimeFiles.Runtime.Configure` says exactly when the flag is as it was.
- A write that fails before its rename leaves its temporary file, so every later write of that file by the
  same process fails too. One such fault breaks the all-or-nothing commit: the rollback fails exactly when
  the fault came before the rename of settings or a manifest that had been there before (`OneFault`), and
  then every path before it stays changed (`StrandedCommit`, with the instance `OneFaultLeavesHalf`).
- An uninstall leaves its backup behind and takes the manifest away, so a later install is accepted exactly
  on settings it can patch that are, byte for byte, those from before the first install
  (`ReinstallAfterUninstall`).
- Unpatching a patch is not always unpatching the original; `UnpatchUndoesPatch` gives the exact condition.
- Every duration that configuration text can give survives printing (`ReadPrintRead`). `Duration` values that
  only code could build, 2^64 milliseconds or more and not whole seconds, do not (`RoundTrip`).
- Lease names sort by time up to 10^20 nanoseconds, and no further (`OrderedExactlyBelow`).

## Model

| member | source | states |
|---|---|---|
| ProtocolSafety.NextInv | src/scheduler/mod.rs:90-178 | every step of every process, of a child or of the environment, crashes included, keeps the invariant of locks, leases, metadata, queue limits and children |
| ProtocolInvariant.OthersKeep | src/scheduler/runtime.rs:273-289 | a process keeps its own invariant while any other takes a step that honours its guarantee |
| ProtocolRuns.RunInv | src/scheduler/mod.rs:90-178 | the invariant holds at every point of every run from a fresh runtime |
| ProtocolRuns.ConcurrencyBound | src/main.rs:161-174 | at every point of every run the live governed children number at most the capacity (at most two) plus the losing events so far |
| Occupancy.RecordedQuarantined | src/scheduler/runtime.rs:211-228 | in every state of every run the children that files account for sit on distinct slots below the capacity, and whoever probes such a slot finds it quarantined |
| Occupancy.ChoiceAvoidsChildren | src/scheduler/mod.rs:156-178 | a scan of the files as they are never chooses such a slot |
| ProtocolRuns.LostCounted | src/supervisor.rs:57-65 | unrecorded live children number at most the crashes between spawn and mark_running plus the stale probes that lost one |
| ProtocolRuns.FreshProbeLosesNothing | src/scheduler/runtime.rs:216-228 | a reclaimed slot loses a live child only if the metadata changed between the read and the probes |
| Sharpness.LossesHappen | src/supervisor.rs:57-65 | there is a run with capacity one and two live children, by a kill between spawn and mark_running |
| Sharpness.StaleProbesLose | src/scheduler/runtime.rs:211-228 | there is another in which the only losing events are probes of metadata that changed after it was read |
| ProtocolRuns.GrantIsSafe | src/scheduler/mod.rs:107-123 | a slot is granted only while not draining, below the capacity, with no recorded child on it and nobody else holding it, and only to a newcomer facing an empty queue or to the least lease |
| ProtocolRuns.NotOvertaken | src/scheduler/mod.rs:107-111 | over any run, while a process waits with a lease every grant goes to it or to a smaller lease, never to a newcomer |
| ProtocolRuns.NoGrantWhileDraining | src/scheduler/mod.rs:100-105 | between a completed drain and the next resume no permit is granted, in any interleaving |
| ProtocolRuns.DrainLasts | src/scheduler/mod.rs:256-274 | the drain flag stays until a resume takes it away |
| ProtocolRuns.CapacityChangesIdle | src/scheduler/mod.rs:290-305 | the capacity changes only while draining, with no metadata, no lease and no recorded child, and stays 1 or 2 |
| ProtocolRuns.RollbackRestores | src/scheduler/mod.rs:301-316 | when the configuration is not saved and the rollback is written, the capacity is what it was before, whatever ran in between |
| ProtocolRuns.LeaseSurvivesOthers | src/scheduler/runtime.rs:200-209 | no step of another process ends or unlocks the lease of a live waiter |
| ProtocolRuns.LeaseSurvivesOwnPrune | src/scheduler/mod.rs:97-99 | a waiter that prunes its own directory keeps its own lease |
| ProtocolRuns.QueueLimits | src/scheduler/mod.rs:180-198 | in every state of every run live waiters number at most max_queue, and those of one owner at most max_queued_per_owner |
| Semaphore.ProtocolRefinesSemaphore | src/scheduler/mod.rs:90-178 | every step maps to one operation of a bounded counting semaphore with a least-first queue, or leaves it alone |
| Semaphore.SemKeeps | src/scheduler/mod.rs:156-198 | the abstract semaphore never runs more than its capacity and never queues more than its limit |
| Semaphore.RunIsSemaphore | src/scheduler/mod.rs:90-178 | over any run the files are, at every point, a legal semaphore state, and each step is its operation |
| Semaphore.RunningMeans | src/scheduler/runtime.rs:211-228 | what counts as running in the semaphore: the slots of recorded children and of every permit |
| Semaphore.QueueMeans | src/scheduler/runtime.rs:187-209 | what counts as queued: the leases that live processes wait with |
| ProtocolScan.RotationVisitsOnce | src/scheduler/mod.rs:157-160 | from any start the rotation reaches every slot at exactly one offset |
| ProtocolScan.FreeSlotIsGranted | src/scheduler/mod.rs:156-178 | while some slot below the capacity stays unlocked, with no metadata or with metadata of processes that are gone, a scan ends with a lock, unless an error or a kill ends it, whatever others do meanwhile |
| ProtocolScan.ListedExactly | src/scheduler/mod.rs:107-111 | the listing leads to a scan exactly for the least listed lease, and for a newcomer when none is listed |
| ProtocolScan.RefusedForCause | src/scheduler/mod.rs:100-105 | a poll is refused only in a draining pool, or to a newcomer that finds a queue limit reached by the leases listed |
| SoloScan.ScanRefines | src/scheduler/mod.rs:156-178 | a process scanning alone wins the slot, and reclaims the metadata, that the loop returns and reclaims |
| SoloTurns.TurnIsRun | src/scheduler/mod.rs:97-139 | a whole pass through the critical section as TakeTurn specifies it, its I/O errors included, is a run of single steps of that process |
| SoloAdmins.DrainIsRun | src/scheduler/mod.rs:256-274 | a drain or resume alone is a run of single steps that sets the flag and changes nothing else |
| SoloAdmins.CapacityIsRun | src/scheduler/mod.rs:280-324 | a capacity change on a drained and idle pool is a run of single steps that writes the capacity, or takes it back when it cannot be saved, and changes nothing else |
| SoloAdmins.JobStarts | src/supervisor.rs:48-66 | a permit holder starts its child and records it in the metadata of its slot |
| SoloAdmins.JobEnds | src/scheduler/mod.rs:71-77 | once the child is gone, metadata, slot and process go |
| SoloAdmins.WaiterLeaves | src/scheduler/mod.rs:141-147 | a waiter that gives up takes its lease file with it and changes nothing else |
| RuntimeFiles.Runtime.PruneStaleWaiters | src/scheduler/runtime.rs:200-209 | afterwards exactly the leases somebody holds are left, unchanged |
| RuntimeFiles.Runtime.SlotQuarantined | src/scheduler/runtime.rs:211-228 | answers whether the slot is quarantined, and removes its metadata exactly when all its processes are gone |
| RuntimeFiles.Runtime.TrySlots | src/scheduler/mod.rs:156-178 | takes the lock of the first usable slot in the rotation, and reclaims the slots read on the way |
| RuntimeFiles.ChoiceIsFirst | src/scheduler/mod.rs:158-177 | the granted slot is usable and first in the rotation; there is none only when no slot below the capacity is usable |
| RuntimeFiles.Runtime.TakeTurn | src/scheduler/mod.rs:97-139 | one critical section grants, queues, keeps waiting, refuses or fails as the decision lemmas below say, and, when a slot can be marked, grants exactly when the pool is not draining, nobody waits ahead and some slot is free; the new leases, metadata and locks and the lease still held |
| RuntimeFiles.GrantedExactly | src/scheduler/mod.rs:100-123 | a poll that can mark a slot is granted one exactly when the pool is not draining, its lease is not larger than any held lease (a newcomer: no lease is held), and some slot below the capacity is unlocked with no metadata or with readable metadata of dead processes; the slot granted is such a one |
| RuntimeFiles.TurnedAwayExactly | src/scheduler/mod.rs:100-139 | any other poll: draining refuses, a waiter waits on, and a newcomer is refused by the number of held leases, then by those of its owner, or queues up |
| RuntimeFiles.ScanReclaims | src/scheduler/runtime.rs:211-228 | a scan removes metadata of dead processes only, and all of it below the capacity when it finds no free slot |
| RuntimeFiles.Runtime.SetCapacityTransactional | src/scheduler/mod.rs:280-324 | succeeds exactly when the value is 1 or 2, the pool is drained and idle, and both writes and the unlock work; which error means what, and what the capacity is on each |
| RuntimeFiles.Runtime.Configure | src/main.rs:346-368 | for every outcome of the drain, the writes and the resume: when it succeeds, which error is reported, when the drain flag is as it was found, and what the capacity is |
| Acquiring.Acquire | src/scheduler/mod.rs:90-154 | every poll but the last only queues and leaves time to wait; the last decides the result, an I/O error included, or finds the time used up; what it slept and how long it took; no lease of its own is left behind |
| Acquiring.HeadIsServed | src/scheduler/mod.rs:100-123 | a poll that finds its process first in line and a slot free ends the waiting with a permit, or with a refusal if the pool is draining; it never continues and never times out |
| Acquiring.PollsBounded | src/scheduler/mod.rs:141-152 | the number of polls is bounded by a function of the wait limit |
| Acquiring.SleepBounded | src/scheduler/mod.rs:141-152 | the requested sleep is strictly less than the wait limit plus 625 ms in all, and at least the plain backoffs |
| Acquiring.MinSleptValue | src/scheduler/mod.rs:149-152 | the least sleep before each poll: 25, 50, 100, 200, 400, then 500 ms each |
| Words.SplitQuoteThen | src/install/mod.rs:673-675 | splitting a quoted value, a blank and any tail gives the value and then the split of the tail, an unterminated tail included |
| Words.SplitQuoteAll | src/shell/rewrite.rs:92-94 | splitting a list of quoted values gives the list back, for all values |
| Words.SplitAtGap | src/shell/parse.rs:199 | from a gap between words the rest of a text is split on its own |
| Words.SplitDoubleQuoted | src/install/mod.rs:673-675 | a value in double quotes, with a backslash before the characters that keep a meaning there, is one word |
| Words.SplitAllEscaped | src/install/mod.rs:673-675 | so is a value with a backslash before every character, newlines aside |
| Words.Unterminated | src/shell/parse.rs:199 | a quote that is not closed makes the whole text unreadable |
| Paths.FileNameIsLast | src/shell/classify.rs:198-203 | the file name is the last part of a path, whatever the directory and with slashes behind it |
| Classify.Normalize | src/shell/classify.rs:211-260 | the index loop computes the recursive stripping of assignments and wrappers, and ends although the index may run one past the end |
| Classify.NormalFormSuffix | src/shell/classify.rs:211-260 | what is classified is a tail of the words given |
| Classify.StripDone | src/shell/classify.rs:216-259 | what is classified does not start with a wrapper, and stripping it again changes nothing |
| Classify.RtkPrefixKeepsNormalForm | src/shell/classify.rs:226-231 | putting a path to rtk after the assignments leaves what is classified alone exactly when the command does not start with `--`, or the added word reads as an assignment |
| Classify.DashesLost | src/shell/classify.rs:226-231 | an input on which putting rtk in front changes what is classified |
| Classify.GovernedIsRecognised | src/shell/classify.rs:221-223 | words with the governor after the assignments are recognised as wrapped exactly when the binary is called agent-gov and is not itself an assignment |
| Classify.ClassifyArgv | src/shell/classify.rs:38-85 | the loop over the custom rules gives the first matching rule, then the tool tables; wrapped commands are light and nothing is classified as background |
| ClassifyFacts.AssignmentExactly | src/shell/classify.rs:262-272 | a word is an assignment exactly when it is a variable name, an equals sign and anything |
| ClassifyFacts.LooksThrough | src/shell/classify.rs:224-256 | rtk, command, time, nice and env are looked through, with exactly the words each takes for itself |
| ClassifyFacts.WrapperSplits | src/shell/classify.rs:224-256 | whatever follows the name of such a wrapper is words it takes and a command |
| ClassifyFacts.StopsAt | src/shell/classify.rs:216-259 | nothing else is looked through: the governor's own run is recognised, sudo, xargs and shells are unsafe, and the rest is the command |
| ClassifyFacts.RuleWins | src/shell/classify.rs:50-59 | a command takes the class of the first custom rule whose prefix matches what it runs |
| ClassifyFacts.NoRuleWins | src/shell/classify.rs:38-85 | without a match the tool tables decide; what the governor wraps is light, what cannot be seen into unknown |
| Parse.Walk | src/shell/parse.rs:178-221 | the walk that extends a list of segments, with the ancestors looked up, gives the segments of the tree or the depth error |
| Parse.CollectedFails | src/shell/parse.rs:185-189 | the walk fails exactly when the tree outside its commands is more than 128 levels deep, and otherwise gives the segments of the whole tree |
| Parse.FoundExactly | src/shell/parse.rs:190-213 | the segments are exactly the named commands with no hiding ancestor, no command around them and no dynamic syntax inside |
| Parse.FoundInOrder | src/shell/parse.rs:190-221 | the collected spans are disjoint, in source order, inside their node, with their own text and the executable inside |
| Analyses.Analyze | src/shell/parse.rs:142-176 | the checks, the parse and the walk give the analysis that the lemmas below describe by the text and the tree |
| SegmentFacts.SupportedExactly | src/shell/parse.rs:131-176 | a command is supported exactly when it has at most 65536 bytes, no NUL, backquote, here-document or arithmetic expansion, a clean tree over all of it at most 128 levels deep, and a plain command in it |
| SegmentFacts.SegmentsExactly | src/shell/parse.rs:190-246 | its segments are exactly those of its plain commands: named, with no command, substitution, subshell or here-document above them on the way from the root, and no substitution, here-document or error anywhere inside |
| SegmentFacts.SegmentsDescribed | src/shell/parse.rs:190-251 | each segment has its range and text, is in the background exactly when white space and a single ampersand follow it, and carries the class of its words, heavy work in the background being unsafe |
| SegmentFacts.UnsupportedReason | src/shell/parse.rs:142-172 | the reason given for a command that is not supported |
| Analyses.AnalyzedSegments | src/shell/parse.rs:165-175 | sorting changes nothing: the segments of a supported command are those of the tree, disjoint and in order |
| Analyses.AnalysisFails | src/shell/parse.rs:142-166 | analysis fails exactly on a text that passes the first checks and has no tree or a clean tree that is too deep |
| Analyses.ShellFrame | src/shell/parse.rs:47-56 | the cursor loop gives the text between the segments, or nothing when a span does not fit |
| Analyses.FrameRebuilds | src/shell/parse.rs:47-56 | the frame interleaved with the segment texts is the source |
| Analyses.RewritePreservesStructure | src/shell/parse.rs:65-99 | the check accepts exactly equal texts and texts with the same frame, counts, backgrounds, classes, no redirections and only rtk added, and fails when an analysis fails |
| Analyses.AddsOnlyRtkExactly | src/shell/parse.rs:105-129 | a segment is accepted exactly when its words are the original words with one path to rtk after the leading assignments |
| AcceptedRewrites.AcceptedExactly | src/shell/parse.rs:65-129 | another text is accepted exactly when both are supported, every piece of text between the commands is byte for byte the same, and each command only gains a path to rtk behind its assignments, keeps its class and its place in fore- or background, and redirects nothing |
| Analyses.AcceptedKeepsClass | src/shell/parse.rs:105-129 | an accepted segment is classified as the original under every rule set and table, unless the original starts with `--` |
| Insertion.PrefixWords | src/shell/rewrite.rs:49-53 | the prefix is seven words for the shell, whatever the binary path and owner contain and whatever follows |
| Insertion.OwnerKept | src/shell/rewrite.rs:79-90 | an owner of up to 32 hexadecimal digits, as the digest gives it, is passed on as it is; none is anonymous |
| Insertion.InsertAll | src/shell/rewrite.rs:54-68 | inserting at descending offsets is inserting at all offsets at once |
| Insertion.OffsetsReversed | src/shell/rewrite.rs:64-65 | sorting only reverses the offsets and dedup removes nothing |
| Insertion.SplicedIsWoven | src/shell/rewrite.rs:66-68 | the insertions replace each heavy segment inside an unchanged frame |
| Insertion.UnsplicedSource | src/shell/rewrite.rs:66-68 | cutting the prefixes out again gives the source |
| Rewriting.Rewrite | src/shell/rewrite.rs:16-77 | the rewrite passes unsupported text through, refuses heavy background work when told to, and otherwise prefixes exactly the heavy foreground segments |
| SegmentFacts.DeniedExactly | src/shell/rewrite.rs:30-46 | a rewrite is denied exactly when denial is on and a command whose words are heavy has white space and a single ampersand behind it |
| Rewriting.RewriteIsInsertion | src/shell/rewrite.rs:54-76 | the result minus its prefixes is the source, and heavy_segments is the number of heavy foreground segments |
| Rewriting.RewriteKeepsTheRest | src/shell/rewrite.rs:54-76 | frame and every other segment are byte for byte those of the source |
| Rewriting.ArgvExact | src/shell/rewrite.rs:49-68 | a prefixed segment splits into its assignments, the governor's words, and the original words unchanged |
| Rewriting.PrefixedIsRecognised | src/shell/classify.rs:38-46 | a prefixed segment is classified as wrapped under every rule set and table, exactly when the binary is the governor |
| Rewriting.RewriteIdempotent | src/shell/rewrite.rs:16-77 | a second rewrite, for any owner, changes nothing, denies exactly when the first did, and fails exactly when the rewritten text cannot be analysed |
| Rewriting.InstalledIsGovernor | src/shell/classify.rs:221-223 | an absolute path is recognised as the governor exactly when its file name is agent-gov |
| Hook.Handle | src/hook/mod.rs:34-130 | the hook gives the answer for every payload, option and RTK answer that LightWork and Governance describe |
| LightWork.RequestExactly | src/hook/mod.rs:34-56 | the hook acts exactly on payloads up to 131072 bytes that call the host's shell tool with a command of at most 65536 bytes without NUL |
| LightWork.OthersPassThrough | src/hook/mod.rs:34-56 | every other payload passes through |
| LightWork.OwnerExactly | src/hook/mod.rs:149-159 | the owner is the session, else the conversation, else the tool use, else anonymous |
| LightWork.LightDecided | src/hook/mod.rs:57-122 | for every command without heavy work, supported or not, and every RTK answer: the exact cases of error and refusal, and otherwise RTK's text if it was accepted, else the original, with nothing governed |
| LightWork.LightHandled | src/hook/mod.rs:57-130 | and the answer to the host: nothing unless RTK refuses, changes the text or asks |
| Hook.AnswerReadBack | src/hook/mod.rs:161-210 | reading the response as the host does gives the answer back, except that on Cursor every update asks |
| Hook.NeverAllows | src/hook/mod.rs:161-203 | no response lifts the host's approval: the permission is deny, ask or absent, and ask on every Cursor update |
| Governance.GovernanceKept | src/hook/mod.rs:57-129 | for a command with heavy work, every RTK answer and every executable path: an error exactly when RTK's text cannot be analysed, or the path is not UTF-8 and RTK did not refuse; a refusal exactly on RTK's refusal or denied background work; otherwise the original or an accepted text with exactly one prefix for each heavy foreground segment, all heavy segments when background work is denied |
| Governance.HeavyAnswered | src/hook/mod.rs:57-130 | for a command with heavy work the hook fails and denies exactly as decided |
| Governance.HeavyUpdated | src/hook/mod.rs:107-147 | an update for it carries the governed text and RTK's wish to ask, with Claude's timeout raised exactly when heavy work runs in the foreground, and keeps every other field |
| Governance.RefusalReason | src/hook/mod.rs:78-113 | a refusal says that RTK denied the command, or that heavy workloads must run in the foreground |
| Governance.RewriteAccepted | src/hook/mod.rs:90-107 | an accepted text has as many heavy segments as the original and is governed in each, or denied |
| Governance.PassedThroughIsGoverned | src/hook/mod.rs:115-122 | a command with heavy foreground work is left as it is only when it already is RTK's accepted text with the governor in every heavy segment |
| Governance.HeavyIsNotPassedThrough | src/hook/mod.rs:115-122 | and so never, where texts parse as they were written |
| GovernanceLost.NestedFails | src/shell/parse.rs:185-189 | a command in nested groups cannot be analysed exactly from 128 pairs of braces on |
| GovernanceLost.DeepAnswerLosesGovernance | src/hook/mod.rs:66-77 | make, and an RTK answer that runs it in 128 nested groups: the hook fails although background work is denied |
| GovernanceLost.PathLosesGovernance | src/hook/mod.rs:83-86 | the same for an executable whose path is not UTF-8, without RTK |
| Governance.UpdatedInput | src/hook/mod.rs:124-147 | the updated input replaces the command, raises a Claude timeout to at least ten minutes when heavy, and keeps every other field and the order of all |
| Patch.RetainClaudeHooks | src/install/mod.rs:413-422 | the loop over the groups keeps what the recursive specification keeps |
| Patch.KeptHooks | src/install/mod.rs:413-422 | the hooks left in all groups are those that stay, in their order |
| Patch.KeptGroupExactly | src/install/mod.rs:413-422 | a group goes exactly when it had hooks and none of them stays; any other keeps its fields, and its hooks are those that stay |
| Patch.CursorCommandWords | src/install/mod.rs:379-384 | the installed Cursor command splits into the binary, hook, cursor and the RTK path, whatever the paths contain |
| Patch.ManagedIsRecognised | src/install/mod.rs:424-433 | the installed hook is recognised as managed for both hosts and all paths |
| PatchResults.PatchAgain | src/install/mod.rs:318-386 | a later patch gives what it would have given on the original, for any RTK paths unless the earlier one alone composed |
| PatchResults.PatchIdempotent | src/install/mod.rs:318-386 | patching accepted settings twice is patching them once |
| PatchResults.PatchedHooks | src/install/mod.rs:318-386 | after a patch the hooks are the old ones that stay, in order, then the managed one; other events, fields and settings are untouched but for a missing Cursor version |
| PatchResults.ExactlyOneManaged | src/install/mod.rs:474-504 | a patch leaves exactly one managed hook by the program's own count |
| PatchResults.GoesExactly | src/install/mod.rs:424-472 | the hooks taken out are the program's own and, when composing, RTK's own, told by their words |
| PatchResults.PatchableExactly | src/install/mod.rs:318-386 | which settings can be patched: the kinds of value in the way, and the Cursor version |
| PatchResults.PatchedGains | src/install/mod.rs:318-386 | the settings as a whole after a patch: one managed hook behind those that stay under the host's event, every other field and event as it was |
| PatchResults.UnpatchedHooks | src/install/mod.rs:388-411 | after unpatching no managed hook is left, every other is, in order, and nothing else differs |
| PatchResults.UnpatchUndoesPatch | src/install/mod.rs:388-411 | unpatch after patch equals unpatch alone exactly when the containers were there and composing removed no RTK hook of another origin |
| Disks.Disk.WriteAtomic | src/scheduler/runtime.rs:383-402 | what a write leaves behind for each place it may fail, and that a leftover temporary file makes later writes of that file fail |
| Disks.Disk.Commit | src/install/mod.rs:131-157 | for any placement of faults: success writes everything; an error other than a failed rollback leaves every settings and manifest file as it was read; backups are never replaced and other files never touched; on a disk without leftovers success is exactly the absence of faults; the outcome is that of the specification CommitFaults is about |
| CommitFaults.OneFault | src/install/mod.rs:131-175 | with exactly one fault on a disk without leftovers: the commit fails exactly when the fault meets one of its operations, and its rollback exactly when it came before the rename of settings or a manifest that were there before |
| CommitFaults.StrandedCommit | src/install/mod.rs:146-153 | when the rollback fails after one fault, every path before the one that met it has its new settings and manifest, and the others are as they were read |
| CommitFaults.OneFaultLeavesHalf | src/scheduler/runtime.rs:383-402 | two hosts and one fault on the second: the commit and its rollback fail, and the first host stays changed |
| Disks.Disk.Rollback | src/install/mod.rs:159-175 | a rollback that succeeds restores every path it was given and touches nothing else |
| Installing.Install | src/install/mod.rs:36-70 | success is the specified effect for every agent; a path that is not absolute, holds NUL or a newline, or is not executable is an error and the only cause of that one; which other error is reported; an error before the commit changes nothing, a rolled back one neither settings nor manifests |
| Installing.Uninstall | src/install/mod.rs:72-105 | the same for uninstall |
| InstalledHooks.InstallWritesHook | src/install/mod.rs:36-70 | after an install the settings of each host are those that were read with exactly one managed hook, behind the hooks that stay, and every other field and event as it was |
| InstalledHooks.InstallWritesManifest | src/install/mod.rs:192-220 | its manifest has the binary, the digest of the settings written and, the first time, what was there before |
| InstalledHooks.InstallWritesBackup | src/install/mod.rs:594-606 | the first install keeps a copy of what it read, with its checksum; a later one leaves both alone |
| InstalledHooks.FirstErrorReported | src/install/mod.rs:36-64 | the error reported is that of the first host that is refused |
| InstalledHooks.UninstallRemovesHook | src/install/mod.rs:72-105 | an uninstall of edited settings takes out the hook of the installed binary, keeps every other hook and field, removes the manifest and leaves the backup |
| InstalledHooks.InstallAcceptedExactly | src/install/mod.rs:36-64 | an install is accepted exactly on settings that can be read and patched, with a readable manifest and a backup that fits |
| InstalledHooks.UninstallAcceptedExactly | src/install/mod.rs:72-103 | the same for an uninstall |
| Lifecycle.InstallRemembers | src/install/mod.rs:192-220 | an install records what was there first, or goes on recording what an earlier one did |
| Lifecycle.UninstallPrepares | src/install/mod.rs:72-103 | settings an install wrote can be uninstalled exactly when they and the manifest are within the sizes that are read back |
| Lifecycle.UninstallRestoresFirst | src/install/mod.rs:36-105 | after one install or more, with any binaries and RTK paths and with edits and failed commands in between, uninstalling settings as last installed gives their first bytes, or their absence, removes the manifest and leaves the backup |
| Lifecycle.ReinstallAccepted | src/install/mod.rs:192-212 | without a manifest an install is accepted exactly on settings it can patch whose backup, if there is one, has their bytes |
| Lifecycle.ReinstallAfterUninstall | src/install/mod.rs:72-105 | after installs, an uninstall and edits, a new install is accepted exactly on the bytes from before the first install |
| Supervision.Supervise | src/supervisor.rs:48-107 | for every set-up and every input the specified signals are sent, and only to a child not yet reaped; the reported outcome; every return has no child or a reaped one and no control socket file; the guard acts exactly on an error after the spawn |
| Supervision.SignalsBehave | src/supervisor.rs:67-105 | at most one termination signal, only window changes before it, no kill before the grace period, and the reported signal is that one |
| Supervision.TerminatedBy | src/supervisor.rs:75-99 | with k the first turn that asks to end, the termination signal sent in turn k and reported at the end is the first signal of that turn but window changes, at its reading, else SIGTERM for a cancellation, else SIGTERM for the time limit |
| Supervision.NotTerminated | src/supervisor.rs:75-99 | a run nobody asks to end is sent window changes only and reports no signal |
| Supervision.TerminatesWhenAsked | src/supervisor.rs:78-99 | termination has begun exactly when some turn so far saw a signal, a cancellation or the time limit, in that very turn |
| Supervision.KillsAfterGrace | src/supervisor.rs:100-104 | every whole turn that finds the grace period over sends a kill |
| Supervision.WindowChangesForwarded | src/supervisor.rs:82-84 | every window change is passed on, terminating or not |
| Durations.RoundTrip | src/config.rs:230-259 | a printed duration reads back, cut to milliseconds, exactly when it is whole seconds or its milliseconds fit in 64 bits; otherwise it is refused |
| Durations.ParsedExactly | src/config.rs:246-259 | a text is a duration exactly when it is a number within 64 bits, then ms, s, m or h, and the seconds fit in 64 bits; which one |
| Durations.ConfiguredWaitRoundTrips | src/config.rs:134-143 | durations within the configured limits always read back |
| Durations.ReadPrintRead | src/config.rs:89-102 | every duration that configuration text can give reads back after printing as what it was |
| Durations.LongDurationRefused | src/config.rs:230-259 | a duration that does not read back, and that no configuration text gives |
| Decimal.DigitsValue | src/config.rs:236-240 | printed decimal numbers are digits and have the value that was printed, for all numbers and widths |
| Decimal.DigitsOrder | src/scheduler/mod.rs:214-221 | zero-padded numbers of one width sort as the numbers do |
| LeaseNames.NameOrder | src/scheduler/mod.rs:213-221 | lease file names sort as (nanoseconds, random id) |
| LeaseNames.OrderedExactlyBelow | src/scheduler/runtime.rs:187-198 | name order is arrival order for all clock readings below a bound exactly when the bound is at most 10^20 |
| LeaseNames.KeyOrder | src/scheduler/runtime.rs:187-198 | the numbers that stand for lease names in the protocol are ordered like the file names |

## Left out

- Parse.Walk: the tree itself comes from a parser that is a parameter; tree-sitter is not part of this model, and nothing is said about which texts parse.
- Words.SplitAtGap: the shlex crate is not part of this model; the splitter follows its documented POSIX rules, on characters.
- Rewriting.ArgvExact: requires that the words before the executable are assignments and that the executable starts a word, which the grammar is trusted for.
- Rewriting.RewriteIdempotent: requires that the rewritten text parses into the segments that were written, because the parser is a parameter.
- Governance.HeavyIsNotPassedThrough: for an accepted RTK text it requires, like RewriteIdempotent, that the written text parses as written; PassedThroughIsGoverned says what holds without that.
- Parse.IsSpace: ASCII white space only; strings stand for the bytes of the source, so spans never split a character.
- Classify.ClassifyArgv: the tables for Maven, Gradle, Node, Docker and the like are a parameter, an arbitrary function of the stripped words.
- Patch.RetainClaudeHooks: JSON edits build new values with the same order of fields; aliasing inside the library's trees is not modelled.
- Hook.Handle: the printing of JSON as text, the running of RTK with its timeouts, and the owner's digest are parameters or left out.
- ProtocolRuns.NotOvertaken: order is the order of lease names; that names follow arrival also needs a clock that does not go back (LeaseNames).
- ProtocolScan.FreeSlotIsGranted: that a polling head is scheduled at all is left to the operating system, and it must not find a dead process alive (a reused id) on that slot.
- RuntimeFiles.Runtime.TakeTurn: an error while pruning, listing or reading metadata ends the poll there; the protocol has these steps (`FailOut`), the loops do not.
- Acquiring.Acquire: the time a process waits for the queue lock is part of the clock, not bounded.
- Supervision.Supervise: one child; the members of its process group, terminal hand-over, what is read from the control socket and the exit code with its default signal handling are left out, and the guard's wait is taken to work.
- Installing.Install: directory creation, permissions, the install lock and the executable check are parameters or left out; the digest is injective by construction.
- Disks.Disk.Commit: a crash in the middle of a commit is not modelled, only failing writes and removals.
- CommitFaults.OneFault: a failing removal changes nothing, and a failed write of a backup is a fault like any other.
- File permissions, ownership and symbolic link checks, and the creation of the runtime directory.
- Runs inside a governed run (AGENT_GOV_ACTIVE), which belong to a child that already has a permit.
- Cancelling, status, doctor, command-line parsing, error codes and the release scripts.
