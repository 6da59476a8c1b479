# Pilot-job clustering controllers of the workflow simulator

This project models the scheduling core of a WRENCH-based simulator. The simulator runs a
scientific workflow on a batch-scheduled cluster. It groups workflow tasks into
*placeholder jobs*, and each placeholder job is backed by a *pilot job* submitted to the
batch queue. Three parts are modelled:

- **Level-by-level controller** (`LevelByLevelWMS`, module `LevelByLevel`). It keeps a map of
  *ongoing levels*. Each level holds pending, running and completed placeholders.
  - The controller admits the next workflow level when the gate lets it through: fewer than
    two levels ongoing, no ongoing level when overlap is off, and every placeholder of the
    previous level started.
  - It clusters the level with the `hc-<tasks>-<nodes>` heuristic and submits one pilot per
    cluster.
  - On pilot start it submits the placeholder's READY tasks. On pilot expiration it
    resubmits the unfinished tasks under a fresh pilot. On task completion it counts, retires
    finished placeholders, releases READY children and drops finished levels.
- **Zhang-style controller** (`ZhangClusteringWMS`, module `Zhang`). It has at most one
  *pending* placeholder and a set of *running* ones.
  - It submits a single-level placeholder for the level after the highest running one. The
    pilot asks for the level's width in nodes and for its longest task's time.
  - The start, expiration, completion and failure handlers are modelled as written, except for the two differences listed under "## Left out" and "## Findings": a missing pending placeholder at start, and the re-plan using the corrected submission.
- **Simulator front end** (module `Simulator`):
  - `createWorkflow`: tokenising on `:`, the `indep`, `levels` and `dax` dispatch, the
    validation of the generator parameters, and the task names and the level-to-level
    dependency structure of a generated workflow.
  - `createWMS`: the `static:<alg>` and `zhang:<overlap>:<plimit>` scheduler specs.

Shared vocabulary is in module `Common`:

- task states;
- the job-manager requests as an append-only log of `Effect` values (`SubmitPilot`,
  `SubmitTask`, `Terminate`);
- the workflow as a `WorkflowView` record of functions: number of levels, tasks of a level,
  task state, children, flops;
- the walltime arithmetic `1 + seconds / 60`.

The string handling is in module `Text`:

- `std::getline` tokenising;
- glibc `sscanf("%lu")`, which skips white space, accepts a sign, saturates at `ULONG_MAX` and
  wraps a negated value;
- `std::to_string`.

Each controller is a `class` whose handlers update its fields in place. Every handler is
proved against a specification function of the old state:

- the level-by-level controller keeps `Bookkeeping`: well-formed disjoint level sets, at most
  two ongoing levels, at most one without overlap;
- the Zhang controller keeps `Tracked`: unique pilots, distinct levels, and the pending
  placeholder above every running one.

## Model

| member | source | states |
|---|---|---|
| Common.Min | src/LevelByLevelAlgorithm/LevelByLevelWMS.cpp:330 | `std::min` of two counts: a lower bound of both that equals one of them |
| Common.Max | src/ZhangClusteringAlgorithm/ZhangClusteringWMS.cpp:62 | `MAX` of two counts: an upper bound of both that equals one of them |
| Common.MaxOf | src/ZhangClusteringAlgorithm/ZhangClusteringWMS.cpp:60-63 | the maximum of a non-empty set of levels is a member that bounds every member |
| Common.MaxOfAdd | src/ZhangClusteringAlgorithm/ZhangClusteringWMS.cpp:61-63 | one more turn of the running maximum: the maximum after adding x is x for an empty set, else the larger of the old maximum and x |
| Common.WalltimeMinutes | src/LevelByLevelAlgorithm/LevelByLevelWMS.cpp:134 | the `-t` argument `1 + seconds/60` is at least 1 and is the smallest number of whole minutes strictly longer than the duration, with at most one minute to spare |
| Common.SubmitReady | src/LevelByLevelAlgorithm/LevelByLevelWMS.cpp:270-282 | the standard-job submissions for a placeholder's tasks: each submits a selected READY task of the list to the given pilot, and every selected READY task of the list is submitted |
| Common.ReadySubmissions | src/ZhangClusteringAlgorithm/ZhangClusteringWMS.cpp:148-155 | the submission loop over a placeholder's tasks yields exactly `SubmitReady` of them |
| Common.SubmitReadyCount | src/LevelByLevelAlgorithm/LevelByLevelWMS.cpp:270-282 | the submission loop submits a task to its pilot once per occurrence of the task in the list when it is selected and READY, and never to another pilot |
| Common.Contains | src/ZhangClusteringAlgorithm/ZhangClusteringWMS.cpp:235-236 | the linear search over a task list answers true exactly when the task is in the list |
| Common.Incomplete | src/ZhangClusteringAlgorithm/ZhangClusteringWMS.cpp:104-107 | the non-COMPLETED tasks of a list: a task is kept iff it is in the list and not COMPLETED, and the list does not grow |
| Common.IncompleteTasks | src/LevelByLevelAlgorithm/LevelByLevelWMS.cpp:325-329 | the loop that copies the non-COMPLETED tasks yields exactly `Incomplete` of the list, in order |
| Common.IncompleteEmptyIffAllCompleted | src/ZhangClusteringAlgorithm/ZhangClusteringWMS.cpp:179-186 | a placeholder has no unprocessed task exactly when every one of its tasks is COMPLETED |
| Text.DigitChar | src/Simulator.cpp:335 | a decimal digit is rendered as the character of that value |
| Text.Decimal | src/Simulator.cpp:385-386 | `std::to_string` of an unsigned number is a non-empty run of digits with a leading zero only for zero |
| Text.DecimalExcludes | src/Simulator.cpp:385-386 | a rendered number contains no non-digit, so it never contains the `_` or `:` separators |
| Text.DecimalRoundTrip | src/Simulator.cpp:335 | reading back the digits of `to_string(n)` gives n |
| Text.DecimalInjective | src/Simulator.cpp:335 | different numbers render differently |
| Text.SpaceRun | src/Simulator.cpp:320 | the leading white space `%lu` skips lies within the token |
| Text.DigitRun | src/Simulator.cpp:320 | the digit run `%lu` reads lies within the token |
| Text.ToULong | src/Simulator.cpp:320 | the value `%lu` stores fits in 64 bits, and an in-range non-negated value is stored unchanged |
| Text.ScanULong | src/Simulator.cpp:320 | `sscanf(tok, "%lu")` either fails or stores a value of at most `ULONG_MAX` |
| Text.DigitRunOfDigits | src/Simulator.cpp:360 | the digit run of a digit string followed by a non-digit is the whole digit string |
| Text.ScanDecimal | src/Simulator.cpp:360 | `%lu` reads back a rendered number in range, whatever non-digit text follows it |
| Text.ScanSkipsSpace | src/Simulator.cpp:320 | a leading white-space character does not change what `%lu` reads |
| Text.ScanNeedsDigit | src/Simulator.cpp:320 | a token without any digit is rejected by `%lu` |
| Text.SplitFromHasNoDelimiter | src/Simulator.cpp:270-272 | the getline loop, continued from a partial token without the delimiter, yields tokens without the delimiter |
| Text.SplitFrom | src/Simulator.cpp:266-272 | reference definition of the getline loop resumed mid-token: a delimiter closes the current token (possibly empty), and the end of the text closes it only when it is non-empty; its properties are in the `SplitFrom*` rows |
| Text.Split | src/Simulator.cpp:266-272 | reference definition of the tokens `std::getline(ss, token, d)` collects from a whole string; its properties are in `SplitHasNoDelimiter`, `SplitJoin`, `SplitJoinTrailing`, `JoinSplit` and `Tokenize` |
| Text.SplitHasNoDelimiter | src/Simulator.cpp:270-272 | no token produced by the getline loop contains the delimiter |
| Text.SplitFromEmpty | src/Simulator.cpp:270-272 | the getline loop yields no token exactly when nothing is left to read and nothing is pending |
| Text.SplitFromToken | src/Simulator.cpp:270-272 | a delimiter ends the current token, and reading continues afresh after it |
| Text.SplitFromLast | src/Simulator.cpp:270-272 | text without a delimiter at the end of the input is one last token, or none if empty |
| Text.SplitJoin | src/Simulator.cpp:270-272 | tokenising the `:`-join of delimiter-free tokens whose last one is non-empty gives the tokens back |
| Text.SplitJoinTrailing | src/Simulator.cpp:270-272 | a trailing delimiter yields no extra token |
| Text.JoinSplitFrom | src/Simulator.cpp:270-272 | rejoining the tokens of the rest of the input restores it, except for a trailing delimiter |
| Text.JoinSplit | src/Simulator.cpp:451-457 | rejoining the tokens restores the spec string, except for one trailing delimiter, which getline swallows |
| Text.Tokenize | src/Simulator.cpp:266-272 | the getline loop yields exactly the tokens of `Split` |
| Simulator.WrappingSubIsModular | src/Simulator.cpp:285 | `size - 2` on `size_t` is subtraction modulo 2^64 and stays below 2^64 |
| Simulator.LevelsCountAccepted | src/Simulator.cpp:285-287 | a `levels` spec with n tokens passes the count check iff n is 1 (the wrapped lone `levels` token) or n ≥ 5 with n ≡ 2 (mod 3) |
| Simulator.LevelsCountRejected | src/Simulator.cpp:285 | reference definition of the `levels` token-count test (reject when `size == 2` or `(size - 2) % 3` is non-zero), with the subtraction on `size_t`; the set of counts it accepts is stated by `LevelsCountAccepted` |
| Simulator.CheckLevel | src/Simulator.cpp:359-370 | a level whose checks pass has at least one task and max ≥ min; a failure is the count, min or max error |
| Simulator.ParseLevel | src/Simulator.cpp:359-370 | reference definition of the checks of level l on tokens 2+3l, 3+3l and 4+3l (scanned with `%lu`), reporting the level's own error; its properties are in `CheckLevel`, `ParseLevelsUpTo` and `ScanLevel` |
| Simulator.ParseIndep | src/Simulator.cpp:309-328 | an accepted `indep` spec is an independent-tasks spec with at least one task and max ≥ min |
| Simulator.ScanAll | src/Simulator.cpp:360-368 | scanning every token with `%lu` gives one result per token, each at most `ULONG_MAX` |
| Simulator.ScanAllIndex | src/Simulator.cpp:360-368 | the i-th scan is `%lu` of the i-th token |
| Simulator.ParseLevelsUpTo | src/Simulator.cpp:359-370 | the first k levels are accepted iff each is valid, then they are listed in order; otherwise the error is that of a failing level |
| Simulator.FirstFailureStops | src/Simulator.cpp:359-370 | once a level fails, validating more levels fails with the same error, so the first failure is the one reported |
| Simulator.ScanLevel | src/Simulator.cpp:360-369 | the three sscanf calls and checks of one level give that level's verdict |
| Simulator.ValidateLevels | src/Simulator.cpp:359-370 | the validation loop returns exactly the verdict of `ParseLevelsUpTo` on the scanned tokens |
| Simulator.ParseLevels | src/Simulator.cpp:343-370 | an accepted `levels` spec has `(size - 1) / 3` levels |
| Simulator.ParsedWorkflowIsValid | src/Simulator.cpp:274-303 | an accepted spec starts with the kind it yields and has that kind's token count (5 for `indep`, 2 + 3·levels for `levels`), and all its parameters are valid |
| Simulator.ParseWorkflowTokens | src/Simulator.cpp:274-303 | reference definition of the `createWorkflow` dispatch on the first token: no token is `MissingToken`; `indep` needs 5 tokens, `levels` must pass the wrapped count test, `dax` needs 2; any other kind is `UnknownWorkflowType`; its properties are in `ParsedWorkflowIsValid`, `LevelsRoundTrip`, `IndepRoundTrip` and `DaxSpecExact` |
| Simulator.ParseWorkflowSpec | src/Simulator.cpp:264-303 | reference definition of `createWorkflow`'s parsing: `ParseWorkflowTokens` of the `:`-tokens of the spec |
| Simulator.LoneLevelsToken | src/Simulator.cpp:285-289 | the spec `levels` gets past the wrapped count check and is refused for its missing seed token |
| Simulator.Triples | src/Simulator.cpp:360-368 | the level tokens are three decimal numbers per level, in order |
| Simulator.ScanDecimalToken | src/Simulator.cpp:360 | `%lu` reads a rendered number back exactly |
| Simulator.ParseLevelsOfScans | src/Simulator.cpp:359-370 | scans that list valid levels are accepted as exactly those levels |
| Simulator.ScanTriple | src/Simulator.cpp:360-368 | the three tokens of level i read back as its count, minimum and maximum |
| Simulator.ScansOfTriples | src/Simulator.cpp:360-368 | scanning the rendered level tokens lists the levels |
| Simulator.LevelsTokens | src/Simulator.cpp:266-272 | the rendered `levels:<seed>:<n>:<min>:<max>…` spec tokenises into its fields |
| Simulator.LevelsRoundTrip | src/Simulator.cpp:284-289 | every list of valid levels, written as a `levels` spec, is parsed back to itself |
| Simulator.ParseLevelsTokens | src/Simulator.cpp:284-289 | the tokens of a rendered `levels` spec are accepted as its levels |
| Simulator.TripleArithmetic | src/Simulator.cpp:285 | with 2 + 3m tokens the count check passes and `(size - 1) / 3` is m |
| Simulator.DispatchLevels | src/Simulator.cpp:284-289 | a `levels` token vector with a readable seed and valid levels is dispatched to those levels |
| Simulator.IndepRoundTrip | src/Simulator.cpp:274-283 | every valid `indep` parameter set, written as a spec, is parsed back to itself |
| Simulator.DaxSpecExact | src/Simulator.cpp:294-303 | a spec names DAX file f iff its tokens are exactly `dax` and f |
| Simulator.IndepNameInjective | src/Simulator.cpp:335 | `Task_<i>` names are distinct for distinct i |
| Simulator.DigitsBeforeUnderscore | src/Simulator.cpp:385-386 | in `digits_rest`, the digits before `_` are determined by the name |
| Simulator.DecimalPairInjective | src/Simulator.cpp:385-386 | `<l>_<t>` determines l and t |
| Simulator.TaskNameInjective | src/Simulator.cpp:385-386 | `Task_l<l>_<t>` names are equal iff level and index are |
| Simulator.IndepTasks | src/Simulator.cpp:333-336 | an `indep` workflow has exactly n tasks |
| Simulator.IndepTasksExact | src/Simulator.cpp:333-336 | its tasks are exactly `Task_0` … `Task_<n-1>`, in order and without repetition |
| Simulator.LevelTasks | src/Simulator.cpp:383-387 | level l contributes exactly `num_tasks[l]` tasks |
| Simulator.LevelTasksMembers | src/Simulator.cpp:383-387 | `Task_l<a>_<q>` is among level l's tasks iff a = l and q < `num_tasks[l]` |
| Simulator.TasksUpToMembers | src/Simulator.cpp:382-388 | the first k levels hold `Task_l<a>_<q>` iff a < k and q < `num_tasks[a]` |
| Simulator.TasksUpToNamed | src/Simulator.cpp:382-388 | every generated task is named `Task_l<l>_<t>` |
| Simulator.LevelTasksIndex | src/Simulator.cpp:383-387 | the i-th task of level l is `Task_l<l>_<i>` |
| Simulator.TasksUpToDistinct | src/Simulator.cpp:382-388 | no task name is generated twice |
| Simulator.LevelsTasksExact | src/Simulator.cpp:382-388 | a `levels` workflow has exactly the tasks `Task_l<l>_<t>` with l < levels and t < `num_tasks[l]`, each once |
| Simulator.ParentEdgesMembers | src/Simulator.cpp:393-395 | for child t of level l, the edges are exactly from each of the first p tasks of level l-1 to it |
| Simulator.LevelEdgesMembers | src/Simulator.cpp:392-396 | the edges into level l are exactly from every task of level l-1 to every task of l |
| Simulator.DepsUpToMembers | src/Simulator.cpp:391-397 | an edge between generated names exists iff it goes from a task of level b-1 to a task of level b, for 1 ≤ b |
| Simulator.DepsUpToNamed | src/Simulator.cpp:391-397 | every edge joins two generated task names |
| Simulator.LevelEdgesNamed | src/Simulator.cpp:392-396 | every edge into a level joins two generated task names |
| Simulator.ParentEdgesNamed | src/Simulator.cpp:393-395 | every edge into one child joins two generated task names |
| Simulator.LevelsDepsExact | src/Simulator.cpp:391-397 | the dependencies of a `levels` workflow are exactly all level l-1 → level l pairs and nothing else |
| Simulator.BuildIndepWorkflow | src/Simulator.cpp:330-338 | the generation loop builds exactly the `indep` workflow of n tasks |
| Simulator.IndepWorkflow | src/Simulator.cpp:330-338 | reference definition of the `indep` workflow: the tasks `IndepTasks(n)` and no dependency; its properties are in `IndepTasksExact` |
| Simulator.LevelsWorkflow | src/Simulator.cpp:372-401 | reference definition of the `levels` workflow: the tasks of every level and the edges from each level to the next; its properties are in `LevelsTasksExact` and `LevelsDepsExact` |
| Simulator.BuildLevelsWorkflow | src/Simulator.cpp:372-401 | the task and dependency loops build exactly the `levels` workflow of the given counts |
| Simulator.TaskCounts | src/Simulator.cpp:353 | the per-level task counts, one per level and in order |
| Simulator.CreateWorkflow | src/Simulator.cpp:264-307 | a refused spec yields its error; an accepted one yields the generated workflow (or the DAX file name) of its parameters |
| Simulator.ZhangSpecExact | src/Simulator.cpp:468-489 | a Zhang scheduler with given flags is chosen iff the tokens are exactly `zhang`, the overlap word and the plimit word |
| Simulator.StaticSpecExact | src/Simulator.cpp:459-466 | a static scheduler with algorithm a is chosen iff the tokens are exactly `static` and a |
| Simulator.StaticSpecSplits | src/Simulator.cpp:451-457 | `static:<a>` tokenises into its two fields when a has no `:` |
| Simulator.ZhangSpecSplits | src/Simulator.cpp:451-457 | `zhang:<o>:<p>` tokenises into its three fields |
| Simulator.WmsRoundTrip | src/Simulator.cpp:446-495 | every scheduler choice, written as a spec, is parsed back to itself |
| Simulator.ParseWmsTokens | src/Simulator.cpp:446-495 | reference definition of `createWMS` on the tokens: no token is `MissingToken`; `static` needs 2 tokens; `zhang` needs 3 with `overlap`/`nooverlap` and `plimit`/`pnolimit`, otherwise `InvalidZhangSpec`; any other kind is `UnknownSchedulerType`; its properties are in `ZhangSpecExact`, `StaticSpecExact` and `WmsRoundTrip` |
| Simulator.CreateWms | src/Simulator.cpp:446-495 | reference definition of `createWMS`: `ParseWmsTokens` of the `:`-tokens of the spec |
| LevelByLevel.ParseHcSpec | src/LevelByLevelAlgorithm/LevelByLevelWMS.cpp:167-194 | an accepted clustering spec yields two numbers between 1 and `ULONG_MAX` |
| LevelByLevel.HcSpecExact | src/LevelByLevelAlgorithm/LevelByLevelWMS.cpp:177-186 | a spec is accepted with (p, n) iff it is three `-` tokens `hc`, p, n, both read by `%lu` and both at least 1 |
| LevelByLevel.OnlyHcIsKnown | src/LevelByLevelAlgorithm/LevelByLevelWMS.cpp:192-193 | any heuristic other than `hc` is an invalid clustering spec |
| LevelByLevel.HcSpecRoundTrip | src/LevelByLevelAlgorithm/LevelByLevelWMS.cpp:171-186 | `hc-<p>-<n>` is parsed back to (p, n) |
| LevelByLevel.PlaceholderJobsForLevel | src/LevelByLevelAlgorithm/LevelByLevelWMS.cpp:153-211 | creating a level's placeholders fails exactly when the clustering spec is refused, with its error |
| LevelByLevel.LevelToSubmit | src/LevelByLevelAlgorithm/LevelByLevelWMS.cpp:80-87 | the sentinel loop over ongoing levels yields `NextLevel`: one past the highest ongoing level, or 0 |
| LevelByLevel.NextLevel | src/LevelByLevelAlgorithm/LevelByLevelWMS.cpp:80-87 | with no ongoing level it is 0; otherwise it is one past an ongoing level and above all of them, and 0 only when none is ongoing |
| LevelByLevel.SubmissionGate | src/LevelByLevelAlgorithm/LevelByLevelWMS.cpp:69-101 | nothing is admitted with two levels ongoing or with any level ongoing and overlap off; an admitted level is `NextLevel` and below the level count |
| LevelByLevel.AdmittedLevelFollowsStartedLevel | src/LevelByLevelAlgorithm/LevelByLevelWMS.cpp:80-101 | an admitted level is new, above every ongoing level, and directly follows an ongoing level whose placeholders have all started |
| LevelByLevel.PendingLevelBlocksNext | src/LevelByLevelAlgorithm/LevelByLevelWMS.cpp:95-101 | a level with a pending placeholder never lets its successor in |
| LevelByLevel.NoOngoingLevelRestartsAtZero | src/LevelByLevelAlgorithm/LevelByLevelWMS.cpp:80-92 | with nothing ongoing, level 0 is admitted |
| LevelByLevel.Gate | src/LevelByLevelAlgorithm/LevelByLevelWMS.cpp:68-101 | the early returns of `submitPilotJobsForNextLevel` decide exactly `SubmissionGate` |
| LevelByLevel.Promote | src/LevelByLevelAlgorithm/LevelByLevelWMS.cpp:266-267 | a started placeholder leaves pending for running; the level's active placeholders and its completed set are unchanged |
| LevelByLevel.Retire | src/LevelByLevelAlgorithm/LevelByLevelWMS.cpp:398-399 | a finished placeholder leaves running for completed; the pending set is unchanged |
| LevelByLevel.Replace | src/LevelByLevelAlgorithm/LevelByLevelWMS.cpp:320-341 | the expired placeholder leaves the level's active set and its replacement joins pending |
| LevelByLevel.Settle | src/LevelByLevelAlgorithm/LevelByLevelWMS.cpp:423-426 | a level stays iff it still has pending or running placeholders; other levels are untouched |
| LevelByLevel.RestartJob | src/LevelByLevelAlgorithm/LevelByLevelWMS.cpp:324-330 | the replacement cluster holds exactly the non-COMPLETED tasks, with `min(old nodes, #tasks)` nodes |
| LevelByLevel.Counted | src/LevelByLevelAlgorithm/LevelByLevelWMS.cpp:388 | counting a completion adds one to the placeholder's counter and changes nothing else |
| LevelByLevel.AfterCompletion | src/LevelByLevelAlgorithm/LevelByLevelWMS.cpp:388-400 | reference definition of the level after a completion is counted: the placeholder is retired when it has counted all its tasks, and the level is unchanged otherwise; its properties are in `CountAndRetire`, `CompletionKeepsBookkeeping` and `CompletionKeepsMembershipUnique` |
| LevelByLevel.SeparateLevels | src/LevelByLevelAlgorithm/LevelByLevelWMS.cpp:204 | a placeholder belongs to the single level it was created for |
| LevelByLevel.WellFormedLevelFrame | src/LevelByLevelAlgorithm/LevelByLevelWMS.cpp:111-148 | a level stays well formed when the placeholders it names are unchanged |
| LevelByLevel.RunningOwned | src/LevelByLevelAlgorithm/LevelByLevelWMS.cpp:407-408 | every running placeholder the release loop visits exists |
| LevelByLevel.IdRange | src/LevelByLevelAlgorithm/LevelByLevelWMS.cpp:119-120 | the new level's pending ids are exactly the n ids from the first fresh one |
| LevelByLevel.NewPlaceholders | src/LevelByLevelAlgorithm/LevelByLevelWMS.cpp:198-208 | one fresh placeholder per clustered job, for this level, with nothing counted |
| LevelByLevel.PilotSubmissions | src/LevelByLevelAlgorithm/LevelByLevelWMS.cpp:119-146 | one pilot submission per clustered job, with its nodes, one core and the walltime in minutes |
| LevelByLevel.AdmitKeepsConsistent | src/LevelByLevelAlgorithm/LevelByLevelWMS.cpp:111-148 | opening a new level below `ULONG_MAX` with fresh placeholders keeps the bookkeeping consistent |
| LevelByLevel.AdmitKeepsBookkeeping | src/LevelByLevelAlgorithm/LevelByLevelWMS.cpp:64-149 | opening the admitted level keeps consistency, at most two ongoing levels and at most one without overlap |
| LevelByLevel.PromoteKeepsBookkeeping | src/LevelByLevelAlgorithm/LevelByLevelWMS.cpp:266-267 | starting a placeholder keeps the invariant |
| LevelByLevel.FreshUnaffected | src/LevelByLevelAlgorithm/LevelByLevelWMS.cpp:336-341 | adding the replacement placeholder leaves every existing level well formed |
| LevelByLevel.ReplaceKeepsBookkeeping | src/LevelByLevelAlgorithm/LevelByLevelWMS.cpp:320-341 | replacing an expired placeholder keeps the invariant, and the fresh id is new to the level |
| LevelByLevel.OtherLevelUnaffected | src/LevelByLevelAlgorithm/LevelByLevelWMS.cpp:388 | updating one level's placeholder leaves the other levels well formed |
| LevelByLevel.CompletionKeepsConsistent | src/LevelByLevelAlgorithm/LevelByLevelWMS.cpp:388-400 | counting a completion, and retiring a finished placeholder, keeps consistency |
| LevelByLevel.SettleKeepsBookkeeping | src/LevelByLevelAlgorithm/LevelByLevelWMS.cpp:423-426 | dropping a finished level keeps the invariant |
| LevelByLevel.CompletionKeepsBookkeeping | src/LevelByLevelAlgorithm/LevelByLevelWMS.cpp:388-426 | the whole completion step keeps the invariant before and after the level is dropped |
| LevelByLevel.PilotLocatesOnce | src/LevelByLevelAlgorithm/LevelByLevelWMS.cpp:250-258 | the search for a pilot's placeholder can match only one (level, placeholder), so stopping at the first match loses nothing |
| LevelByLevel.ReplaceKeepsMembershipUnique | src/LevelByLevelAlgorithm/LevelByLevelWMS.cpp:320-341 | after a replacement no task is held by two active placeholders, if none was before |
| LevelByLevel.ActiveShrinksKeepsMembershipUnique | src/LevelByLevelAlgorithm/LevelByLevelWMS.cpp:398-426 | with every job unchanged, a state whose active placeholders are among the old ones keeps task membership unique |
| LevelByLevel.PromoteKeepsMembershipUnique | src/LevelByLevelAlgorithm/LevelByLevelWMS.cpp:265-267 | moving a started placeholder from pending to running (the new state of `ProcessEventPilotJobStart`) keeps task membership unique |
| LevelByLevel.CompletionKeepsMembershipUnique | src/LevelByLevelAlgorithm/LevelByLevelWMS.cpp:388-426 | counting a completion, retiring the placeholder and dropping an idle level (the new state of `ProcessEventStandardJobCompletion`) keeps task membership unique |
| LevelByLevel.TaskLocatesOnce | src/LevelByLevelAlgorithm/LevelByLevelWMS.cpp:371-381 | while task membership is unique, a running task is held by one (level, placeholder) only, so the search's choice among several fits never arises |
| LevelByLevel.ReleasesOfAdd | src/LevelByLevelAlgorithm/LevelByLevelWMS.cpp:408-418 | visiting one more running placeholder adds exactly its READY children |
| LevelByLevel.ReleasesOfUnion | src/LevelByLevelAlgorithm/LevelByLevelWMS.cpp:407-420 | the releases of two groups of placeholders are the union of their releases |
| LevelByLevel.ReleasesInLevel | src/LevelByLevelAlgorithm/LevelByLevelWMS.cpp:408-419 | the loop over one level's running placeholders submits exactly their READY children, as a set and with multiplicity (one submission per occurrence in each holder's list) |
| LevelByLevel.ReleasesInLevels | src/LevelByLevelAlgorithm/LevelByLevelWMS.cpp:406-420 | the loop over all levels submits exactly the READY children held by running placeholders, each to its holder's pilot, as a set and with multiplicity (`ReleaseCounts`) |
| LevelByLevel.ReleaseCountsHeld | src/LevelByLevelAlgorithm/LevelByLevelWMS.cpp:408-417 | a running placeholder's pilot receives each selected READY task as many times as the placeholder's list holds it |
| LevelByLevel.ReleaseCountsOther | src/LevelByLevelAlgorithm/LevelByLevelWMS.cpp:406-420 | a placeholder that is not running receives no release |
| LevelByLevel.CreateLevelPlaceholders | src/LevelByLevelAlgorithm/LevelByLevelWMS.cpp:119-146 | the loop creates exactly the fresh placeholders, their pending ids and their pilot submissions |
| LevelByLevel.CountCompletion | src/LevelByLevelAlgorithm/LevelByLevelWMS.cpp:388-426 | completion keeps the invariant, counts the task, terminates a finished placeholder's pilot first, then releases exactly the READY children (as a set and with multiplicity), and drops the level if it is idle |
| LevelByLevel.CountAndRetire | src/LevelByLevelAlgorithm/LevelByLevelWMS.cpp:388-400 | the placeholder counts one more task; when it has counted all of them its pilot is terminated and it moves from running to completed |
| LevelByLevel.LevelByLevelWms.constructor | src/LevelByLevelAlgorithm/LevelByLevelWMS.cpp:28-34 | a new controller records overlap and the clustering spec, with no level, placeholder or request |
| LevelByLevel.LevelByLevelWms.Commit | src/LevelByLevelAlgorithm/LevelByLevelWMS.cpp:148 | storing a new state that keeps the bookkeeping invariant |
| LevelByLevel.LevelByLevelWms.SubmitPilotJobsForNextLevel | src/LevelByLevelAlgorithm/LevelByLevelWMS.cpp:64-149 | held: nothing changes; admitted with a bad spec: the error and nothing changes; otherwise the level is added with one fresh pending placeholder and one pilot per cluster, keeping the invariant |
| LevelByLevel.LevelByLevelWms.Locate | src/LevelByLevelAlgorithm/LevelByLevelWMS.cpp:371-381 | the nested search finds a matching (level, placeholder) when one exists, and reports none only when none exists; one match at most exists for a pilot (`PilotLocatesOnce`) and, while membership is unique, for a task (`TaskLocatesOnce`) |
| LevelByLevel.LevelByLevelWms.ProcessEventPilotJobStart | src/LevelByLevelAlgorithm/LevelByLevelWMS.cpp:242-284 | an unknown pilot is an error and changes nothing; otherwise its placeholder moves to running and exactly its READY tasks are submitted to its pilot; task membership stays unique if it was |
| LevelByLevel.LevelByLevelWms.ProcessEventPilotJobExpiration | src/LevelByLevelAlgorithm/LevelByLevelWMS.cpp:287-359 | an unknown pilot is an error; a finished placeholder changes nothing; otherwise it is replaced by a pending one holding its unfinished tasks on `min(nodes, #tasks)` nodes, and the new pilot is submitted; task membership stays unique if it was |
| LevelByLevel.LevelByLevelWms.ProcessEventStandardJobCompletion | src/LevelByLevelAlgorithm/LevelByLevelWMS.cpp:362-428 | an unheld task is an error; otherwise the counting, retiring, pilot termination, child release and level removal of `CountCompletion`, with the releases as a set and with multiplicity; task membership stays unique if it was |
| LevelByLevel.LevelByLevelWms.ProcessEventStandardJobFailure | src/LevelByLevelAlgorithm/LevelByLevelWMS.cpp:430-432 | a failure is ignored: no error and no change |
| Zhang.FirstOversizedIsFirst | src/ZhangClusteringAlgorithm/ZhangClusteringWMS.cpp:77-85 | the width loop throws at the first level in range with more tasks than hosts, and only if there is one |
| Zhang.FirstOversized | src/ZhangClusteringAlgorithm/ZhangClusteringWMS.cpp:76-85 | reference definition of where the width loop throws: the first level from `lo` up to but excluding `hi` with more tasks than hosts, if any (the source loop `start..end` inclusive is the range `[start, end + 1)`); its properties are in `FirstOversizedIsFirst` |
| Zhang.WidestIsMaximum | src/ZhangClusteringAlgorithm/ZhangClusteringWMS.cpp:76-87 | the parallelism is the largest task count of a level in range, reached by one of them |
| Zhang.Widest | src/ZhangClusteringAlgorithm/ZhangClusteringWMS.cpp:76-87 | reference definition of the parallelism: the running `MAX` of the task counts of the levels from `lo` up to but excluding `hi`; its properties are in `WidestIsMaximum` |
| Zhang.LongestTask | src/ZhangClusteringAlgorithm/ZhangClusteringWMS.cpp:92-96 | the longest task time of a level is never negative |
| Zhang.LongestTaskIsMaximum | src/ZhangClusteringAlgorithm/ZhangClusteringWMS.cpp:92-96 | it bounds `flops / core_speed` of every task of the level and is 0 or reached by one of them |
| Zhang.RequestedTime | src/ZhangClusteringAlgorithm/ZhangClusteringWMS.cpp:90-98 | the requested time is never negative |
| Zhang.RequestedTimeCoversLevels | src/ZhangClusteringAlgorithm/ZhangClusteringWMS.cpp:90-98 | it covers the longest task of every level in range |
| Zhang.RangeTasksMembers | src/ZhangClusteringAlgorithm/ZhangClusteringWMS.cpp:101-109 | a task is aggregated iff it belongs to a level in range and is not COMPLETED |
| Zhang.RangeTasks | src/ZhangClusteringAlgorithm/ZhangClusteringWMS.cpp:101-109 | reference definition of the aggregated tasks: the non-COMPLETED tasks of the levels from `lo` up to but excluding `hi`, level by level; its properties are in `RangeTasksMembers` and `AggregateTasks` |
| Zhang.TimeMinutes | src/ZhangClusteringAlgorithm/ZhangClusteringWMS.cpp:119 | the `-t` argument of a real duration is the smallest whole number of minutes strictly longer than it, with at most one minute to spare |
| Zhang.NextStartLevel | src/ZhangClusteringAlgorithm/ZhangClusteringWMS.cpp:60-64 | the start level is at least 1, above every running end level, and either 1 or one past some running end level |
| Zhang.StartLevel | src/ZhangClusteringAlgorithm/ZhangClusteringWMS.cpp:60-64 | the loop over running placeholders computes exactly `NextStartLevel` |
| Zhang.SingleLevel | src/ZhangClusteringAlgorithm/ZhangClusteringWMS.cpp:67 | on the single level `[start, start]` the width, time and task figures are the level's own |
| Zhang.PlanSubmission | src/ZhangClusteringAlgorithm/ZhangClusteringWMS.cpp:50-130 | nothing is done iff a placeholder is pending or the start level is past the last; an oversized start level is an error; otherwise a pilot is planned with the level's width, its longest task time and exactly its non-COMPLETED tasks |
| Zhang.LevelWidth | src/ZhangClusteringAlgorithm/ZhangClusteringWMS.cpp:76-87 | the width loop throws for the first oversized level, or else yields the widest level |
| Zhang.RequestTime | src/ZhangClusteringAlgorithm/ZhangClusteringWMS.cpp:90-98 | the nested time loop computes exactly `RequestedTime` over the range |
| Zhang.AggregateTasks | src/ZhangClusteringAlgorithm/ZhangClusteringWMS.cpp:101-109 | the aggregation loop yields exactly the non-COMPLETED tasks of the range, in level order |
| Zhang.Submit | src/ZhangClusteringAlgorithm/ZhangClusteringWMS.cpp:50-130 | `submitPilotJob`, with the placeholder created before its pilot is submitted: the new pending placeholder, the requests and the outcome are those of the plan |
| Zhang.LaunchSubmitsPendingPilot | src/ZhangClusteringAlgorithm/ZhangClusteringWMS.cpp:116-128 | a launch submits the pilot of the new pending placeholder, for the start level only, with the level's width, one core and its longest task time in minutes |
| Zhang.AsWrittenNeverSubmits | src/ZhangClusteringAlgorithm/ZhangClusteringWMS.cpp:121 | as written, no pilot is ever submitted: every launch reads the pending placeholder while none exists |
| Zhang.SubmitAsWritten | src/ZhangClusteringAlgorithm/ZhangClusteringWMS.cpp:50-130 | reference definition of `submitPilotJob` as written: the same gates and figures as `PlanSubmission`, but a launch reads the pending placeholder at line 121 before creating it, which throws while none exists; its properties are in `AsWrittenNeverSubmits` and `FirstSubmissionDereferencesNull` |
| Zhang.FirstSubmissionDereferencesNull | src/ZhangClusteringAlgorithm/ZhangClusteringWMS.cpp:53-128 | for a two-level workflow with one task in level 1, the first call plans a launch, and as written it dereferences the null pending placeholder |
| Zhang.FindPilot | src/ZhangClusteringAlgorithm/ZhangClusteringWMS.cpp:165-171 | the search finds a running placeholder of the pilot if there is one, and reports none only if there is none |
| Zhang.HasUnprocessed | src/ZhangClusteringAlgorithm/ZhangClusteringWMS.cpp:179-184 | the flag is set iff some task of the placeholder is not COMPLETED |
| Zhang.HasStarted | src/ZhangClusteringAlgorithm/ZhangClusteringWMS.cpp:203-208 | `started` is set iff some task of the placeholder is not NOT_READY |
| Zhang.CancelStep | src/ZhangClusteringAlgorithm/ZhangClusteringWMS.cpp:202-215 | one turn of the cancel loop: an unstarted placeholder adds its pilot termination and its removal, and a started one adds nothing |
| Zhang.CancelUnstarted | src/ZhangClusteringAlgorithm/ZhangClusteringWMS.cpp:201-215 | the loop collects exactly the running placeholders with no started task and terminates each one's pilot once |
| Zhang.EraseAll | src/ZhangClusteringAlgorithm/ZhangClusteringWMS.cpp:217-219 | the erase loop leaves the running placeholders that were not collected |
| Zhang.CancelledExtends | src/ZhangClusteringAlgorithm/ZhangClusteringWMS.cpp:222 | requests made after the cancellations leave them in place |
| Zhang.CancelIdle | src/ZhangClusteringAlgorithm/ZhangClusteringWMS.cpp:193-219 | the pending pilot, if any, is terminated first; then exactly the unstarted running placeholders are terminated and dropped |
| Zhang.FindHolder | src/ZhangClusteringAlgorithm/ZhangClusteringWMS.cpp:233-245 | the search finds a running placeholder holding the task if there is one, and reports none only if there is none |
| Zhang.ReleasesAdd | src/ZhangClusteringAlgorithm/ZhangClusteringWMS.cpp:250-257 | visiting one more running placeholder adds exactly its READY children |
| Zhang.ReleaseChildren | src/ZhangClusteringAlgorithm/ZhangClusteringWMS.cpp:248-258 | the release loop submits exactly the READY children held by running placeholders, each to its holder's pilot, as a set and with multiplicity (`ReleaseCounts`) |
| Zhang.ReleaseCountsHeld | src/ZhangClusteringAlgorithm/ZhangClusteringWMS.cpp:249-256 | with distinct pilots, a running placeholder's pilot receives each READY child as many times as the placeholder's list holds it |
| Zhang.ReleaseCountsOther | src/ZhangClusteringAlgorithm/ZhangClusteringWMS.cpp:248-258 | a pilot of no running placeholder receives no release |
| Zhang.LaunchKeepsTracked | src/ZhangClusteringAlgorithm/ZhangClusteringWMS.cpp:60-128 | a new pending placeholder has a fresh pilot and a level above every running one |
| Zhang.StartKeepsTracked | src/ZhangClusteringAlgorithm/ZhangClusteringWMS.cpp:144-145 | moving the pending placeholder to running keeps pilots and levels distinct |
| Zhang.ShrinkKeepsTracked | src/ZhangClusteringAlgorithm/ZhangClusteringWMS.cpp:217-219 | removing running placeholders keeps the invariant |
| Zhang.ZhangClusteringWms.constructor | src/ZhangClusteringAlgorithm/ZhangClusteringWMS.cpp:19-23 | a new controller has no pending or running placeholder and no request |
| Zhang.ZhangClusteringWms.Commit | src/ZhangClusteringAlgorithm/ZhangClusteringWMS.cpp:124-128 | storing a new state that keeps `Tracked` |
| Zhang.ZhangClusteringWms.SubmitPilotJob | src/ZhangClusteringAlgorithm/ZhangClusteringWMS.cpp:50-130 | the pending placeholder, the pilot submission, the fresh pilot counter and the outcome are those of `PlanSubmission`; running is unchanged |
| Zhang.ZhangClusteringWms.ProcessEventPilotJobStart | src/ZhangClusteringAlgorithm/ZhangClusteringWMS.cpp:133-160 | a pilot other than the pending one is an error and changes nothing; otherwise the pending placeholder joins running, its READY tasks are submitted to it, then the next placeholder is planned |
| Zhang.ZhangClusteringWms.ProcessEventPilotJobExpiration | src/ZhangClusteringAlgorithm/ZhangClusteringWMS.cpp:162-224 | an unknown pilot is an error; a placeholder with nothing unprocessed changes nothing; otherwise the pending pilot and the unstarted running placeholders are cancelled, then a submission is planned from what is left |
| Zhang.ZhangClusteringWms.ProcessEventStandardJobCompletion | src/ZhangClusteringAlgorithm/ZhangClusteringWMS.cpp:226-259 | an unheld task is an error; otherwise only requests are added, exactly the READY children held by running placeholders, as a set and with multiplicity |
| Zhang.ZhangClusteringWms.ProcessEventStandardJobFailure | src/ZhangClusteringAlgorithm/ZhangClusteringWMS.cpp:261-265 | a failure is ignored: no error and no change |

## Left out

- The event loops (`main` of each controller), `waitForAndProcessNextEvent`, the simulator's `main`, `setupSimulationPlatform` and `createDAXWorkflow` are not modelled: they are process, I/O and file plumbing. Each handler is a method that is called directly.
- Logging and terminal colours are not modelled.
- Random task durations and the RNG seed are not modelled. A seed is only checked to be readable, and flops are an input (`WorkflowView.flops`, a natural number).
- `StaticClusteringWMS::createHCJobs` is a parameter `(tasks per cluster, nodes per cluster, level) -> clustered jobs`. Its body is not part of this model. Its declared signature differs from the call in the level-by-level controller.
- `ClusteredJob::estimateMakespan` and the 1.1 fudge factor are a parameter `walltime` (job to whole seconds). Their floating-point arithmetic is not part of this model.
- The filtered task vector built at the top of `createPlaceHolderJobsForLevel` is never used, so it is not modelled.
- Placeholders are values, not shared pointers. In the level-by-level controller a placeholder lives in an arena map keyed by id, and its id is its pilot handle. In the Zhang controller a placeholder carries its pilot handle. Aliasing is therefore not modelled.
- Iteration order over `std::set`/`std::map` is not modelled. The searches pick some match: for a pilot at most one exists, and for a task at most one exists while membership is unique. When several placeholders hold a task, the source keeps the last fit it visits and the model's choice is unspecified. Where the source's order is that of pointer values, request sequences are stated as sets (`ToSet`) and as multisets (`multiset`), so every request and its number of copies are fixed but their order is not.
- Floating point is modelled as `real`: `flops / core_speed`, the sum of level times and the `(unsigned long)` truncation. Overflow of that cast is not modelled.
- The core speed and host count that each controller's `main` reads from the batch service are constructor parameters.
- Indexing an empty token vector (`tokens[0]`, or `tokens[1]` for a lone `levels`) is undefined behaviour in the source. The model reports it as `MissingToken` / `MissingClusteringToken`.
- Zhang.ZhangClusteringWms.ProcessEventPilotJobStart: with no pending placeholder the source dereferences a null pointer at line 135. The model reports this as the same `NotThePendingPilot` error as a mismatching pilot.
- Zhang.ZhangClusteringWms.ProcessEventPilotJobExpiration: the pending pilot is terminated but the pending placeholder is kept, as in the source. Hence the `submitPilotJob` call at the end returns at once.
- Zhang.ZhangClusteringWms.constructor: `createWMS` passes `overlap` and `plimit` to a four-argument constructor, but the controller's constructor takes only the host name and the batch service. The flags have no effect on the modelled controller, so they are not fields.
- Zhang.NextStartLevel: as in the source, the first placeholder starts at level 1 (one past the maximum of 0 and the running end levels), so level 0 is never given a placeholder by `submitPilotJob`.
- `createWMS` never builds the level-by-level controller; the model follows the code, which offers only `static` and `zhang`.
- Zhang.ZhangClusteringWms.Valid: levels are assumed below `ULONG_MAX` (`Tracked`), so `start_level + 1` does not wrap.
- LevelByLevel.LevelByLevelWms.Valid: ongoing levels are below `ULONG_MAX` (`Consistent`). The `ULONG_MAX + 1 = 0` wrap of `level_to_submit` is modelled by `NextLevel`, but it cannot arise from an admitted level.
- Text.ScanULong: the `%u` seed read into an `unsigned int` is checked like `%lu`. Its 32-bit truncation does not matter, because the seed is not used.
- Simulator.ParseWorkflowTokens: tokenising the empty string gives no token. `tokens[0]` is then undefined behaviour in the source, and the model reports `MissingToken`.

## Findings

| source | as written | input that shows it | evidently intended | confidence | as-written member | corrected member |
|---|---|---|---|---|---|---|
| src/ZhangClusteringAlgorithm/ZhangClusteringWMS.cpp:121 | `submitJob(this->pending_placeholder_job->pilot_job, …)` runs while `pending_placeholder_job` is null (the gate at line 53 returned otherwise); the placeholder is only created at line 124 | the first `submitPilotJob` of a two-level workflow with one READY task in level 1, one host, core speed 1 | create the placeholder and its pilot (lines 124-128), then submit that pilot | high; not executed | Zhang.AsWrittenNeverSubmits, Zhang.FirstSubmissionDereferencesNull | Zhang.Submit, Zhang.LaunchSubmitsPendingPilot, Zhang.ZhangClusteringWms.SubmitPilotJob |
