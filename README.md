# htp4viam orchestrator: ledger, test lifecycle and layout, in Dafny

This project models the sequential core of the htp4viam hardware-test
orchestrator and proves properties of it. It covers three parts.

- **The resource ledger** (`Ledger`). This is a vector of
  `(test id, resource, exclusive)` rows with three parts:
  - counting, exclusive-lock and owner queries;
  - `acquire_resource`, which checks three guards and then appends a row;
  - `release_resource`, which finds the last matching row and
    `swap_remove`s it.

  The class `Ledger.ResourceLedger` keeps the rows in a `seq` field. Its
  methods are loops proved against the functions `Count`, `Locked`, `Owners`,
  `Acquire` and `Release`. The main theorem is `LedgerInvariant`. Start from
  an empty ledger and apply any sequence of acquires and releases. Afterwards
  an exclusive row is the only row for its resource, and no
  (test, resource) pair has two rows.
- **The test lifecycle** (`HtpTests`, `RunningTests`, `Pipeline`,
  `Preparation`, `Acquisition`, `Running`, `Termination`).
  - The typestate `HtpTest<Stage>` becomes a record with a `stage` tag.
  - The accessors that only post-validation stages have take that stage as a
    precondition.
  - The running-test registry is a class with a `seq` of entries. Creating a
    test appends an entry, and `clone_into` re-stages the test's first entry.
    The termination stage removes every entry with the test's specification
    id.
  - The stage workers are classes over FIFO channels (`Pipeline.TestChannel`).
    The three forwarding workers are `Preparation.Preparer`,
    `Acquisition.Aquirer` and `Running.Runner`. Their `ProcessOne` dequeues
    at most one test and sends it exactly once: on `output` when the stage
    succeeds, on `output_terminated` when it fails.
  - The last worker, `Termination.TerminatedSink`, has no output channel. Its
    `ProcessOne` dequeues at most one test, sends nothing, and removes the
    test's entries from the registry.
  - The running stage has two proved parts:
    - the container bind list: the test's mounts, then each dependency's
      mounts, in dependency order;
    - the dependency-install loop, which stops at the first failure.
- **Paths and layout** (`Paths`, `Folder`, `TestsConfig`).
  - On-disk folder paths for dependencies and tests.
  - The mount maps and their `env_vars` / `mount_points` renderings.
  - Test-group validation (no duplicate names) and lookup by name.

Other modelling choices:

- A path is an absolute flag plus a list of components. A component may be
  non-Unicode, so converting a path to a string can fail, as `to_str` can.
- A folder's `PathBuf` is the `path` field of `Folder.HtpFolder`. Both
  `From<HtpFolder>` conversions (by value and by reference) return that
  field, so the model reads the field directly.
- A panic in the source (`unwrap`, `expect`, `panic!`) becomes a
  precondition.
- A filesystem or container outcome becomes a parameter.
- `anyhow::Error` becomes the datatype `Wrappers.Error`: a message,
  optionally wrapping the error it came from.

A description of the ledger might promise that `get_owners` lists owners in
acquisition order. The code does not keep that order, and the model follows
the code. After a release, `get_owners` lists owners in vector order, because
`swap_remove` moves the last row into the freed slot.
`Ledger.ReleaseReordersOwners` shows a concrete case.

## Model

| member | source | states |
|---|---|---|
| Ledger.ResourceLedger.constructor | orchestrator/src/resource_ledger.rs:10-17 | a default ledger has no rows |
| Ledger.ResourceLedger.AllocatedCount | orchestrator/src/resource_ledger.rs:20-28 | the counting loop returns the number of rows for the resource |
| Ledger.ResourceLedger.IsExclusivelyLocked | orchestrator/src/resource_ledger.rs:29-36 | true exactly when some row for the resource has the exclusive flag |
| Ledger.ResourceLedger.GetOwners | orchestrator/src/resource_ledger.rs:37-45 | the ids of the rows for the resource, in row order |
| Ledger.ResourceLedger.AcquireResource | orchestrator/src/resource_ledger.rs:47-72 | on success the ledger is the old rows plus the requested row; on failure it is unchanged and the error is that of the first guard that fired; consistency is preserved |
| Ledger.ResourceLedger.ReleaseResource | orchestrator/src/resource_ledger.rs:73-87 | the scan keeps the last matching index; with none the release fails and nothing changes; otherwise that row is swap-removed; consistency is preserved |
| Ledger.OwnersLength | orchestrator/src/resource_ledger.rs:20-45 | `get_owners` returns exactly as many ids as `allocated_count` counts |
| Ledger.CountZero | orchestrator/src/resource_ledger.rs:20-28 | the count is zero exactly when no row is for the resource |
| Ledger.OwnersHolds | orchestrator/src/resource_ledger.rs:37-45 | a test is among the owners exactly when it has a row for the resource |
| Ledger.OwnersAppend | orchestrator/src/resource_ledger.rs:37-45 | owners follow row order: the owners of a concatenation are the owners of each part, in order |
| Ledger.Acquire | orchestrator/src/resource_ledger.rs:47-72 | `acquire_resource` on a row list: the three guards in source order with their messages, then the appended row; characterised by `AcquireSucceedsIff` and `AcquirePreserves` |
| Ledger.AcquireSucceedsIff | orchestrator/src/resource_ledger.rs:53-71 | an acquire succeeds iff it is not an exclusive request on a used resource (the requester included), the resource is not exclusively locked, and the requester holds no row for it; a success appends exactly the requested row |
| Ledger.LastMatch | orchestrator/src/resource_ledger.rs:74-79 | -1 when the test holds no row for the resource, else the index of the last such row |
| Ledger.SwapRemove | orchestrator/src/resource_ledger.rs:85 | one row shorter; the removed slot holds the former last row and every other position is unchanged |
| Ledger.SwapRemoveMultiset | orchestrator/src/resource_ledger.rs:85 | swap-removing loses exactly the removed row: the multiset of rows drops by that row |
| Ledger.Release | orchestrator/src/resource_ledger.rs:73-87 | `release_resource` on a row list: the never-owned error when `LastMatch` finds nothing, else the swap-removal of that row; characterised by `ReleaseSpec`, `ReleaseCount` and `ReleasePreserves` |
| Ledger.ReleaseSpec | orchestrator/src/resource_ledger.rs:73-87 | a release fails iff the test holds no row for the resource; on success exactly one matching row is gone, the rows before it stay, and the former last row fills its slot |
| Ledger.AcquireReleaseRoundTrip | orchestrator/src/resource_ledger.rs:47-87 | releasing a row just acquired restores the ledger exactly |
| Ledger.ReleaseCount | orchestrator/src/resource_ledger.rs:73-87 | a successful release lowers the resource's count by one and leaves every other resource's count unchanged |
| Ledger.AcquirePreserves | orchestrator/src/resource_ledger.rs:47-72 | a successful acquire keeps "exclusive rows are alone" and "pairs are unique" |
| Ledger.ReleasePreserves | orchestrator/src/resource_ledger.rs:73-87 | a successful release keeps both invariants |
| Ledger.ReplayPreserves | orchestrator/src/resource_ledger.rs:47-87 | any sequence of calls, failed ones leaving the ledger unchanged, keeps both invariants |
| Ledger.LedgerInvariant | orchestrator/src/resource_ledger.rs:47-87 | from an empty ledger every sequence of acquires and releases ends with exclusive rows alone and pairs unique |
| Ledger.ReleaseReordersOwners | orchestrator/src/resource_ledger.rs:73-87 | after shared acquires by 1, 2, 3 and a release by 1, the owners are `[3, 2]`: vector order, not acquisition order |
| Ledger.ThreeAcquiresOneRelease | orchestrator/src/resource_ledger.rs:69-85 | the rows after that sequence are exactly `(3,r)` then `(2,r)` |
| Ledger.SecondAcquireByHolderFails | orchestrator/src/resource_ledger.rs:146-164 | a holder asking again fails (already held when shared, already in use when exclusive); a second test's shared request succeeds and the count becomes 2 |
| HtpTests.Name | orchestrator/src/htp_test.rs:65-94 | each stage's `name()`: "Queued", "Validated", "Prepared", "Aquiring", "Runnable", "Terminated"; `NamesDistinct` shows no two stages share one |
| HtpTests.NamesDistinct | orchestrator/src/htp_test.rs:65-94 | the six stage names are pairwise distinct |
| HtpTests.New | orchestrator/src/htp_test.rs:128-172 | on success: id 0, the config and persist folders at their layout paths, no config, dependencies or error, stage Queued, and exactly one registry entry `(spec id, "0", "Queued")` appended; on a filesystem failure the first failing step's error and an unchanged registry |
| HtpTests.CloneInto | orchestrator/src/htp_test.rs:174-199 | every field is carried over with only the stage changed; the registry's first entry for the spec id gets the target stage's name |
| HtpTests.GetConfig | orchestrator/src/htp_test.rs:206-210 | only post-validation stages; panics (precondition) without a config; returns the stored config |
| HtpTests.GetTestGroup | orchestrator/src/htp_test.rs:211-217 | only post-validation stages; the group named by the spec id; panics when missing |
| HtpTests.GetTestSpec | orchestrator/src/htp_test.rs:218-224 | the returned test carries the spec id's name and belongs to the test's group |
| HtpTests.GetDependencies | orchestrator/src/htp_test.rs:225-229 | only post-validation stages; panics without dependencies; returns the stored list |
| HtpTests.NewDependency | orchestrator/src/htp_test.rs:261-289 | on success the dependency has version "VER" and its build input/output folders at their layout paths; otherwise the context-wrapped error of the first folder that failed |
| HtpTests.TestMountMap | orchestrator/src/htp_test.rs:235-249 | the test's mount map, as the two pushes build it; its exact layout is `TestMountMapLayout` |
| HtpTests.DependencyMountMap | orchestrator/src/htp_test.rs:290-308 | a dependency's mount map under `root/dependencies/<name>-<ver>`; its exact layout is `DependencyMountMapLayout` |
| HtpTests.TestMountMapLayout | orchestrator/src/htp_test.rs:235-249 | two mounts, in order: HTP_CONFIG from the config folder to `root/config`, then HTP_PERSIST from the persist folder to `root/persist` |
| HtpTests.DependencyMountMapLayout | orchestrator/src/htp_test.rs:290-308 | two mounts, HTP_BUILD_INPUT then HTP_BUILD_OUTPUT, from the build folders to `root/dependencies/<name>-<ver>/input` and `/output` |
| HtpTests.MountTargetsSeparate | orchestrator/src/htp_test.rs:235-308 | no test mount lands where a dependency mount does; dependencies with different names never share a mount target, for names and version tag without `/` |
| HtpTests.EnvVarsOf | orchestrator/src/htp_test.rs:375-387 | succeeds iff every inner path is representable; then one `VAR=inner` string per mount, in order; otherwise the inner-path error |
| HtpTests.MountPointsOf | orchestrator/src/htp_test.rs:388-403 | succeeds iff every host and inner path is representable; then one `host:inner` string per mount, in order; otherwise the error names the first faulty mount's host path, or else its inner path |
| HtpTests.EnvVarsPrefixFailure | orchestrator/src/htp_test.rs:377-384 | once a prefix of the mounts fails, the whole rendering fails with the same error |
| HtpTests.MountPointsPrefixFailure | orchestrator/src/htp_test.rs:390-399 | likewise for mount points |
| HtpTests.EnvVars | orchestrator/src/htp_test.rs:375-387 | the loop with early return yields exactly `EnvVarsOf` |
| HtpTests.MountPoints | orchestrator/src/htp_test.rs:388-403 | the loop with early return yields exactly `MountPointsOf` |
| RunningTests.RunningTestMap.constructor | orchestrator/src/running_test_map.rs:15-18 | a default registry is empty |
| RunningTests.FirstWithId | orchestrator/src/htp_test.rs:177-181 | the position `find` stops at: an entry with the id, and none before it |
| RunningTests.Restage | orchestrator/src/htp_test.rs:176-183 | the registry after `clone_into` overwrites the stage of the first entry for the id; characterised by `RestageSpec` |
| RunningTests.RestageSpec | orchestrator/src/htp_test.rs:176-183 | re-staging changes only the stage of the first entry for the id; length, order and other entries are kept |
| RunningTests.Without | orchestrator/src/stages/termination.rs:23 | the registry after `retain(p.id != id)`, filtering in order; characterised by `WithoutMembers`, `WithoutAppend` and `WithoutNoEntry` |
| RunningTests.WithoutMembers | orchestrator/src/stages/termination.rs:21-24 | after `retain` no entry has the id, and every entry with another id remains |
| RunningTests.WithoutAppend | orchestrator/src/stages/termination.rs:23 | `retain` keeps relative order: it distributes over concatenation |
| RunningTests.WithoutNoEntry | orchestrator/src/stages/termination.rs:23 | without an entry for the id, `retain` changes nothing |
| TestsConfig.Validate | orchestrator/src/config/tests.rs:14-25 | fails iff two tests share a name; the error names the first test, scanning left to right, whose name already occurred |
| TestsConfig.Find | orchestrator/src/config/tests.rs:26-33 | `None` iff no test has the name; otherwise the first test with that name |
| TestsConfig.GetTest | orchestrator/src/config/tests.rs:26-33 | the linear search with early return yields exactly `Find` |
| TestsConfig.FindAt | orchestrator/src/config/tests.rs:27-30 | the first position with the name determines the lookup result |
| TestsConfig.FindUnique | orchestrator/src/config/tests.rs:14-33 | in a group that validates, looking up a member's name returns that member |
| TestsConfig.CheckTestMap | orchestrator/src/config/tests.rs:52-55 | a test map passes iff every group validates; a failure is some group's duplicate-name error |
| Folder.DependencyFolderPath | orchestrator/src/folder.rs:36-42 | `root/dependencies/<name>-<uuid>/build_input` or `/build_output`; `Folder.NewDependency`'s pushes are proved to build it |
| Folder.TestFolderPath | orchestrator/src/folder.rs:53-60 | `root/tests/<group>/<name>-<version>/config` or `/persist`; `Folder.NewTest`'s pushes are proved to build it |
| Folder.NewDependency | orchestrator/src/folder.rs:30-46 | on success the folder is `root/dependencies/<name>-<uuid>/build_input` or `/build_output`, tagged with the requested type; otherwise the create error |
| Folder.NewTest | orchestrator/src/folder.rs:47-64 | on success the folder is `root/tests/<group>/<name>-<version>/config` or `/persist`, tagged with the requested type; otherwise the create error |
| Folder.DashSuffixCancels | orchestrator/src/folder.rs:38 | with the suffix fixed, `<name>-<suffix>` determines the name |
| Folder.DependencyFoldersDifferInLeaf | orchestrator/src/folder.rs:36-42 | a dependency's input and output folders agree on every component but the last, and differ |
| Folder.TestFoldersDifferInLeaf | orchestrator/src/folder.rs:53-60 | a test's config and persist folders agree on every component but the last, and differ |
| Folder.DependencyFoldersSeparateNames | orchestrator/src/folder.rs:36-42 | dependencies with different names never share a folder, for names and uuid without `/` |
| Folder.TestFoldersSeparateTests | orchestrator/src/folder.rs:53-60 | different tests with the same version never share a folder, when each group is one plain component (not empty, `.` or `..`) and no name or version holds `/` |
| Folder.DependencyAndTestFoldersDisjoint | orchestrator/src/folder.rs:30-64 | dependency folders and test folders never coincide |
| Format.NatToString | orchestrator/src/resource_ledger.rs:55 | decimal digits without leading zeros whose value, read left to right, is the number, as the error messages print a test id |
| Pipeline.TestChannel.TryRecv | orchestrator/src/stages/preperation.rs:33-35 | an empty queue yields nothing and stays empty; otherwise the oldest record is removed and returned |
| Pipeline.TestChannel.Send | orchestrator/src/stages/preperation.rs:45 | a closed channel fails with the disconnection error and keeps its queue; otherwise the record is appended |
| Pipeline.Route | orchestrator/src/stages/preperation.rs:39-55 | exactly one send: a success on `output`, a failure's terminated record on `output_terminated`; the other channel is unchanged when the two differ |
| Preparation.Prepare | orchestrator/src/stages/preperation.rs:74-88 | success re-tags the record Prepared; failure carries "Config creation failed", the cause and the record re-tagged Terminated; the registry entry follows the new stage |
| Preparation.Preparer.constructor | orchestrator/src/stages/preperation.rs:17-27 | stores the three channels |
| Preparation.Preparer.DesiredPollDelay | orchestrator/src/stages/preperation.rs:28-31 | positive and at most five seconds |
| Preparation.Preparer.ProcessOne | orchestrator/src/stages/preperation.rs:32-58 | `output_terminated` (items and closed flag) is never touched; an empty queue changes nothing and returns Ok; otherwise the head is dequeued, its registry entry becomes "Prepared", it is sent re-tagged on `output`, and the send result is returned |
| Acquisition.Aquire | orchestrator/src/stages/aquiring.rs:74-88 | success takes a Validated record straight to Runnable; failure carries the message, the cause and the record re-tagged Terminated; the registry entry follows |
| Acquisition.Aquirer.constructor | orchestrator/src/stages/aquiring.rs:17-27 | stores the three channels |
| Acquisition.Aquirer.DesiredPollDelay | orchestrator/src/stages/aquiring.rs:28-31 | positive and at most five seconds |
| Acquisition.Aquirer.ProcessOne | orchestrator/src/stages/aquiring.rs:32-58 | `output_terminated` (items and closed flag) is never touched; an empty queue changes nothing; otherwise the head is dequeued, its registry entry becomes "Runnable", and it is sent on `output` |
| Termination.TerminatedSink.constructor | orchestrator/src/stages/termination.rs:9-11 | stores the input channel |
| Termination.TerminatedSink.DesiredPollDelay | orchestrator/src/stages/termination.rs:12-14 | positive and at most five seconds |
| Termination.TerminatedSink.ProcessOne | orchestrator/src/stages/termination.rs:15-27 | always Ok; an empty queue leaves the registry alone; otherwise the head is dequeued and the registry becomes its entries for other ids, in order |
| Running.DependencyMountPoints | orchestrator/src/stages/running.rs:92-93 | a dependency's mount points succeed iff the root and its folders are representable, and are then its input and output bind strings |
| Running.FlattenLength | orchestrator/src/stages/running.rs:90-94 | appending two binds per dependency gives twice as many binds as dependencies |
| Running.FlattenAt | orchestrator/src/stages/running.rs:90-94 | after appending pairs in order, pair `i` sits at positions `2i` and `2i+1` |
| Running.DependencyBindsLayout | orchestrator/src/stages/running.rs:90-94 | both facts together, for every dependency |
| Running.FirstFailure | orchestrator/src/stages/running.rs:117-127 | `None` iff every install succeeded; otherwise the first failed install |
| Running.RunResult | orchestrator/src/stages/running.rs:117-145 | what `run` returns: at the first failed install, "Failed to install dep" with that install's error and the record re-tagged Terminated; otherwise the record re-tagged Terminated |
| Running.RunnerRootRendering | orchestrator/src/stages/running.rs:79-82 | the container root's config and persist folders render as `/htp/config` and `/htp/persist` |
| Running.RunEnvironment | orchestrator/src/stages/running.rs:130-131 | the script's environment is exactly `HTP_CONFIG=/htp/config`, `HTP_PERSIST=/htp/persist` |
| Running.TestMountPoints | orchestrator/src/stages/running.rs:84-88 | the test's mount points succeed iff its folders are representable, and are then config then persist under `/htp` |
| Running.BindList | orchestrator/src/stages/running.rs:84-94 | the bind list is the test's binds followed by each dependency's, in dependency order |
| Running.UnwrapTestMountPoints | orchestrator/src/stages/running.rs:88 | the unwrapped test mount points are the test's bind pair |
| Running.UnwrapDependencyMountPoints | orchestrator/src/stages/running.rs:92-93 | the unwrapped dependency mount points are its bind pair |
| Running.InstallDependencies | orchestrator/src/stages/running.rs:117-127 | installs in order and stops at the first failure, whose position it returns |
| Running.Run | orchestrator/src/stages/running.rs:77-146 | the record leaves Terminated (registry too); the first failed install gives "Failed to install dep" with that error; the bind list as above; on success the exec request is the environment above, working dir `/htp/config` and `/usr/bin/env bash -c <script>` |
| Running.Runner.constructor | orchestrator/src/stages/running.rs:24-34 | stores the three channels |
| Running.Runner.DesiredPollDelay | orchestrator/src/stages/running.rs:35-38 | positive and at most five seconds |
| Running.Runner.ProcessOne | orchestrator/src/stages/running.rs:39-60 | an empty queue changes nothing; otherwise the head is run, its registry entry becomes "Terminated", and it is sent once: on `output` after a successful run, on `output_terminated` after a failed install |

## Left out

- Container work (image pull, create, exec, shutdown) and `Dependency::build` / `install_on` are foreign calls into Docker. Install outcomes are a parameter of `Running.Run`, and the exec is returned as a request instead of being executed. The panics on container create, exec and shutdown failure are not modelled.
- Running.Run: the code does not shut the container down when an install fails. The model has no container state, so this leak is not represented.
- Filesystem I/O (`create_dir_all`, `copy_from`, `copy_dir_recurse`) is left out; each outcome is a parameter. JSON5 parsing of the catalogues is left out too; `TestsConfig.CheckTestMap` models only the per-group check that `parse` applies.
- Concurrency is left out: the `Arc<Mutex<…>>` around the registry and lock-poisoning unwraps. The registry is one object passed by reference. The orchestrator's task wiring, poll-and-sleep loops and close broadcast are also left out.
- The registry's `entry_time` and the statistics sink are telemetry and are left out, as are the `println!` lines.
- `close()` on the workers only prints, so it is not modelled. A `try_recv` on a disconnected channel is treated like an empty one; both return Ok.
- Preparation.Preparer.ProcessOne: the preparation work is not written in the source, so it is the constant outcome `Pass`. `Preparation.Prepare` still takes the outcome as a parameter, so its failure branch is modelled and proved.
- Acquisition.Aquirer.ProcessOne: likewise, the acquisition work is the constant outcome `Pass`; `Acquisition.Aquire` takes it as a parameter.
- `dependencies_mut` hands out a mutable reference; the model works on values, so only `dependencies()` is modelled.
- The validation stage and the test queue are not part of this model. Neither has transition logic in the source.
- Apparatus, device and device-type catalogues are not modelled beyond the fields the lifecycle reads.
- `usize` bounds on test ids and counts: ids and counts are unbounded naturals. Overflow cannot happen at realistic sizes.
- `Paths.Join` keeps a pushed name as one component whatever it holds. `PathBuf::push` splits a name at `/`, replaces the whole path with an absolute name, and path comparison drops empty and `.` components. So in the program, ids such as `("a/b", "c")` and `("a", "b/c")` share a test folder. The folder-separation lemmas (`Folder.DependencyFoldersSeparateNames`, `Folder.TestFoldersSeparateTests`, the second clause of `HtpTests.MountTargetsSeparate`) are stated only for names that `push` adds as single components (`Paths.SlashFree`, `Paths.PlainComponent`).
- The `Display` text of the stage error types (`"Preperation error: …"`, and `"Aquisition error: …"` for both acquisition and running) is not modelled; the message field is.
- Preparation.Preparer.DesiredPollDelay: states the five-second ceiling from the source comment, not the exact value of 100 ms.
- Acquisition.Aquirer.DesiredPollDelay: states the five-second ceiling from the source comment, not the exact value of 100 ms.
- Termination.TerminatedSink.DesiredPollDelay: states the five-second ceiling from the source comment, not the exact value of 100 ms.
- Running.Runner.DesiredPollDelay: states the five-second ceiling from the source comment, not the exact value of 100 ms.
