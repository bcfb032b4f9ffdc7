# Screenshot plugin of browser-use, modelled in Dafny

This project models `ScreenshotPlugin`, the recorder that browser-use's screenshot plugin attaches to an agent run.
The recorder keeps two pieces of state:

- a shadow step counter, `current_step`;
- an append-only ledger of plan records, `plans`.

It writes three kinds of per-step artifacts into a directory named `execute_{step:03d}_{timestamp}` under its base directory:

- `screenshot.png`, the decoded screenshot;
- `plan.json`, the agent's plan;
- `results.json`, the action results.

At the end of a run it writes the whole ledger to `all_plans_{timestamp}.json` at the root of the base directory.

## Files

- `step_format.dfy`: module `Options` (an `Option` datatype) and module `StepFormat`. `StepFormat` holds Python's `format(n, "03d")`, its reading back (`ParseStep`), and the proof that the padded field determines the step, negative steps included.
- `paths.dfy`: module `Paths`. It holds `os.path.join` for two components, the step directory name, the artifact and summary names, their parsers, and the proofs that these names never collide.
- `artifacts.dfy`: module `Artifacts`. It holds the values read from the agent (`BrowserState`, `AgentOutput`, `ActionResult`) and the records written (`PlanRecord`, `ResultEntry`, `Content`). It also holds the record builders `NewPlanRecord` and `ResultsData`, and `ScreenshotBytes`, which models the `if state.screenshot` / `b64decode` branch.
- `service.dfy`: module `ScreenshotService`. It holds the filesystem as a `Disk` object (a set of directories and a map from paths to contents) and the class `ScreenshotPlugin`. The class has the counter and the ledger as fields, `Valid()` as its invariant, and one method per method of the source. The module ends with lemmas about step directories, lemmas showing that a step's `plan.json` survives the later steps and the summary, and a method `RunSteps` driving a whole run.

The filesystem, the clock and base64 decoding are handled as follows:

- **Filesystem.** `Path.mkdir(parents=True, exist_ok=True)` adds one path to `Disk.dirs`. Writing a file updates `Disk.files`, and only into a directory that exists. In Python, `open` on a missing directory raises. `save_screenshot` catches that in its `except Exception` branch (service.py:59-67), but `save_plan`, `save_results` and `save_all_plans` do not. Every write in the model targets a directory that the same call has just created, or the base directory, which `Valid()` keeps existing, so none of these writes can fail.
- **Clock.** Every `datetime.now()` becomes a string parameter of the method that reads the clock. `_create_execute_dir` reads the clock on every call, so the model takes a separate stamp per directory creation. `handle_step`, for example, takes one stamp for the screenshot's directory and one for the plan's directory. `HandleStepSharesDirectory` proves that the two artifacts of one step land in the same directory exactly when the two readings format to the same second.
- **Base64.** `base64.b64decode` is a parameter `decode: string -> Option<seq<bv8>>`. `None` stands for the exception that the source catches and logs.

## Model

| member | source | states |
|---|---|---|
| `StepFormat.FormatStep` | browser_use/plugins/screenshot/service.py:217 | `{step:03d}` is at least 3 characters long, and exactly 3 iff -99 <= step <= 999. A non-negative step is all digits. A negative step starts with `-` and is followed by digits, so the sign counts towards the width. A field longer than 3 has no leading zero after the sign: padding never goes past width 3. |
| `StepFormat.Decimal` | browser_use/plugins/screenshot/service.py:217 | The decimal spelling inside the field is digits only, has no leading zero, and has 1, at most 2 or at most 3 characters exactly when the number is below 10, 100 or 1000. |
| `StepFormat.FormatStepRoundTrip` | browser_use/plugins/screenshot/service.py:217 | Reading the padded field back gives the step, for every integer step. Zero padding and the sign lose nothing. |
| `StepFormat.FormatStepInjective` | browser_use/plugins/screenshot/service.py:217 | Two steps get the same field exactly when they are equal. |
| `Paths.ExecuteDirNameRoundTrip` | browser_use/plugins/screenshot/service.py:217 | `execute_{step:03d}_{timestamp}` can be parsed back into its step and its timestamp, whatever the timestamp holds. |
| `Paths.ExecuteDirNameInjective` | browser_use/plugins/screenshot/service.py:217 | Two step directory names are equal iff their steps and their timestamps are equal. |
| `Paths.JoinInjective` | browser_use/plugins/screenshot/service.py:217 | `os.path.join` of one directory with two relative names gives the same path iff the names are equal. |
| `Paths.ExecuteDirInjective` | browser_use/plugins/screenshot/service.py:216-218 | Under one base directory, the step directory is the same for two saves iff they use the same step and the same clock second. The same (step, timestamp) always gives the same directory, and different steps never share one. |
| `Paths.Join` | browser_use/plugins/screenshot/service.py:56 | `os.path.join(a, b)` for two components. Its shape is stated by `Paths.JoinShape`, its injectivity by `Paths.JoinInjective`. |
| `Paths.JoinShape` | browser_use/plugins/screenshot/service.py:56 | An absolute second component replaces the first. A relative one follows the first component unchanged, with one `/` added unless the first is empty or already ends in `/`; the length of the result says that nothing else is inserted. |
| `Paths.ExecuteDirName` | browser_use/plugins/screenshot/service.py:217 | The name `execute_{step:03d}_{timestamp}`. `Paths.ExecuteDirNameRoundTrip` proves that it parses back to its step and timestamp. |
| `Paths.ExecuteDir` | browser_use/plugins/screenshot/service.py:217 | `os.path.join(base_dir, execute_{step:03d}_{timestamp})`. `Paths.ExecuteDirInjective` proves that it determines its step and timestamp. |
| `Paths.AllPlansName` | browser_use/plugins/screenshot/service.py:199 | The summary name is `all_plans_`, then the timestamp unchanged, then `.json`: 15 characters more than the timestamp. |
| `Paths.ArtifactPathRoundTrip` | browser_use/plugins/screenshot/service.py:53-56 | For a timestamp without `/`, the path of `screenshot.png`, `plan.json` or `results.json` in a step directory parses back to its step, timestamp and name. |
| `Paths.ArtifactPathsOfStepsDiffer` | browser_use/plugins/screenshot/service.py:216-217 | Artifacts saved under two different steps never share a path, whatever the clock readings. |
| `Paths.ArtifactPathInjective` | browser_use/plugins/screenshot/service.py:53-56 | For timestamps without a path separator (as strftime gives), an artifact path (`screenshot.png`, `plan.json`, `results.json` in a step directory) determines its step, its timestamp and its name. Artifacts of different steps or seconds never overwrite each other. |
| `Paths.SummaryIsNoStepPath` | browser_use/plugins/screenshot/service.py:198-199 | `base_dir/all_plans_{timestamp}.json` is never a step directory, nor an artifact inside one, for any timestamps. |
| `Artifacts.ScreenshotBytes` | browser_use/plugins/screenshot/service.py:58-61 | An image is written iff the state carries a non-empty screenshot string that decodes, and then it is the decoded bytes. |
| `Artifacts.NewPlanRecord` | browser_use/plugins/screenshot/service.py:94-101 | The plan record carries the step and the clock reading it was given, plus the output's state and actions. `next_goal` and `evaluation` are present iff the output has a current state, and then they are copied from it. |
| `Artifacts.EntryOf` | browser_use/plugins/screenshot/service.py:133-139 | One results entry copies `extracted_content`, `error`, `success`, `is_done` and `include_in_memory` from its action result, unchanged. |
| `Artifacts.ResultsData` | browser_use/plugins/screenshot/service.py:132-141 | The results list has one entry per action result, in input order. Each entry copies `extracted_content`, `error`, `success`, `is_done` and `include_in_memory`. |
| `ScreenshotService.Disk.MakeDirs` | browser_use/plugins/screenshot/service.py:218 | Creating a directory adds it to the directory set and changes no file. Creating an existing directory changes nothing. |
| `ScreenshotService.Disk.WriteFile` | browser_use/plugins/screenshot/service.py:107-109 | A write replaces the content at `os.path.join(dir, name)` and nothing else. It needs the directory to exist. |
| `ScreenshotService.ResolveStep` | browser_use/plugins/screenshot/service.py:49-50 | An explicit step number is used as given; without one, the shadow counter is used. |
| `ScreenshotService.PutScreenshot` | browser_use/plugins/screenshot/service.py:58-64 | The screenshot write adds or replaces exactly the `screenshot.png` path, with the decoded image, when there is one. Without an image no file changes. Every other file keeps its content. |
| `ScreenshotService.ScreenshotPlugin.constructor` | browser_use/plugins/screenshot/service.py:22-36 | A new plugin has counter 0 and an empty ledger. It keeps `base_dir` and `save_plans` and creates the base directory. |
| `ScreenshotService.ScreenshotPlugin.CreateExecuteDir` | browser_use/plugins/screenshot/service.py:206-219 | Returns `base_dir/execute_{step:03d}_{stamp}` and adds exactly that directory. Files, counter and ledger are unchanged. |
| `ScreenshotService.ScreenshotPlugin.SaveScreenshot` | browser_use/plugins/screenshot/service.py:38-71 | Targets the explicit step, or the counter when none is given. Creates that step's directory and always returns its `screenshot.png` path. Writes the decoded image there only when a screenshot is present and decodes. Counter and ledger are unchanged. |
| `ScreenshotService.ScreenshotPlugin.SavePlan` | browser_use/plugins/screenshot/service.py:73-112 | With `save_plans` off, returns `""` and leaves ledger, directories and files unchanged. With it on, appends exactly one record for the explicit step (or the counter), keeps every earlier entry, and writes the record to `plan.json` in that step's directory. The counter is unchanged. |
| `ScreenshotService.ScreenshotPlugin.SaveResults` | browser_use/plugins/screenshot/service.py:114-149 | Writes `ResultsData(results)` to `results.json` in the target step's directory and returns that path. Counter and ledger are unchanged. |
| `ScreenshotService.ScreenshotPlugin.HandleStep` | browser_use/plugins/screenshot/service.py:151-165 | Sets the counter to host step − 1. Saves the screenshot, and the plan if enabled, under step − 1 and not under the host step. Appends to the ledger only when plan saving is on. |
| `ScreenshotService.ScreenshotPlugin.HandleExecute` | browser_use/plugins/screenshot/service.py:167-182 | Writes the screenshot and the results under the counter's value before the call, then increases the counter by exactly one. The ledger is unchanged. |
| `ScreenshotService.ScreenshotPlugin.HandleDone` | browser_use/plugins/screenshot/service.py:184-191 | Ignores the history and has exactly the effect of `save_all_plans`. |
| `ScreenshotService.ScreenshotPlugin.SaveAllPlans` | browser_use/plugins/screenshot/service.py:193-204 | Writes no file and creates no directory when `save_plans` is off or the ledger is empty. Otherwise it writes exactly one file, `base_dir/all_plans_{stamp}.json`, holding the whole ledger in order. The ledger is unchanged. |
| `ScreenshotService.HandleStepSharesDirectory` | browser_use/plugins/screenshot/service.py:162-165 | The screenshot and the plan of one `handle_step` share a step directory iff the two clock readings of `_create_execute_dir` are the same second. |
| `ScreenshotService.HostStepZeroDirName` | browser_use/plugins/screenshot/service.py:162 | Host step 0 is recorded as step −1, whose directory is `execute_-01_{timestamp}`. |
| `ScreenshotService.PlanFilesSurviveStep` | browser_use/plugins/screenshot/service.py:151-165 | If every earlier step's `plan.json` holds its record, then after one more `handle_step` (screenshot, then plan, under the next step) every earlier one still holds its record and the new step's holds the new record. |
| `ScreenshotService.PlanFileKept` | browser_use/plugins/screenshot/service.py:107-109 | An earlier step's `plan.json` is neither the new step's `screenshot.png` nor its `plan.json`, so it keeps its content. |
| `ScreenshotService.EarlierPlanPathAvoided` | browser_use/plugins/screenshot/service.py:56 | For stamps without `/`, the `plan.json` of an earlier step is neither the `screenshot.png` nor the `plan.json` of a later step. |
| `ScreenshotService.PlanFilesSurviveSummary` | browser_use/plugins/screenshot/service.py:198-202 | Writing `all_plans_{timestamp}.json` leaves every step's `plan.json` as it was. |
| `ScreenshotService.HostStep` | browser_use/plugins/screenshot/service.py:151-165 | One `handle_step` with plan saving on appends exactly the new record to the ledger and keeps every step's `plan.json`, the new one included, holding its record. |
| `ScreenshotService.LedgerDirsExist` | browser_use/plugins/screenshot/service.py:91-104 | When the ledger's records carry the steps first − 1, first, ... and each record's step directory exists, the directory of the j-th step of the run exists. |
| `ScreenshotService.RunSteps` | browser_use/plugins/screenshot/service.py:151-202 | A fresh plugin driven through n `handle_step` calls for host steps first, first + 1, ... and then `handle_done`. The ledger holds exactly n records, the k-th being the plan record of the k-th output under step first − 1 + k with the k-th time reading. After the whole run, summary included, each step's `plan.json` in `execute_{first−1+k:03d}_{stamp_k}` still holds its record. Each of those step directories exists. The summary file holds the whole ledger in order. A run without steps writes no file. |

`ScreenshotPlugin.Valid()` is preserved by every method. It states three things:

- the base directory exists;
- the ledger is empty while `save_plans` is off;
- every ledger record's step directory exists; `RunSteps` uses this, through `LedgerDirsExist`, to promise that every step directory of a run exists.

`SaveScreenshot`, `SaveResults`, `CreateExecuteDir`, `SaveAllPlans` and `HandleDone` may modify only the disk, so they provably leave the counter and the ledger alone. `SavePlan` may modify only the ledger and the disk.

## Left out

- `browser_use/plugins/screenshot/integration.py` is not part of this model. It registers callbacks and replaces `agent.multi_act` on a live agent object, whose behaviour lies outside this repository.
- `browser_use/plugins/screenshot/__init__.py` is not part of this model; it only re-exports names.
- Logging (`logger.info`, `logger.warning`, `logger.error`) is not modelled.
- JSON formatting is not modelled. `json.dump`, its indentation and the `model_dump()` serialisation of agent outputs and actions become the datatype values that the files hold.
- The clock is not modelled. `datetime.now()`, `strftime` and `isoformat` become string parameters, one per clock reading.
- `base64.b64decode` is a caller-supplied partial function.
- Filesystem failures are not modelled. Write errors inside `save_screenshot`'s `try` block, partial writes, and `mkdir` failing because a file sits at the path all lie outside the model: writes always succeed into an existing directory.
- Ancestors of the base directory are not modelled. `mkdir(parents=True)` also creates them; the model records only the directory itself.
- `os.path.join` is modelled for two components, with an absolute second component replacing the first. Path normalisation (`a//b`, `.`, `..`) is not modelled.
- Concurrent callers are not modelled. The plugin is driven by one sequential caller.
