# DeepFabric Cloud: job entrypoint and `dfcloud` CLI, modelled in Dafny

DeepFabric Cloud runs DeepFabric dataset generation as a Cloud Run job.
The `dfcloud` command-line tool keeps a small settings file. It uploads a
generation config to a Cloud Storage bucket and starts the job with an
environment that names that config. It then reports the job's executions
and lists and downloads the files the job wrote under `outputs/`. For
`dfcloud init`, it also loads mock responses and fixtures into a Spin tool
service and registers tools with `deepfabric import-tools`.

The job's entrypoint does the following, in order:

1. Reads five required environment variables.
2. Rewrites the config so its tool endpoints point at the Cloud Run Spin
   service.
3. Reads the config's declared output files.
4. Runs `deepfabric generate` under a time limit.
5. Uploads the outputs that exist to `outputs/<job>/<timestamp>/`.
6. Sends one Slack notification and exits 0 on success, 1 otherwise.

The model has these modules:

- `Strings` (`strings.dfy`) and `PyValue` (`pyvalue.dfy`) give Python's
  meaning to the operations the code relies on:
  - on strings: `in`, `replace`, `split`, `join`, `endswith`, `rstrip`,
    `removeprefix` and slicing;
  - on loaded YAML/JSON values: `in`, `[]`, `[]=`, `.get`, iteration,
    `str`, `int` and truthiness.

  A dictionary is an ordered list of fields, as Python keeps it. An
  operation that Python would raise on yields an `Err` carrying the
  exception's kind and text.
- `Subprocess` (`process.dfy`) holds what running a child process can
  yield: an exit code with its output, a timeout, or a launch failure.
- Job modules:
  - `JobConfig`: the in-place config rewrite and the declared outputs.
  - `Notify`: the Slack payload.
  - `JobRun`: the environment, the run outcome, the upload loop and
    `main`'s report and exit status.
- CLI modules:
  - `CliConfig`: settings lookup, `config list` masking, and `config set` /
    `config init` on a settings object changed in place.
  - `Submit`: the run name, object path, job path and job environment.
  - `Executions`: status, execution ids, and the newest-first listing.
  - `Outputs`: download paths, the `outputs --files` split and the job
    folder set.
  - `SpinInit`: the tool list, the mock-response and fixture loading loops
    and the `import-tools` command.

I/O becomes parameters:

- the environment is a map;
- the loaded config is a `Result<Value>`;
- the child process's behaviour is a `ProcessOutcome`;
- which local files exist is a set;
- failing uploads are a map from object path to exception;
- clock readings are strings;
- the Spin service's answers are a reply value or a function from request
  body to "accepted with status 200";
- `sys.exit` is a returned exit code, or a `NotConfigured` / `Missing`
  result.

## Model

| member | source | states |
|---|---|---|
| JobRun.GetEnv | deepfabric-job/entrypoint.py:22-27 | Raises ValueError "Required environment variable NAME is not set" exactly when the variable is required and missing or empty. Otherwise returns the variable's value, or None when it is absent. A required variable comes back non-empty. |
| JobRun.TimeoutSeconds | deepfabric-job/entrypoint.py:183 | An unset or empty DEEPFABRIC_TIMEOUT gives 86400. Otherwise the limit is `int()` of the text. The only error is ValueError. |
| JobRun.TimeoutSecondsRoundTrip | deepfabric-job/entrypoint.py:183 | A limit written as Python prints the integer reads back as that integer. |
| JobRun.RunDeepfabric | deepfabric-job/entrypoint.py:170-200 | Success exactly when the limit parses and the process exits 0; the detail is then stdout. On a non-zero exit the detail is stderr, else stdout, else "Exit code: N". A timeout names the limit in seconds. A launch failure or an unreadable limit gives the exception's text. |
| JobRun.FailureIsExplained | deepfabric-job/entrypoint.py:192-200 | A failed run always has a non-empty detail, so the failure notification carries an error section. The one exception is a launch failure whose exception text is empty. |
| JobRun.TimeoutNamesLimit | deepfabric-job/entrypoint.py:183-198 | A run that times out reports "Job timed out after T seconds" with the configured T. |
| JobRun.RequiredSettings | deepfabric-job/entrypoint.py:207-211 | Succeeds exactly when all five variables are present and non-empty, and then holds their values. Otherwise it raises ValueError. |
| JobRun.UploadedRaises | deepfabric-job/entrypoint.py:241-248 | The upload loop raises exactly when some expected output is not a path, or exists and its upload fails. |
| JobRun.PresentSpec | deepfabric-job/entrypoint.py:241-248 | The uploaded files are exactly the expected files that exist, and there are no more of them than expected. |
| JobRun.PresentAppend | deepfabric-job/entrypoint.py:241-248 | Filtering keeps order: filtering two lists joined is the two filtered lists joined. |
| JobRun.UploadedUrls | deepfabric-job/entrypoint.py:237-248 | With no failing upload, the result is one `gs://bucket/outputs/job/ts/file` URL per existing expected file, in expected order. |
| JobRun.UploadedStops | deepfabric-job/entrypoint.py:241-248 | Once a file makes the loop raise, later files change nothing. |
| JobRun.UploadOutputs | deepfabric-job/entrypoint.py:237-248 | The appending loop returns exactly the URLs, or the exception, that `Uploaded` specifies. |
| JobRun.TryRun | deepfabric-job/entrypoint.py:222-248 | The steps of the `try`, with the config rewritten in place, yield `Attempt`: the run outcome and URLs, or the first exception. |
| JobRun.RunJob | deepfabric-job/entrypoint.py:203-283 | `main` produces the report `JobOutcome` specifies: the notification it sends and its exit status. |
| JobRun.ExitStatus | deepfabric-job/entrypoint.py:203-283 | The exit status is 0 or 1, and 0 exactly when the notification says success. No notification is sent exactly when a setting is missing. Otherwise the notification goes to the configured webhook and names the job. |
| JobRun.NotificationContents | deepfabric-job/entrypoint.py:254-283 | A success carries no error and exactly the uploaded URLs. A failed run carries its detail. An exception carries no URLs and its text. |
| JobRun.HappyPath | deepfabric-job/entrypoint.py:222-265 | On a well-formed config with uploads that succeed, a notification is sent. The exit status is 0 exactly when the generator exited 0. The URLs are those of the declared outputs that exist. |
| JobConfig.ConfigFile.UpdateSpinEndpoint | deepfabric-job/entrypoint.py:50-73 | The step-by-step in-place rewrite leaves the document `SpinEndpointRewrite` gives, or raises exactly when that does. |
| JobConfig.SetSpinEndpointSpec | deepfabric-job/entrypoint.py:58-60 | On a mapping this step never raises. It sets `spin_endpoint` only when the key is already there, and changes no other key and no key order. |
| JobConfig.SetToolsEndpointSpec | deepfabric-job/entrypoint.py:64-70 | When it does not raise, this step changes only `tools_endpoint`, as `RewrittenToolsEndpoint` says, and keeps the key order. |
| JobConfig.RewriteToolsSpec | deepfabric-job/entrypoint.py:58-70 | Both steps together: `spin_endpoint` is set only when present, `tools_endpoint` is rewritten only when it mentions localhost, and every other key keeps its value and place. |
| JobConfig.ToolsRewriteSpec | deepfabric-job/entrypoint.py:56-70 | In `generation.tools` no key is added, dropped or moved. `spin_endpoint` is set only if it was already there. `tools_endpoint` has every `http://localhost:3000` replaced only when it mentions `localhost`. Every other key keeps its value, and a config without `generation.tools` is unchanged. |
| JobConfig.RewriteLeavesRestUntouched | deepfabric-job/entrypoint.py:56-70 | Outside `generation.tools` the config is unchanged. A non-mapping comes out as it was. In a mapping the keys, their order and every entry but `generation` stay, as do the keys of `generation` and its entries other than `tools`. |
| JobConfig.RewriteAcceptsWellFormed | deepfabric-job/entrypoint.py:56-70 | The rewrite never raises on a mapping whose sections have the documented shapes. It does raise on an empty file, which loads as None. |
| JobConfig.DeclaredOutput | deepfabric-job/entrypoint.py:84-89 | Gives `section.save_as` when a mapping section declares it, and nothing when the section is absent. |
| JobConfig.GetOutputFiles | deepfabric-job/entrypoint.py:76-91 | The appending code returns exactly `DeclaredOutputs`, or the exception it raises. |
| JobConfig.DeclaredOutputsOrder | deepfabric-job/entrypoint.py:81-91 | There are at most two outputs. The topic graph's path comes before the dataset's, and each is present exactly when declared. |
| JobConfig.OutputsSurviveRewrite | deepfabric-job/entrypoint.py:227-230 | Rewriting the endpoints never changes the declared outputs. |
| Notify.Truncated | deepfabric-job/entrypoint.py:139-140 | A message of at most 500 characters is kept as is. A longer one becomes its first 500 characters and "...". |
| Notify.Bullets | deepfabric-job/entrypoint.py:129 | One bullet per URL. |
| Notify.OutputsTextLines | deepfabric-job/entrypoint.py:129 | Splitting the outputs text at newlines gives back exactly one bullet per URL, in order. |
| Notify.BuildPayload | deepfabric-job/entrypoint.py:94-160 | Green for "success", red otherwise. The blocks are a header, the status/duration fields, an outputs section only with URLs, an error section only with a truthy error (truncated), then the footer, in that order. The header says "Completed" or "Failed" with the job name. |
| CliConfig.GetConfigValue | cli/dfcloud/cli.py:54-62 | A truthy value in the file wins; otherwise `DFCLOUD_<KEY>` from the environment is used. It stops (exit 1) exactly when required and neither is set. |
| CliConfig.Shown | cli/dfcloud/cli.py:113-117 | An insensitive value is shown as `str(value)`. A sensitive string is cut to 20 characters and "...". A sensitive value that has no `len` or cannot be sliced raises. |
| CliConfig.MaskedSecretHidden | cli/dfcloud/cli.py:115-116 | A long secret shows exactly its first 20 characters followed by three dots. |
| CliConfig.RowsSpec | cli/dfcloud/cli.py:113-117 | There is one row per setting, in file order, showing `Shown`. The listing fails exactly when some setting cannot be shown. |
| CliConfig.RowsStop | cli/dfcloud/cli.py:113-117 | A setting that cannot be shown makes the whole listing fail. |
| CliConfig.ConfigList | cli/dfcloud/cli.py:101-119 | An empty file gives the notice. Otherwise the row-by-row loop gives the table of `Rows`, or fails exactly when `Rows` does. |
| CliConfig.ConfigStore.constructor | cli/dfcloud/cli.py:83 | The store holds the loaded settings. |
| CliConfig.ConfigStore.Set | cli/dfcloud/cli.py:84 | `cfg[key] = value`: an existing key keeps its place, a new key is appended. |
| CliConfig.ConfigStore.Init | cli/dfcloud/cli.py:129-134 | The five assignments of `config init`, in order. |
| CliConfig.SetThenGet | cli/dfcloud/cli.py:84 | A non-empty value just set is what `get_config_value` returns for that key. An empty one falls back to the environment. Every other key reads as before. |
| CliConfig.InitConfigures | cli/dfcloud/cli.py:130-134 | After `config init` the project, region, bucket and job name "deepfabric-job" are configured and the progress interval is stored. Earlier keys keep their order, and all other keys are untouched. |
| CliConfig.InitLookup | cli/dfcloud/cli.py:130-134 | What each key reads after `config init`. |
| CliConfig.AssignKeepsKeys | cli/dfcloud/cli.py:84 | An assignment never reorders or drops the existing keys of the settings in memory. `save_config` then writes them sorted. |
| CliConfig.InitKeepsKeys | cli/dfcloud/cli.py:130-134 | `config init` never reorders or drops the existing keys of the settings in memory. |
| Submit.LastDot | cli/dfcloud/cli.py:169 | The position of the last ".", or none when there is no ".". |
| Submit.Stem | cli/dfcloud/cli.py:169 | `Path.stem`: the name without a final suffix that has text on both sides of its dot. |
| Submit.RunName | cli/dfcloud/cli.py:169 | A non-empty `--name` wins; otherwise the config file's stem is used. |
| Submit.ConfigObjectPathParts | cli/dfcloud/cli.py:173 | The config object path splits back into "configs", the run name, the timestamp and "config.yaml". |
| Submit.SubmitEnv | cli/dfcloud/cli.py:198-211 | CONFIG_PATH, JOB_NAME and PROGRESS_INTERVAL come first, in that order. Then TOPIC_ONLY=true comes for a topic-only run, else TOPICS_LOAD when a graph path is given. |
| Submit.NeverBothModes | cli/dfcloud/cli.py:208-211 | TOPIC_ONLY and TOPICS_LOAD are never both sent. TOPIC_ONLY is sent exactly for `--topic-only`. TOPICS_LOAD is sent exactly without it and with a non-empty path. |
| Submit.ProgressIntervalFromInit | cli/dfcloud/cli.py:204-206 | The interval `config init` stored reaches the job as its decimal text. |
| Submit.ProgressIntervalDefault | cli/dfcloud/cli.py:205-206 | With no interval stored, the job gets "900". |
| Submit.Submit | cli/dfcloud/cli.py:163-219 | Stops exactly when one of the four settings is missing. It names the first missing one in the order project_id, region, bucket, job_name, as the four calls in turn do. Otherwise it prepares the bucket, the config object path, the job path, the environment and "<timeout>s". |
| Executions.Classify | cli/dfcloud/cli.py:376-383 | Succeeded iff some task succeeded. Failed iff none succeeded and some failed. Running iff none finished and some run. Pending otherwise. |
| Executions.ExecutionId | cli/dfcloud/cli.py:373 | The part after the last "/": it has no "/", ends the name, and is the whole name when there is no "/". |
| Executions.ExecutionIdOfPath | cli/dfcloud/cli.py:347 | The id read off the execution path `status` builds is the id it was built from. |
| Executions.InsertSorted | cli/dfcloud/cli.py:475 | Inserting into a newest-first list keeps it newest first. |
| Executions.InsertMultiset | cli/dfcloud/cli.py:475 | Inserting adds exactly the one execution. |
| Executions.SortNewestFirst | cli/dfcloud/cli.py:475 | The result is newest first and a permutation of the executions. |
| Executions.Take | cli/dfcloud/cli.py:476 | Python's `xs[:limit]`, including a negative limit counted from the end: a prefix of the length Python gives. |
| Executions.TakeNewest | cli/dfcloud/cli.py:475-476 | A cut newest-first list stays newest first and keeps the newest executions. |
| Executions.CutKeepsNewest | cli/dfcloud/cli.py:475-476 | After sorting and cutting, every execution kept is one of the executions, and every execution is either kept or no newer than all those kept. |
| Executions.RowsShowNewest | cli/dfcloud/cli.py:475-504 | The rows built from the sorted, cut executions: as many as the slice keeps, newest first, each one an execution's row, and every execution left out is no newer than any shown. |
| Executions.ListExecutions | cli/dfcloud/cli.py:470-504 | The notice comes exactly for no executions. Otherwise at most n rows for n executions: `min(limit, n)` for a non-negative limit and `max(n + limit, 0)` for a negative one, newest first, each with its status markup. Every row is an execution's, and every execution left out is no newer than any shown. |
| Executions.Latest | cli/dfcloud/cli.py:358-365 | None exactly when there is no execution. Otherwise an execution no older than any other. |
| Outputs.DownloadTarget | cli/dfcloud/cli.py:537-542 | Folders are skipped. A name under the job's prefix where the prefix does not recur keeps the rest of the name. |
| Outputs.RemovePrefixOnce | cli/dfcloud/cli.py:542 | Removing every occurrence of a prefix that does not recur removes just the leading one. |
| Outputs.UploadedNameParts | deepfabric-job/entrypoint.py:239-244 | The job stores a file under "outputs/", the job name, "/", the timestamp, "/" and the file name. |
| Outputs.DownloadOfJobOutput | cli/dfcloud/cli.py:537-542 | A file the job uploaded is downloaded to `<timestamp>/<file>`. |
| Outputs.SplitRest | cli/dfcloud/cli.py:635-641 | Skipped exactly when fewer than two "/" remain. Otherwise job and timestamp contain no "/", and joining job, timestamp and file with "/" rebuilds the remainder. |
| Outputs.ParseListedAsWritten | cli/dfcloud/cli.py:631-641 | The split as written, after every "outputs/" is removed: skipped exactly for folders and names with fewer than two "/" left. Otherwise job and timestamp have no "/", and the three parts rebuild what is left. |
| Outputs.ParseListed | cli/dfcloud/cli.py:631-641 | Skipped exactly for folders and names with fewer than three parts after the leading "outputs/". Otherwise the job, timestamp and file rebuild the rest of the name. |
| Outputs.ParseListedJobOutput | cli/dfcloud/cli.py:631-641 | Every file the job uploaded is listed under its own job, timestamp and file name. |
| Outputs.AsWrittenDropsFiles | cli/dfcloud/cli.py:635 | As written, every file of the job "myoutputs" is dropped from `outputs --files`; with only the leading "outputs/" removed it is listed. |
| Outputs.PrefixFolderOfJob | cli/dfcloud/cli.py:660-663 | With only the leading "outputs/" removed, the folder the listing reports for a job is shown under the job's name. |
| Outputs.AsWrittenRenamesFolder | cli/dfcloud/cli.py:661 | As written, the folder of the job "myoutputs" is listed as "my"; with only the leading "outputs/" removed it is "myoutputs". |
| Outputs.GatheredSpec | cli/dfcloud/cli.py:654-663 | `if name: job_folders.add(name)` over a list of names gathers exactly the non-empty names in it. |
| Outputs.JobFolders | cli/dfcloud/cli.py:654-663 | The two loops as written, with every "outputs/" removed (`replace`): a name is collected exactly when it is non-empty and some blob or some folder yields it. |
| Outputs.PrefixFoldersListJobs | cli/dfcloud/cli.py:660-663 | With only the leading "outputs/" removed, every job folder among the prefixes yields its job's name. |
| Outputs.CorrectedJobFolders | cli/dfcloud/cli.py:654-663 | The corrected set: every job folder the listing reports is collected under its job's name, and nothing but the non-empty names the blobs and folders yield is. |
| Outputs.AsWrittenMissesJob | cli/dfcloud/cli.py:654-663 | For the one folder "outputs/myoutputs/", the loops as written collect {"my"}; corrected, they collect {"myoutputs"}. |
| SpinInit.NameOf | cli/dfcloud/cli.py:747 | A dictionary's "name" entry when it has one; otherwise the element itself. |
| SpinInit.Names | cli/dfcloud/cli.py:747-748 | One name per element, in order. |
| SpinInit.ToolNames | cli/dfcloud/cli.py:742-751 | The names of a list body, or of the iterated "tools" entry of a dictionary body. A failed request, a status other than 200, a non-JSON body, another shape, a missing "tools" or a non-iterable "tools" gives []. |
| SpinInit.ListAndWrappedAgree | cli/dfcloud/cli.py:745-748 | A bare list and the same list under "tools" report the same names. |
| SpinInit.NamedToolsReported | cli/dfcloud/cli.py:747 | A tool given as a dictionary with a name is reported by that name; a string tool is reported as itself. |
| SpinInit.MockLoadedStops | cli/dfcloud/cli.py:760-762 | Once an entry raises, later entries change nothing. |
| SpinInit.LoadMockResponses | cli/dfcloud/cli.py:754-778 | A non-dictionary document or "mockResponses" raises. Otherwise the loop's count is `MockLoaded`: one per entry whose truthy default response was accepted, or the first entry's error. |
| SpinInit.MockLoadedBound | cli/dfcloud/cli.py:757-778 | Raises exactly when some entry is not a dictionary. The count is at most one per entry, and equals the number of entries exactly when every entry loaded. |
| SpinInit.FixtureCountStops | cli/dfcloud/cli.py:788-790 | Once a fixture raises, later fixtures change nothing. |
| SpinInit.FixturesLoadedStops | cli/dfcloud/cli.py:787-790 | Once a tool's fixtures raise, later tools change nothing. |
| SpinInit.FixturesLoadedStep | cli/dfcloud/cli.py:787-804 | The next tool adds its fixture count, or raises when its fixtures cannot be iterated or one is not a dictionary. |
| SpinInit.LoadToolFixtures | cli/dfcloud/cli.py:788-804 | The inner loop's count is `FixtureCount` for that tool. |
| SpinInit.LoadFixtures | cli/dfcloud/cli.py:781-806 | A non-dictionary document or "fixtures" raises. Otherwise the nested loops give `FixturesLoaded`. |
| SpinInit.FixtureCountBound | cli/dfcloud/cli.py:788-804 | Raises exactly when some fixture is not a dictionary. The count is at most the number of fixtures, and equals it exactly when every fixture has a truthy match and response and was accepted. |
| SpinInit.NothingAcceptedNothingLoaded | cli/dfcloud/cli.py:801-802 | A service that accepts nothing is counted as loading nothing. |
| SpinInit.FixtureCountNone | cli/dfcloud/cli.py:801-802 | The same for one tool's fixtures. |
| SpinInit.ImportToolsCommand | cli/dfcloud/cli.py:813-821 | The eight fixed arguments with the MCP command and the Spin URL in place, plus the Authorization header only for a non-empty token. |
| SpinInit.TokenOnlyAddsHeader | cli/dfcloud/cli.py:820-821 | The tokenless command is a prefix of the command with a token, which adds two arguments. An empty token is the same as none. |
| SpinInit.RunImportTools | cli/dfcloud/cli.py:809-850 | Tools are registered exactly when the command exits with status 0. |
| PyValue.Get | cli/dfcloud/cli.py:205 | `d.get(key, default)`: the stored value or the default on a dictionary, and AttributeError on anything else. |
| PyValue.Iterate | cli/dfcloud/cli.py:748 | `for x in v`: a list's items, a dictionary's keys or a string's characters. Anything else is TypeError. |
| PyValue.ParseIntToString | deepfabric-job/entrypoint.py:183 | `int(str(i)) == i`. |
| Strings.Abbreviated | cli/dfcloud/cli.py:116 | `s[:n] + "..."` when longer than n, else s. |
| Strings.RStrip | cli/dfcloud/cli.py:661 | `rstrip(c)`: a prefix of s, not ending in c, and only c was removed. |
| Strings.SplitJoin | cli/dfcloud/cli.py:639 | Splitting a join of separator-free parts gives the parts back. |
| Strings.JoinSplit | cli/dfcloud/cli.py:639 | Joining the parts of a split rebuilds the string. |
| Strings.SplitLast | cli/dfcloud/cli.py:237 | The last part of a split has no separator and ends the string. |

## Left out

- Cloud Storage, Cloud Run, Cloud Logging, `requests` and the `gcloud`
  subprocesses are parameters, as described above. Posting the Slack
  payload and its swallowed errors are not modelled. Neither are
  `get_identity_token`, `get_spin_service_url`, `init`'s health and
  tool-execution probes, the `logs` command or the `--wait` polling.
- YAML and JSON parsing and dumping are out. The settings file is taken
  to load as a mapping.
- Dictionary keys are strings only. A document with an integer or other
  non-string key is outside the model. So is the AttributeError that
  `key.lower()` raises in `config list` on such a key.
- Floats, dates and timestamps in a loaded document are one opaque kind of
  value, `Scalar`. It is known only by its type's name, its `str` text and
  its truth value. No arithmetic or formatting on it is modelled. `save_config` sorting keys on dump, and the
  `or {}` of `load_config`, are not modelled.
- Floating point is out: durations, file sizes and the `.1f` formats are
  outside the model. The duration shown in a notification is given as text.
- `datetime.utcnow()` and `time.time()` are out; timestamps are strings
  given as inputs.
- Python's `int()` on text with surrounding whitespace or underscores is
  not modelled. `ParseInt` accepts an optional sign and decimal digits only.
- `str()` of a string inside a list or dictionary quotes it without
  Python's escaping rules.
- Case mapping in `upper`, `lower` and `title` covers ASCII letters only.
- Exception texts for unusual values follow CPython's wording where the
  code shows it, and are otherwise approximate. An example is the message
  for slicing a dictionary in `config list`.
- The `outputs JOB` listing (lines 582-612) and the order of the
  `outputs --files` rows are not modelled: they only sort by name for
  display.
- `Path` normalisation of local download paths (`output_dir / relative`)
  is not modelled; the model returns the relative path.
- Executions.SortNewestFirst: builds a new sorted sequence by insertion
  instead of sorting the client's list in place. It states order and
  permutation but not that ties keep their input order.
- Executions.ListExecutions: the created and duration columns are left
  out, because they are date formatting of the client's timestamps.
- SpinInit.ToolNames: any exception inside the `try` gives [], so a body
  the real `requests` cannot decode appears only as a `None` body.

## Findings

| source | as written | input that shows it | evidently intended | confidence | as-written member | corrected member |
|---|---|---|---|---|---|---|
| cli/dfcloud/cli.py:635 | `blob.name.replace("outputs/", "")` removes every "outputs/" in the name, including one formed by a job name ending in "outputs" and the following "/" | the object "outputs/myoutputs/20240101-000000/data.jsonl" leaves "my20240101-000000/data.jsonl", which has two parts, so the file is skipped | remove only the leading "outputs/" (`removeprefix`), listing job "myoutputs", its timestamp and "data.jsonl" | not executed | Outputs.ParseListedAsWritten, Outputs.AsWrittenDropsFiles | Outputs.ParseListed, Outputs.ParseListedJobOutput |
| cli/dfcloud/cli.py:661 | `prefix_name.replace("outputs/", "").rstrip("/")`, and the same `replace` at line 656 | the folder "outputs/myoutputs/" is listed as the job "my" | remove only the leading "outputs/", listing "myoutputs" | not executed | Outputs.JobFolders, Outputs.AsWrittenRenamesFolder, Outputs.AsWrittenMissesJob | Outputs.CorrectedJobFolders, Outputs.PrefixFoldersListJobs, Outputs.PrefixFolderOfJob |
