/** The Cloud Run job's control flow (`get_env`, `run_deepfabric` and
    `main`): read the settings, rewrite the downloaded config, run the
    generator, upload the outputs that exist under one shared prefix,
    notify, and choose the exit status. The environment is a map; the
    downloaded and loaded config, the generator's outcome, the files
    found in the working directory, the uploads that fail and the
    timestamp are parameters. */
module JobRun {
  import opened Strings
  import opened PyValue
  import opened JobConfig
  import opened Notify
  import opened Subprocess

  type Env = map<string, string>

  /** `os.environ.get(name)`, refused when required and missing or empty. */
  function GetEnv(env: Env, name: string, required: bool): (r: Result<Option<string>>)
    ensures r.Err? <==> required && (name !in env || env[name] == [])
    ensures r.Err? ==> r.error == Exception(ValueError, "Required environment variable " + name + " is not set")
    ensures r.Ok? && name in env ==> r.value == Some(env[name])
    ensures r.Ok? && name !in env ==> r.value == None
    ensures r.Ok? && required ==> r.value.Some? && r.value.value != []
  {
    var value := if name in env then Some(env[name]) else None;
    if required && (value.None? || value.value == []) then
      Err(Exception(ValueError, "Required environment variable " + name + " is not set"))
    else Ok(value)
  }

  /** The variable holding the generator's time limit, and the limit used
      when it is unset or empty. */
  const TimeoutVar := "DEEPFABRIC_TIMEOUT"
  const DefaultTimeout := 86400

  /** `int(get_env("DEEPFABRIC_TIMEOUT", required=False) or 86400)`. */
  function TimeoutSeconds(env: Env): (r: Result<int>)
    ensures TimeoutVar !in env || env[TimeoutVar] == [] ==> r == Ok(DefaultTimeout)
    ensures TimeoutVar in env && env[TimeoutVar] != [] ==> r == ParseInt(env[TimeoutVar])
    ensures r.Err? ==> r.error.kind == ValueError
  {
    var value := GetEnv(env, TimeoutVar, false).value;
    if value.None? || value.value == [] then Ok(DefaultTimeout) else ParseInt(value.value)
  }

  /** A limit written as Python writes the integer is read back as that integer. */
  lemma TimeoutSecondsRoundTrip(env: Env, t: int)
    requires TimeoutVar in env && env[TimeoutVar] == IntToString(t)
    ensures TimeoutSeconds(env) == Ok(t)
  {
    ParseIntToString(t);
  }

  /** The `(success, detail)` pair `run_deepfabric` returns. Reading the
      limit happens inside its `try`, so a limit that is not a number is
      reported as a failure with the `int()` error's text. */
  function RunDeepfabric(env: Env, outcome: ProcessOutcome): (r: (bool, string))
    ensures r.0 <==> TimeoutSeconds(env).Ok? && outcome.Exited? && outcome.code == 0
    ensures r.0 ==> r.1 == outcome.stdout
    ensures TimeoutSeconds(env).Err? ==> r.1 == TimeoutSeconds(env).error.message
    ensures TimeoutSeconds(env).Ok? && outcome.Exited? && outcome.code != 0 ==>
      && (outcome.stderr != [] ==> r.1 == outcome.stderr)
      && (outcome.stderr == [] && outcome.stdout != [] ==> r.1 == outcome.stdout)
      && (outcome.stderr == [] && outcome.stdout == [] ==> r.1 == "Exit code: " + IntToString(outcome.code))
    ensures TimeoutSeconds(env).Ok? && outcome.TimedOut? ==>
      r.1 == "Job timed out after " + IntToString(TimeoutSeconds(env).value) + " seconds"
    ensures TimeoutSeconds(env).Ok? && outcome.LaunchFailed? ==> r.1 == outcome.message
  {
    match TimeoutSeconds(env)
    case Err(e) => (false, e.message)
    case Ok(t) =>
      match outcome
      case Exited(code, out, err) =>
        if code == 0 then (true, out)
        else (false, if err != [] then err else if out != [] then out else "Exit code: " + IntToString(code))
      case TimedOut => (false, "Job timed out after " + IntToString(t) + " seconds")
      case LaunchFailed(message) => (false, message)
  }

  /** A failed run always explains itself: unless the generator could not
      be started and the exception had no text, the detail is non-empty,
      so the failure notification carries an error section. */
  lemma FailureIsExplained(env: Env, outcome: ProcessOutcome)
    requires !RunDeepfabric(env, outcome).0
    requires !(outcome.LaunchFailed? && outcome.message == [])
    ensures RunDeepfabric(env, outcome).1 != []
    ensures HasError(Some(RunDeepfabric(env, outcome).1))
  {
    match TimeoutSeconds(env)
    case Err(e) =>
    case Ok(t) =>
      match outcome
      case Exited(code, out, err) =>
        if err == [] && out == [] {
          assert ("Exit code: " + IntToString(code))[0] == 'E';
        }
      case TimedOut =>
      case LaunchFailed(_) =>
  }

  /** A run that times out names the limit that was set. */
  lemma TimeoutNamesLimit(env: Env, t: int)
    requires TimeoutVar in env && env[TimeoutVar] == IntToString(t)
    ensures RunDeepfabric(env, TimedOut) == (false, "Job timed out after " + IntToString(t) + " seconds")
  {
    TimeoutSecondsRoundTrip(env, t);
  }

  /** The job's five required settings. */
  datatype Settings = Settings(bucket: string, configPath: string, jobName: string,
                               spinEndpoint: string, webhook: string)

  /** Lines 207-211: each `get_env` call in turn; the first missing or
      empty variable raises, outside the `try`. */
  function RequiredSettings(env: Env): (r: Result<Settings>)
    ensures r.Ok? <==>
      forall name :: name in {"GCS_BUCKET", "CONFIG_PATH", "JOB_NAME", "SPIN_ENDPOINT", "SLACK_WEBHOOK_URL"}
        ==> name in env && env[name] != []
    ensures r.Ok? ==> r.value == Settings(env["GCS_BUCKET"], env["CONFIG_PATH"], env["JOB_NAME"],
                                          env["SPIN_ENDPOINT"], env["SLACK_WEBHOOK_URL"])
    ensures r.Err? ==> r.error.kind == ValueError
  {
    var bucket :- GetEnv(env, "GCS_BUCKET", true);
    var configPath :- GetEnv(env, "CONFIG_PATH", true);
    var jobName :- GetEnv(env, "JOB_NAME", true);
    var spinEndpoint :- GetEnv(env, "SPIN_ENDPOINT", true);
    var webhook :- GetEnv(env, "SLACK_WEBHOOK_URL", true);
    Ok(Settings(bucket.value, configPath.value, jobName.value, spinEndpoint.value, webhook.value))
  }

  /** `gs://<bucket>/<path>`, the URL `upload_to_gcs` returns. */
  function ObjectUrl(bucket: string, path: string): string {
    "gs://" + bucket + "/" + path
  }

  /** The prefix every output of one run is stored under. */
  function OutputPrefix(jobName: string, timestamp: string): string {
    "outputs/" + jobName + "/" + timestamp
  }

  /** The object path of one output file. */
  function ObjectPath(prefix: string, file: string): string {
    prefix + "/" + file
  }

  /** `work_path / output_file` with a declared output that is not a string. */
  function PathTypeError(v: Value): Exception {
    Exception(TypeError, "unsupported operand type(s) for /: 'PosixPath' and '" + TypeName(v) + "'")
  }

  /** An expected output that makes the loop raise: not a path, or a file
      that exists and whose upload fails. */
  predicate Raises(prefix: string, existing: set<string>, uploadErrors: map<string, Exception>, v: Value) {
    !v.Str? || (v.s in existing && ObjectPath(prefix, v.s) in uploadErrors)
  }

  /** The URLs lines 237-248 collect, or the exception they raise: the
      files that exist are uploaded in order, the others are skipped. */
  function Uploaded(bucket: string, prefix: string, expected: seq<Value>, existing: set<string>,
                    uploadErrors: map<string, Exception>): Result<seq<string>>
    decreases |expected|
  {
    if expected == [] then Ok([])
    else
      var urls :- Uploaded(bucket, prefix, expected[..|expected| - 1], existing, uploadErrors);
      var file := expected[|expected| - 1];
      if !file.Str? then Err(PathTypeError(file))
      else if file.s !in existing then Ok(urls)
      else if ObjectPath(prefix, file.s) in uploadErrors then Err(uploadErrors[ObjectPath(prefix, file.s)])
      else Ok(urls + [ObjectUrl(bucket, ObjectPath(prefix, file.s))])
  }

  /** The loop raises exactly when one of the expected outputs makes it raise. */
  lemma {:induction false} UploadedRaises(bucket: string, prefix: string, expected: seq<Value>,
                                          existing: set<string>, uploadErrors: map<string, Exception>)
    ensures Uploaded(bucket, prefix, expected, existing, uploadErrors).Err? <==>
      exists k :: 0 <= k < |expected| && Raises(prefix, existing, uploadErrors, expected[k])
    decreases |expected|
  {
    if expected != [] {
      var init := expected[..|expected| - 1];
      UploadedRaises(bucket, prefix, init, existing, uploadErrors);
      if exists k :: 0 <= k < |init| && Raises(prefix, existing, uploadErrors, init[k]) {
        var k :| 0 <= k < |init| && Raises(prefix, existing, uploadErrors, init[k]);
        assert expected[k] == init[k];
      }
      if exists k :: 0 <= k < |expected| && Raises(prefix, existing, uploadErrors, expected[k]) {
        var k :| 0 <= k < |expected| && Raises(prefix, existing, uploadErrors, expected[k]);
        if k < |init| {
          assert init[k] == expected[k];
        }
      }
    }
  }

  /** The expected files that exist, in the order they are expected. */
  function Present(files: seq<string>, existing: set<string>): seq<string>
    decreases |files|
  {
    if files == [] then []
    else
      var init := Present(files[..|files| - 1], existing);
      if files[|files| - 1] in existing then init + [files[|files| - 1]] else init
  }

  /** `Present` keeps exactly the files that exist and never reorders:
      filtering a concatenation concatenates the filtered parts. */
  lemma {:induction false} PresentSpec(files: seq<string>, existing: set<string>)
    ensures |Present(files, existing)| <= |files|
    ensures forall f :: f in Present(files, existing) <==> f in files && f in existing
    decreases |files|
  {
    if files != [] {
      var init := files[..|files| - 1];
      PresentSpec(init, existing);
      assert files == init + [files[|files| - 1]];
    }
  }

  lemma {:induction false} PresentAppend(a: seq<string>, b: seq<string>, existing: set<string>)
    ensures Present(a + b, existing) == Present(a, existing) + Present(b, existing)
    decreases |b|
  {
    if b == [] {
      assert a + b == a;
    } else {
      var b' := b[..|b| - 1];
      PresentAppend(a, b', existing);
      assert (a + b)[..|a + b| - 1] == a + b';
    }
  }

  function AsValues(files: seq<string>): seq<Value> {
    seq(|files|, k requires 0 <= k < |files| => Str(files[k]))
  }

  /** The URL of each file, under the shared prefix. */
  function Urls(bucket: string, prefix: string, files: seq<string>): seq<string> {
    seq(|files|, k requires 0 <= k < |files| => ObjectUrl(bucket, ObjectPath(prefix, files[k])))
  }

  /** When every declared output is a path and no upload fails, the job
      reports one URL per expected file that exists, in expected order,
      each `gs://<bucket>/<prefix>/<file>`. */
  lemma {:induction false} UploadedUrls(bucket: string, prefix: string, files: seq<string>,
                                        existing: set<string>, uploadErrors: map<string, Exception>)
    requires forall k :: 0 <= k < |files| && files[k] in existing ==> ObjectPath(prefix, files[k]) !in uploadErrors
    ensures Uploaded(bucket, prefix, AsValues(files), existing, uploadErrors) ==
      Ok(Urls(bucket, prefix, Present(files, existing)))
    decreases |files|
  {
    if files != [] {
      var init := files[..|files| - 1];
      UploadedUrls(bucket, prefix, init, existing, uploadErrors);
      assert AsValues(files)[..|files| - 1] == AsValues(init);
      var p := Present(init, existing);
      var last := files[|files| - 1];
      var urls := Urls(bucket, prefix, p);
      assert AsValues(files)[|files| - 1] == Str(last);
      assert Uploaded(bucket, prefix, AsValues(init), existing, uploadErrors) == Ok(urls);
      if last in existing {
        assert ObjectPath(prefix, last) !in uploadErrors;
        assert Present(files, existing) == p + [last];
        assert Urls(bucket, prefix, p + [last]) == urls + [ObjectUrl(bucket, ObjectPath(prefix, last))];
        assert Uploaded(bucket, prefix, AsValues(files), existing, uploadErrors) ==
          Ok(urls + [ObjectUrl(bucket, ObjectPath(prefix, last))]);
      } else {
        assert Present(files, existing) == p;
        assert Uploaded(bucket, prefix, AsValues(files), existing, uploadErrors) == Ok(urls);
      }
    } else {
      assert AsValues(files) == [];
      assert Urls(bucket, prefix, []) == [];
    }
  }

  /** Once the loop has raised, the later files are never reached. */
  lemma {:induction false} UploadedStops(bucket: string, prefix: string, expected: seq<Value>, j: nat,
                                         existing: set<string>, uploadErrors: map<string, Exception>)
    requires j <= |expected|
    requires Uploaded(bucket, prefix, expected[..j], existing, uploadErrors).Err?
    ensures Uploaded(bucket, prefix, expected, existing, uploadErrors) ==
      Uploaded(bucket, prefix, expected[..j], existing, uploadErrors)
    decreases |expected| - j
  {
    if j < |expected| {
      assert expected[..j + 1][..j] == expected[..j];
      UploadedStops(bucket, prefix, expected, j + 1, existing, uploadErrors);
    } else {
      assert expected[..j] == expected;
    }
  }

  /** Lines 237-248, appending to `output_urls` as the source does. */
  method UploadOutputs(bucket: string, prefix: string, expected: seq<Value>, existing: set<string>,
                       uploadErrors: map<string, Exception>)
    returns (r: Result<seq<string>>)
    ensures r == Uploaded(bucket, prefix, expected, existing, uploadErrors)
  {
    var urls: seq<string> := [];
    var i := 0;
    while i < |expected|
      invariant 0 <= i <= |expected|
      invariant Uploaded(bucket, prefix, expected[..i], existing, uploadErrors) == Ok(urls)
    {
      assert expected[..i + 1][..i] == expected[..i];
      var file := expected[i];
      if !file.Str? {
        UploadedStops(bucket, prefix, expected, i + 1, existing, uploadErrors);
        return Err(PathTypeError(file));
      }
      if file.s in existing {
        var path := ObjectPath(prefix, file.s);
        if path in uploadErrors {
          UploadedStops(bucket, prefix, expected, i + 1, existing, uploadErrors);
          return Err(uploadErrors[path]);
        }
        urls := urls + [ObjectUrl(bucket, path)];
      }
      i := i + 1;
    }
    assert expected[..i] == expected;
    r := Ok(urls);
  }

  /** The arguments of one `send_slack_notification` call. */
  datatype Notification = Notification(webhook: string, jobName: string, status: string,
                                       outputUrls: seq<string>, errorMessage: Option<string>)

  /** What one run of the job does that can be seen from outside: the
      notification it sends, if it gets that far, and its exit status. */
  datatype JobReport = JobReport(notification: Option<Notification>, exitCode: int)

  /** What the body of the `try` (lines 224-248) yields: whether the run
      succeeded, its detail and the uploaded URLs, or the exception raised. */
  function Attempt(s: Settings, env: Env, loaded: Result<Value>, outcome: ProcessOutcome,
                   existing: set<string>, uploadErrors: map<string, Exception>, timestamp: string)
    : Result<(bool, string, seq<string>)>
  {
    var doc :- loaded;
    var doc' :- SpinEndpointRewrite(doc, s.spinEndpoint);
    var expected :- DeclaredOutputs(doc');
    var run := RunDeepfabric(env, outcome);
    var urls :- Uploaded(s.bucket, OutputPrefix(s.jobName, timestamp), expected, existing, uploadErrors);
    Ok((run.0, run.1, urls))
  }

  /** What `main` sends and how it exits. */
  function JobOutcome(env: Env, loaded: Result<Value>, outcome: ProcessOutcome, existing: set<string>,
                      uploadErrors: map<string, Exception>, timestamp: string): JobReport
  {
    match RequiredSettings(env)
    case Err(_) => JobReport(None, 1)
    case Ok(s) =>
      match Attempt(s, env, loaded, outcome, existing, uploadErrors, timestamp)
      case Ok(a) =>
        JobReport(Some(Notification(s.webhook, s.jobName, if a.0 then "success" else "failed",
                                    a.2, if a.0 then None else Some(a.1))),
                  if a.0 then 0 else 1)
      case Err(e) =>
        JobReport(Some(Notification(s.webhook, s.jobName, "failed", [], Some(e.message))), 1)
  }

  /** Lines 203-283: the steps in order, with the config file rewritten in
      place and the outputs uploaded one by one. */
  method RunJob(env: Env, loaded: Result<Value>, outcome: ProcessOutcome, existing: set<string>,
                uploadErrors: map<string, Exception>, timestamp: string)
    returns (report: JobReport)
    ensures report == JobOutcome(env, loaded, outcome, existing, uploadErrors, timestamp)
  {
    var settings := RequiredSettings(env);
    if settings.Err? {
      return JobReport(None, 1);
    }
    var s := settings.value;
    var attempt := TryRun(s, env, loaded, outcome, existing, uploadErrors, timestamp);
    if attempt.Err? {
      return JobReport(Some(Notification(s.webhook, s.jobName, "failed", [], Some(attempt.error.message))), 1);
    }
    var success, output, urls := attempt.value.0, attempt.value.1, attempt.value.2;
    report := JobReport(Some(Notification(s.webhook, s.jobName, if success then "success" else "failed",
                                          urls, if success then None else Some(output))), 0);
    if !success {
      report := report.(exitCode := 1);
    }
  }

  /** The body of the `try`: any exception it raises ends it. */
  method TryRun(s: Settings, env: Env, loaded: Result<Value>, outcome: ProcessOutcome,
                existing: set<string>, uploadErrors: map<string, Exception>, timestamp: string)
    returns (r: Result<(bool, string, seq<string>)>)
    ensures r == Attempt(s, env, loaded, outcome, existing, uploadErrors, timestamp)
  {
    var doc :- loaded;
    var file := new ConfigFile(doc);
    var _ :- file.UpdateSpinEndpoint(s.spinEndpoint);
    var expected :- GetOutputFiles(file.doc);
    var run := RunDeepfabric(env, outcome);
    var urls :- UploadOutputs(s.bucket, OutputPrefix(s.jobName, timestamp), expected, existing, uploadErrors);
    r := Ok((run.0, run.1, urls));
  }

  /** The job exits 0 or 1, and 0 exactly when it reported success. A
      missing setting stops it before anything is sent; otherwise it sends
      exactly one notification, to the configured webhook, naming the job. */
  lemma {:induction false} ExitStatus(env: Env, loaded: Result<Value>, outcome: ProcessOutcome,
                                      existing: set<string>, uploadErrors: map<string, Exception>, timestamp: string)
    ensures var report := JobOutcome(env, loaded, outcome, existing, uploadErrors, timestamp);
      && (report.exitCode == 0 || report.exitCode == 1)
      && (report.exitCode == 0 <==> report.notification.Some? && report.notification.value.status == "success")
      && (report.notification.None? <==> RequiredSettings(env).Err?)
      && (report.notification.Some? ==>
            && report.notification.value.webhook == env["SLACK_WEBHOOK_URL"]
            && report.notification.value.jobName == env["JOB_NAME"]
            && (report.notification.value.status == "success" || report.notification.value.status == "failed"))
  {
  }

  /** A success never carries an error message and reports exactly the
      URLs of the uploaded outputs; a failure of the run itself carries its
      detail; an exception reports no URLs and its text. */
  lemma {:induction false} NotificationContents(env: Env, loaded: Result<Value>, outcome: ProcessOutcome,
                                                existing: set<string>, uploadErrors: map<string, Exception>, timestamp: string)
    requires RequiredSettings(env).Ok?
    ensures var s := RequiredSettings(env).value;
      var a := Attempt(s, env, loaded, outcome, existing, uploadErrors, timestamp);
      var n := JobOutcome(env, loaded, outcome, existing, uploadErrors, timestamp).notification.value;
      && (n.status == "success" ==> n.errorMessage.None? && a.Ok? && n.outputUrls == a.value.2)
      && (a.Ok? && !a.value.0 ==> n.status == "failed" && n.errorMessage == Some(a.value.1))
      && (a.Err? ==> n.status == "failed" && n.outputUrls == [] && n.errorMessage == Some(a.error.message))
  {
  }

  /** The whole job on a well-formed config whose declared outputs are
      paths and whose uploads all succeed: it reports success exactly when
      the generator exited 0, and either way it lists one URL per expected
      file that exists, in expected order, under
      `outputs/<job>/<timestamp>/`, shared by all of them. */
  lemma HappyPath(env: Env, doc: Value, outcome: ProcessOutcome, existing: set<string>,
                  uploadErrors: map<string, Exception>, timestamp: string, files: seq<string>)
    requires RequiredSettings(env).Ok?
    requires var s := RequiredSettings(env).value;
      && SpinEndpointRewrite(doc, s.spinEndpoint).Ok?
      && DeclaredOutputs(doc) == Ok(AsValues(files))
      && forall k :: 0 <= k < |files| && files[k] in existing ==>
           ObjectPath(OutputPrefix(s.jobName, timestamp), files[k]) !in uploadErrors
    ensures var s := RequiredSettings(env).value;
      var report := JobOutcome(env, Ok(doc), outcome, existing, uploadErrors, timestamp);
      && report.notification.Some?
      && (report.exitCode == 0 <==> TimeoutSeconds(env).Ok? && outcome.Exited? && outcome.code == 0)
      && report.notification.value.outputUrls ==
           Urls(s.bucket, OutputPrefix(s.jobName, timestamp), Present(files, existing))
  {
    var s := RequiredSettings(env).value;
    var doc' := SpinEndpointRewrite(doc, s.spinEndpoint).value;
    OutputsSurviveRewrite(doc, s.spinEndpoint, doc');
    UploadedUrls(s.bucket, OutputPrefix(s.jobName, timestamp), files, existing, uploadErrors);
  }
}
