/** `dfcloud submit`: the run name, the object path the config is uploaded
    to, the job path, and the environment handed to the job. Uploading
    and starting the job are not part of this model; the clock reading is
    a parameter. */
module Submit {
  import opened Strings
  import opened PyValue
  import opened CliConfig

  /** The last `/`-separated component of a path (`Path(p).name`). */
  function PathName(path: string): string {
    LastOf(Split(path, '/'))
  }

  /** The index of the last `.` in `s`, if any (`s.rfind(".")`). */
  function LastDot(s: string): (r: Option<nat>)
    ensures r.None? <==> '.' !in s
    ensures r.Some? ==> r.value < |s| && s[r.value] == '.' && '.' !in s[r.value + 1..]
    decreases |s|
  {
    if s == [] then None
    else if s[|s| - 1] == '.' then Some(|s| - 1)
    else
      var r := LastDot(s[..|s| - 1]);
      assert s == s[..|s| - 1] + [s[|s| - 1]];
      if r.Some? then
        assert s[r.value + 1..] == s[..|s| - 1][r.value + 1..] + [s[|s| - 1]];
        r
      else r
  }

  /** `Path.stem`: the name without its last suffix, where a suffix is a
      final `.` with something before and after it. */
  function Stem(name: string): (r: string)
    ensures IsPrefix(r, name)
    ensures r != name ==>
      && 0 < |r| < |name| - 1
      && name[|r|] == '.'
      && '.' !in name[|r| + 1..]
    ensures r == name ==> '.' !in name || LastDot(name).value == 0 || LastDot(name).value == |name| - 1
  {
    match LastDot(name)
    case Some(i) => if 0 < i < |name| - 1 then name[..i] else name
    case None => name
  }

  /** `name or config_path.stem` (line 169). */
  function RunName(name: Option<string>, configFile: string): (r: string)
    ensures name.Some? && name.value != [] ==> r == name.value
    ensures name.None? || name.value == [] ==> r == Stem(PathName(configFile))
  {
    if name.Some? && name.value != [] then name.value else Stem(PathName(configFile))
  }

  /** Where the config is uploaded (line 173). */
  function ConfigObjectPath(runName: string, timestamp: string): string {
    "configs/" + runName + "/" + timestamp + "/config.yaml"
  }

  /** A run name and a timestamp without `/` can be read back from the
      config's object path. */
  lemma ConfigObjectPathParts(runName: string, timestamp: string)
    requires '/' !in runName && '/' !in timestamp
    ensures Split(ConfigObjectPath(runName, timestamp), '/') == ["configs", runName, timestamp, "config.yaml"]
  {
    var parts := ["configs", runName, timestamp, "config.yaml"];
    assert Join(parts[3..], "/") == "config.yaml";
    assert Join(parts[2..], "/") == timestamp + "/" + "config.yaml";
    assert Join(parts[1..], "/") == runName + "/" + (timestamp + "/" + "config.yaml");
    assert Join(parts, "/") == ConfigObjectPath(runName, timestamp);
    SplitJoin(parts, '/');
  }

  /** The Cloud Run job a command addresses (line 195). */
  function JobPath(project: Value, region: Value, jobName: Value): string {
    "projects/" + PyStr(project) + "/locations/" + PyStr(region) + "/jobs/" + PyStr(jobName)
  }

  datatype EnvVar = EnvVar(name: string, value: string)

  /** `cfg.get("progress_interval", 900)`. */
  function ProgressInterval(cfg: seq<Field>): Value {
    Get(Dict(cfg), "progress_interval", Int(900)).value
  }

  /** Python's `if topics_load:`. */
  predicate Given(topicsLoad: Option<string>) {
    topicsLoad.Some? && topicsLoad.value != []
  }

  predicate HasVar(vars: seq<EnvVar>, name: string) {
    exists k :: 0 <= k < |vars| && vars[k].name == name
  }

  /** The environment lines 198-211 build: the config path, the run name
      and the progress interval, in that order, then `TOPIC_ONLY=true` for
      a topic-only run, or else `TOPICS_LOAD` when a topic graph is given. */
  predicate EnvFor(vars: seq<EnvVar>, configObject: string, runName: string, cfg: seq<Field>,
                   topicOnly: bool, topicsLoad: Option<string>) {
    && |vars| >= 3
    && vars[0] == EnvVar("CONFIG_PATH", configObject)
    && vars[1] == EnvVar("JOB_NAME", runName)
    && vars[2] == EnvVar("PROGRESS_INTERVAL", PyStr(ProgressInterval(cfg)))
    && (topicOnly ==> vars[3..] == [EnvVar("TOPIC_ONLY", "true")])
    && (!topicOnly && Given(topicsLoad) ==> vars[3..] == [EnvVar("TOPICS_LOAD", topicsLoad.value)])
    && (!topicOnly && !Given(topicsLoad) ==> |vars| == 3)
  }

  /** Lines 198-211, appending as the source does. */
  method SubmitEnv(configObject: string, runName: string, cfg: seq<Field>, topicOnly: bool,
                   topicsLoad: Option<string>) returns (vars: seq<EnvVar>)
    ensures EnvFor(vars, configObject, runName, cfg, topicOnly, topicsLoad)
  {
    vars := [EnvVar("CONFIG_PATH", configObject), EnvVar("JOB_NAME", runName)];
    var progressInterval := Get(Dict(cfg), "progress_interval", Int(900)).value;
    vars := vars + [EnvVar("PROGRESS_INTERVAL", PyStr(progressInterval))];
    if topicOnly {
      vars := vars + [EnvVar("TOPIC_ONLY", "true")];
    } else if topicsLoad.Some? && topicsLoad.value != [] {
      vars := vars + [EnvVar("TOPICS_LOAD", topicsLoad.value)];
    }
  }

  /** The job never receives both `TOPIC_ONLY` and `TOPICS_LOAD`, and
      receives `TOPICS_LOAD` only with a topic graph path. */
  lemma NeverBothModes(vars: seq<EnvVar>, configObject: string, runName: string, cfg: seq<Field>,
                       topicOnly: bool, topicsLoad: Option<string>)
    requires EnvFor(vars, configObject, runName, cfg, topicOnly, topicsLoad)
    ensures !(HasVar(vars, "TOPIC_ONLY") && HasVar(vars, "TOPICS_LOAD"))
    ensures HasVar(vars, "TOPIC_ONLY") <==> topicOnly
    ensures HasVar(vars, "TOPICS_LOAD") <==> !topicOnly && Given(topicsLoad)
  {
    if HasVar(vars, "TOPIC_ONLY") {
      var k :| 0 <= k < |vars| && vars[k].name == "TOPIC_ONLY";
      assert k >= 3;
    }
    if HasVar(vars, "TOPICS_LOAD") {
      var k :| 0 <= k < |vars| && vars[k].name == "TOPICS_LOAD";
      assert k >= 3;
      assert vars[3..][k - 3] == vars[k];
    }
    if topicOnly {
      assert vars[3] == vars[3..][0];
    } else if Given(topicsLoad) {
      assert vars[3] == vars[3..][0];
    }
  }

  /** A progress interval stored by `config init` reaches the job as the
      decimal text of that number. */
  lemma ProgressIntervalFromInit(cfg: seq<Field>, project: string, region: string, bucket: string, n: int)
    ensures PyStr(ProgressInterval(Initialized(cfg, project, region, bucket, n))) == IntToString(n)
  {
    var c := Initialized(cfg, project, region, bucket, n);
    InitLookup(cfg, project, region, bucket, n, "progress_interval");
    assert Get(Dict(c), "progress_interval", Int(900)) == Ok(Int(n));
    assert PyStr(Int(n)) == IntToString(n);
  }

  /** With no progress interval stored, the job gets 900. */
  lemma ProgressIntervalDefault(cfg: seq<Field>)
    requires "progress_interval" !in Keys(cfg)
    ensures PyStr(ProgressInterval(cfg)) == "900"
  {
    assert ProgressInterval(cfg) == Int(900);
    assert NatToString(9) == "9";
    assert NatToString(90) == NatToString(9) + "0";
    assert NatToString(900) == NatToString(90) + "0";
  }

  /** The settings `submit` reads, in the order it reads them. */
  const SubmitSettings: seq<string> := ["project_id", "region", "bucket", "job_name"]

  /** The `i`-th setting is the first of `SubmitSettings` that is missing. */
  predicate FirstMissing(cfg: seq<Field>, env: Env, i: int) {
    && 0 <= i < |SubmitSettings|
    && GetConfigValue(cfg, env, SubmitSettings[i], true).NotConfigured?
    && forall j :: 0 <= j < i ==> GetConfigValue(cfg, env, SubmitSettings[j], true).Setting?
  }

  /** What `submit` prepares, or the setting whose absence stops it. */
  datatype Submission =
    | Missing(key: string)
    | Prepared(bucket: Value, configObject: string, jobPath: string, env: seq<EnvVar>, timeout: string)

  /** Lines 163-219: the four settings in turn, the object path, the job
      path, the environment and the execution's time limit. */
  method Submit(cfg: seq<Field>, env: Env, configFile: string, name: Option<string>, timeout: int,
                topicOnly: bool, topicsLoad: Option<string>, timestamp: string)
    returns (r: Submission)
    ensures r.Missing? <==>
      exists key :: key in {"project_id", "region", "bucket", "job_name"} && GetConfigValue(cfg, env, key, true).NotConfigured?
    ensures r.Missing? ==> exists i :: FirstMissing(cfg, env, i) && r.key == SubmitSettings[i]
    ensures r.Prepared? ==>
      && r.bucket == GetConfigValue(cfg, env, "bucket", true).value
      && r.configObject == ConfigObjectPath(RunName(name, configFile), timestamp)
      && r.jobPath == JobPath(GetConfigValue(cfg, env, "project_id", true).value,
                              GetConfigValue(cfg, env, "region", true).value,
                              GetConfigValue(cfg, env, "job_name", true).value)
      && EnvFor(r.env, r.configObject, RunName(name, configFile), cfg, topicOnly, topicsLoad)
      && r.timeout == IntToString(timeout) + "s"
  {
    var project := GetConfigValue(cfg, env, "project_id", true);
    if project.NotConfigured? {
      assert FirstMissing(cfg, env, 0);
      return Missing("project_id");
    }
    var region := GetConfigValue(cfg, env, "region", true);
    if region.NotConfigured? {
      assert FirstMissing(cfg, env, 1);
      return Missing("region");
    }
    var bucket := GetConfigValue(cfg, env, "bucket", true);
    if bucket.NotConfigured? {
      assert FirstMissing(cfg, env, 2);
      return Missing("bucket");
    }
    var jobName := GetConfigValue(cfg, env, "job_name", true);
    if jobName.NotConfigured? {
      assert FirstMissing(cfg, env, 3);
      return Missing("job_name");
    }
    var runName := if name.Some? && name.value != [] then name.value else Stem(PathName(configFile));
    var configObject := "configs/" + runName + "/" + timestamp + "/config.yaml";
    var jobPath := "projects/" + PyStr(project.value) + "/locations/" + PyStr(region.value)
                   + "/jobs/" + PyStr(jobName.value);
    var vars := SubmitEnv(configObject, runName, cfg, topicOnly, topicsLoad);
    r := Prepared(bucket.value, configObject, jobPath, vars, IntToString(timeout) + "s");
  }
}
