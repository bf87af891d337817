/** The CLI's own settings file (`~/.dfcloud/config.yaml`): looking a
    setting up with its `DFCLOUD_<KEY>` environment fallback
    (`get_config_value`), listing the settings with secrets masked
    (`config list`), and changing them (`config set`, `config init`).
    The loaded file is a mapping (`load_config` gives `{}` for a missing
    or empty file); the environment is a map. */
module CliConfig {
  import opened Strings
  import opened PyValue

  type Env = map<string, string>

  /** The environment variable consulted for a setting. */
  function EnvName(key: string): string {
    "DFCLOUD_" + Upper(key)
  }

  /** A setting's value, or the exit with status 1 that a missing required
      setting causes. */
  datatype Setting = Setting(value: Value) | NotConfigured(key: string)

  /** The value in the file when it is truthy, else the environment's. */
  predicate InFile(cfg: seq<Field>, key: string) {
    Lookup(cfg, key).Some? && Truthy(Lookup(cfg, key).value)
  }

  predicate InEnv(env: Env, key: string) {
    EnvName(key) in env && env[EnvName(key)] != []
  }

  /** `config.get(key) or os.environ.get(f"DFCLOUD_{key.upper()}")`, and
      the exit when a required setting has no truthy value. */
  function GetConfigValue(cfg: seq<Field>, env: Env, key: string, required: bool): (r: Setting)
    ensures InFile(cfg, key) ==> r == Setting(Lookup(cfg, key).value)
    ensures !InFile(cfg, key) && InEnv(env, key) ==> r == Setting(Str(env[EnvName(key)]))
    ensures r.NotConfigured? <==> required && !InFile(cfg, key) && !InEnv(env, key)
    ensures r.NotConfigured? ==> r.key == key
    ensures r.Setting? && !InFile(cfg, key) && !InEnv(env, key) ==> !Truthy(r.value)
  {
    var file := Get(Dict(cfg), key, Null).value;
    var value := if Truthy(file) then file else if EnvName(key) in env then Str(env[EnvName(key)]) else Null;
    if required && !Truthy(value) then NotConfigured(key) else Setting(value)
  }

  /** Keys whose values `config list` masks. */
  predicate Sensitive(key: string) {
    Contains(Lower(key), "secret") || Contains(Lower(key), "webhook")
  }

  /** How many characters of a sensitive value are shown. */
  const MaskLimit := 20

  /** The text shown for one setting (lines 115-117), or the exception
      `len` or the slice raises on a sensitive value that is not a string. */
  function Shown(key: string, v: Value): (r: Result<string>)
    ensures !Sensitive(key) ==> r == Ok(PyStr(v))
    ensures Sensitive(key) && v.Str? ==> r == Ok(Abbreviated(v.s, MaskLimit))
    ensures r.Err? <==> (Sensitive(key) &&
      (v.Null? || v.Bool? || v.Int? || v.Scalar? || (v.List? && |v.items| > MaskLimit) || (v.Dict? && |v.fields| > MaskLimit)))
  {
    if !Sensitive(key) then Ok(PyStr(v))
    else
      match v
      case Str(s) => Ok(Abbreviated(s, MaskLimit))
      case List(items) =>
        if |items| > MaskLimit then Err(Exception(TypeError, "can only concatenate list (not \"str\") to list"))
        else Ok(PyStr(v))
      case Dict(fields) =>
        if |fields| > MaskLimit then Err(Exception(TypeError, "unhashable type: 'slice'"))
        else Ok(PyStr(v))
      case _ => Err(Exception(TypeError, "object of type '" + TypeName(v) + "' has no len()"))
  }

  /** A sensitive string never shows more than its first 20 characters. */
  lemma MaskedSecretHidden(key: string, secret: string)
    requires Sensitive(key) && |secret| > MaskLimit
    ensures var shown := Shown(key, Str(secret)).value;
      && |shown| == MaskLimit + 3
      && shown == secret[..MaskLimit] + "..."
      && forall k :: MaskLimit <= k < |shown| ==> shown[k] == '.'
  {
    var shown := Shown(key, Str(secret)).value;
    assert shown == shown[..MaskLimit] + shown[MaskLimit..];
  }

  datatype Row = Row(key: string, shown: string)

  /** What `config list` shows: a notice for an empty file, else a table. */
  datatype Listing = NoConfiguration | Table(rows: seq<Row>)

  /** The rows for the settings, in the file's order. */
  function Rows(cfg: seq<Field>): Result<seq<Row>>
    decreases |cfg|
  {
    if cfg == [] then Ok([])
    else
      var init :- Rows(cfg[..|cfg| - 1]);
      var last := cfg[|cfg| - 1];
      var shown :- Shown(last.key, last.val);
      Ok(init + [Row(last.key, shown)])
  }

  /** One row per setting, in order, each showing `Shown`; listing fails
      exactly when one setting cannot be shown. */
  lemma {:induction false} RowsSpec(cfg: seq<Field>)
    ensures Rows(cfg).Ok? <==> forall k :: 0 <= k < |cfg| ==> Shown(cfg[k].key, cfg[k].val).Ok?
    ensures Rows(cfg).Ok? ==>
      && |Rows(cfg).value| == |cfg|
      && forall k :: 0 <= k < |cfg| ==>
           Rows(cfg).value[k] == Row(cfg[k].key, Shown(cfg[k].key, cfg[k].val).value)
    decreases |cfg|
  {
    if cfg != [] {
      var init := cfg[..|cfg| - 1];
      RowsSpec(init);
      assert forall k :: 0 <= k < |init| ==> init[k] == cfg[k];
    }
  }

  /** Lines 104-117: the table is filled row by row. */
  method ConfigList(cfg: seq<Field>) returns (r: Result<Listing>)
    ensures cfg == [] ==> r == Ok(NoConfiguration)
    ensures cfg != [] ==> (r.Ok? <==> Rows(cfg).Ok?)
    ensures cfg != [] && r.Ok? ==> r.value == Table(Rows(cfg).value)
  {
    if cfg == [] {
      return Ok(NoConfiguration);
    }
    var rows: seq<Row> := [];
    var i := 0;
    while i < |cfg|
      invariant 0 <= i <= |cfg|
      invariant Rows(cfg[..i]) == Ok(rows)
    {
      assert cfg[..i + 1][..i] == cfg[..i];
      var shown := Shown(cfg[i].key, cfg[i].val);
      if shown.Err? {
        RowsStop(cfg, i + 1);
        return Err(shown.error);
      }
      rows := rows + [Row(cfg[i].key, shown.value)];
      i := i + 1;
    }
    assert cfg[..i] == cfg;
    r := Ok(Table(rows));
  }

  /** Once a setting cannot be shown, the listing fails. */
  lemma {:induction false} RowsStop(cfg: seq<Field>, j: nat)
    requires j <= |cfg| && Rows(cfg[..j]).Err?
    ensures Rows(cfg).Err?
    decreases |cfg| - j
  {
    if j < |cfg| {
      assert cfg[..j + 1][..j] == cfg[..j];
      RowsStop(cfg, j + 1);
    } else {
      assert cfg[..j] == cfg;
    }
  }

  /** The job name `config init` stores. */
  const DefaultJobName := "deepfabric-job"

  /** The settings after `config init` (lines 130-134). */
  function Initialized(cfg: seq<Field>, project: string, region: string, bucket: string,
                       progressInterval: int): seq<Field>
  {
    var c1 := Assign(cfg, "project_id", Str(project));
    var c2 := Assign(c1, "region", Str(region));
    var c3 := Assign(c2, "bucket", Str(bucket));
    var c4 := Assign(c3, "job_name", Str(DefaultJobName));
    Assign(c4, "progress_interval", Int(progressInterval))
  }

  /** The settings file, changed in place and saved. */
  class ConfigStore {
    var fields: seq<Field>

    constructor (loaded: seq<Field>)
      ensures fields == loaded
    {
      fields := loaded;
    }

    /** `config set KEY VALUE` (line 84). */
    method Set(key: string, value: string)
      modifies this
      ensures fields == Assign(old(fields), key, Str(value))
    {
      fields := Assign(fields, key, Str(value));
    }

    /** `config init` (lines 129-134). */
    method Init(project: string, region: string, bucket: string, progressInterval: int)
      modifies this
      ensures fields == Initialized(old(fields), project, region, bucket, progressInterval)
    {
      fields := Assign(fields, "project_id", Str(project));
      fields := Assign(fields, "region", Str(region));
      fields := Assign(fields, "bucket", Str(bucket));
      fields := Assign(fields, "job_name", Str(DefaultJobName));
      fields := Assign(fields, "progress_interval", Int(progressInterval));
    }
  }

  /** A value set with `config set` is what the CLI then uses, whatever
      the environment says, unless it is empty: an empty value falls back
      to the environment. Every other setting keeps its value. */
  lemma SetThenGet(cfg: seq<Field>, env: Env, key: string, value: string, required: bool)
    ensures value != [] ==> GetConfigValue(Assign(cfg, key, Str(value)), env, key, required) == Setting(Str(value))
    ensures value == [] && InEnv(env, key) ==>
      GetConfigValue(Assign(cfg, key, Str(value)), env, key, required) == Setting(Str(env[EnvName(key)]))
    ensures value == [] && !InEnv(env, key) ==>
      (GetConfigValue(Assign(cfg, key, Str(value)), env, key, required).NotConfigured? <==> required)
    ensures forall other :: other != key ==>
      GetConfigValue(Assign(cfg, key, Str(value)), env, other, required) == GetConfigValue(cfg, env, other, required)
  {
    AssignSpec(cfg, key, Str(value));
  }

  /** After `config init` the four settings every command needs are
      configured, the job name is `deepfabric-job`, the other settings
      are untouched and keep their order, and new keys go last. */
  lemma InitConfigures(cfg: seq<Field>, env: Env, project: string, region: string, bucket: string,
                       progressInterval: int)
    requires project != [] && region != [] && bucket != []
    ensures var c := Initialized(cfg, project, region, bucket, progressInterval);
      && GetConfigValue(c, env, "project_id", true) == Setting(Str(project))
      && GetConfigValue(c, env, "region", true) == Setting(Str(region))
      && GetConfigValue(c, env, "bucket", true) == Setting(Str(bucket))
      && GetConfigValue(c, env, "job_name", true) == Setting(Str(DefaultJobName))
      && Lookup(c, "progress_interval") == Some(Int(progressInterval))
      && IsPrefixOf(Keys(cfg), Keys(c))
      && forall k :: k !in InitKeys() ==> Lookup(c, k) == Lookup(cfg, k)
  {
    InitLookup(cfg, project, region, bucket, progressInterval, "project_id");
    InitLookup(cfg, project, region, bucket, progressInterval, "region");
    InitLookup(cfg, project, region, bucket, progressInterval, "bucket");
    InitLookup(cfg, project, region, bucket, progressInterval, "job_name");
    InitLookup(cfg, project, region, bucket, progressInterval, "progress_interval");
    forall k | k !in InitKeys()
      ensures Lookup(Initialized(cfg, project, region, bucket, progressInterval), k) == Lookup(cfg, k)
    {
      InitLookup(cfg, project, region, bucket, progressInterval, k);
    }
    InitKeepsKeys(cfg, project, region, bucket, progressInterval);
  }

  lemma InitLookup(cfg: seq<Field>, project: string, region: string, bucket: string,
                   progressInterval: int, k: string)
    ensures Lookup(Initialized(cfg, project, region, bucket, progressInterval), k) ==
      if k == "project_id" then Some(Str(project))
      else if k == "region" then Some(Str(region))
      else if k == "bucket" then Some(Str(bucket))
      else if k == "job_name" then Some(Str(DefaultJobName))
      else if k == "progress_interval" then Some(Int(progressInterval))
      else Lookup(cfg, k)
  {
    var c1 := Assign(cfg, "project_id", Str(project));
    var c2 := Assign(c1, "region", Str(region));
    var c3 := Assign(c2, "bucket", Str(bucket));
    var c4 := Assign(c3, "job_name", Str(DefaultJobName));
    AssignSpec(cfg, "project_id", Str(project));
    AssignSpec(c1, "region", Str(region));
    AssignSpec(c2, "bucket", Str(bucket));
    AssignSpec(c3, "job_name", Str(DefaultJobName));
    AssignSpec(c4, "progress_interval", Int(progressInterval));
  }

  /** An assignment keeps the existing keys of the settings in memory in
      place. This order does not reach the file: `save_config` writes it
      with `yaml.safe_dump`, which sorts the keys, so the file and a later
      `config list` have them sorted. */
  lemma AssignKeepsKeys(fields: seq<Field>, key: string, v: Value)
    ensures IsPrefixOf(Keys(fields), Keys(Assign(fields, key, v)))
  {
    AssignSpec(fields, key, v);
  }

  /** `config init` keeps the existing keys of the in-memory settings in
      place; as above, the file itself is written with sorted keys. */
  lemma InitKeepsKeys(cfg: seq<Field>, project: string, region: string, bucket: string, progressInterval: int)
    ensures IsPrefixOf(Keys(cfg), Keys(Initialized(cfg, project, region, bucket, progressInterval)))
  {
    var c1 := Assign(cfg, "project_id", Str(project));
    var c2 := Assign(c1, "region", Str(region));
    var c3 := Assign(c2, "bucket", Str(bucket));
    var c4 := Assign(c3, "job_name", Str(DefaultJobName));
    AssignKeepsKeys(cfg, "project_id", Str(project));
    AssignKeepsKeys(c1, "region", Str(region));
    AssignKeepsKeys(c2, "bucket", Str(bucket));
    AssignKeepsKeys(c3, "job_name", Str(DefaultJobName));
    AssignKeepsKeys(c4, "progress_interval", Int(progressInterval));
    PrefixTrans(Keys(cfg), Keys(c1), Keys(c2));
    PrefixTrans(Keys(cfg), Keys(c2), Keys(c3));
    PrefixTrans(Keys(cfg), Keys(c3), Keys(c4));
    PrefixTrans(Keys(cfg), Keys(c4), Keys(Initialized(cfg, project, region, bucket, progressInterval)));
  }

  lemma PrefixTrans<T>(a: seq<T>, b: seq<T>, c: seq<T>)
    requires IsPrefixOf(a, b) && IsPrefixOf(b, c)
    ensures IsPrefixOf(a, c)
  {
    assert c[..|a|] == c[..|b|][..|a|];
  }

  function InitKeys(): set<string> {
    {"project_id", "region", "bucket", "job_name", "progress_interval"}
  }

  predicate IsPrefixOf<T(==)>(a: seq<T>, b: seq<T>) {
    |a| <= |b| && b[..|a|] == a
  }
}
