/** The job's handling of the generation config it downloads: pointing
    the tool endpoints at the deployed service
    (`update_config_spin_endpoint`) and reading which files the run is
    expected to produce (`get_output_files_from_config`). The config file
    is the document it loads to; writing it back and loading it again is
    taken to give the same document. */
module JobConfig {
  import opened Strings
  import opened PyValue

  /** The address the generation config uses for a locally run service. */
  const LocalService := "http://localhost:3000"

  /** Lines 58-61: `spin_endpoint` overwritten when present. */
  function SetSpinEndpoint(tools: Value, endpoint: string): Result<Value> {
    var hasSpin :- In("spin_endpoint", tools);
    if hasSpin then
      var _ :- Index(tools, "spin_endpoint");
      SetItem(tools, "spin_endpoint", Str(endpoint))
    else Ok(tools)
  }

  /** Lines 64-70: `tools_endpoint` rewritten when it mentions localhost. */
  function SetToolsEndpoint(tools: Value, endpoint: string): Result<Value> {
    var hasTools :- In("tools_endpoint", tools);
    if !hasTools then Ok(tools)
    else
      var original :- Index(tools, "tools_endpoint");
      var local :- In("localhost", original);
      if !local then Ok(tools)
      else
        var rewritten :- StrReplace(original, LocalService, endpoint);
        SetItem(tools, "tools_endpoint", Str(rewritten))
  }

  /** The new `generation.tools` mapping after lines 58-70 have changed it. */
  function RewriteTools(tools: Value, endpoint: string): Result<Value> {
    var withSpin :- SetSpinEndpoint(tools, endpoint);
    SetToolsEndpoint(withSpin, endpoint)
  }

  /** The config document after `update_config_spin_endpoint`, or the
      exception it raises (the file is then left as it was). */
  function SpinEndpointRewrite(config: Value, endpoint: string): Result<Value> {
    var hasGeneration :- In("generation", config);
    if !hasGeneration then Ok(config)
    else
      var generation :- Index(config, "generation");
      var hasTools :- In("tools", generation);
      if !hasTools then Ok(config)
      else
        var tools :- Index(generation, "tools");
        var tools' :- RewriteTools(tools, endpoint);
        var generation' :- SetItem(generation, "tools", tools');
        SetItem(config, "generation", generation')
  }

  /** The `generation.tools` mapping of a config, when the config has one. */
  function ToolsOf(config: Value): Option<seq<Field>> {
    if config.Dict? then
      match Lookup(config.fields, "generation")
      case Some(Dict(g)) =>
        (match Lookup(g, "tools")
         case Some(Dict(t)) => Some(t)
         case _ => None)
      case _ => None
    else None
  }

  /** The value `tools_endpoint` takes: rewritten only when it mentions
      localhost, by replacing every `http://localhost:3000` in it. */
  function RewrittenToolsEndpoint(original: Option<Value>, endpoint: string): Option<Value> {
    match original
    case Some(Str(s)) =>
      Some(Str(if Contains(s, "localhost") then ReplaceAll(s, LocalService, endpoint) else s))
    case other => other
  }

  /** The downloaded config file, rewritten in place. */
  class ConfigFile {
    var doc: Value

    constructor (doc: Value)
      ensures this.doc == doc
    {
      this.doc := doc;
    }

    /** Lines 55-73: the nested `tools` mapping is changed step by step
        and the document is written back only when no step raised. */
    method UpdateSpinEndpoint(endpoint: string) returns (r: Result<()>)
      modifies this
      ensures r.Ok? <==> SpinEndpointRewrite(old(doc), endpoint).Ok?
      ensures r.Err? ==> r == SpinEndpointRewrite(old(doc), endpoint).PropagateFailure()
      ensures doc == match SpinEndpointRewrite(old(doc), endpoint)
                     case Ok(d) => d
                     case Err(_) => old(doc)
    {
      var hasGeneration :- In("generation", doc);
      if hasGeneration {
        var generation :- Index(doc, "generation");
        var hasTools :- In("tools", generation);
        if hasTools {
          var tools :- Index(generation, "tools");
          var hasSpin :- In("spin_endpoint", tools);
          if hasSpin {
            var original :- Index(tools, "spin_endpoint");
            tools := SetItem(tools, "spin_endpoint", Str(endpoint)).value;
          }
          var hasToolsEndpoint :- In("tools_endpoint", tools);
          if hasToolsEndpoint {
            var original :- Index(tools, "tools_endpoint");
            var local :- In("localhost", original);
            if local {
              var rewritten :- StrReplace(original, LocalService, endpoint);
              tools := SetItem(tools, "tools_endpoint", Str(rewritten)).value;
            }
          }
          generation := SetItem(generation, "tools", tools).value;
          doc := SetItem(doc, "generation", generation).value;
        }
      }
      r := Ok(());
    }
  }

  /** Lines 58-61 on a mapping never raise, and change `spin_endpoint`
      only, and only when it is there. */
  lemma SetSpinEndpointSpec(t: seq<Field>, endpoint: string)
    ensures SetSpinEndpoint(Dict(t), endpoint).Ok?
    ensures var w := SetSpinEndpoint(Dict(t), endpoint).value;
      && w.Dict? && Keys(w.fields) == Keys(t)
      && Lookup(w.fields, "spin_endpoint") == (if "spin_endpoint" in Keys(t) then Some(Str(endpoint)) else None)
      && forall k :: k != "spin_endpoint" ==> Lookup(w.fields, k) == Lookup(t, k)
  {
    AssignSpec(t, "spin_endpoint", Str(endpoint));
  }

  /** Lines 64-70 on a mapping change `tools_endpoint` only, as
      `RewrittenToolsEndpoint` says. */
  lemma SetToolsEndpointSpec(w: seq<Field>, endpoint: string, t': Value)
    requires SetToolsEndpoint(Dict(w), endpoint) == Ok(t')
    ensures t'.Dict? && Keys(t'.fields) == Keys(w)
    ensures Lookup(t'.fields, "tools_endpoint") == RewrittenToolsEndpoint(Lookup(w, "tools_endpoint"), endpoint)
    ensures forall k :: k != "tools_endpoint" ==> Lookup(t'.fields, k) == Lookup(w, k)
  {
    var original := Lookup(w, "tools_endpoint");
    if original.Some? && original.value.Str? && Contains(original.value.s, "localhost") {
      AssignSpec(w, "tools_endpoint", Str(ReplaceAll(original.value.s, LocalService, endpoint)));
    } else {
      assert t' == Dict(w);
    }
  }

  /** Lines 58-70 on one `tools` mapping: `spin_endpoint` is overwritten
      only when it is already there, `tools_endpoint` is rewritten as
      `RewrittenToolsEndpoint` says, and no other key changes or moves. */
  lemma RewriteToolsSpec(t: seq<Field>, endpoint: string, t': Value)
    requires RewriteTools(Dict(t), endpoint) == Ok(t')
    ensures t'.Dict? && Keys(t'.fields) == Keys(t)
    ensures Lookup(t'.fields, "spin_endpoint") == (if "spin_endpoint" in Keys(t) then Some(Str(endpoint)) else None)
    ensures Lookup(t'.fields, "tools_endpoint") == RewrittenToolsEndpoint(Lookup(t, "tools_endpoint"), endpoint)
    ensures forall k :: k != "spin_endpoint" && k != "tools_endpoint" ==> Lookup(t'.fields, k) == Lookup(t, k)
  {
    SetSpinEndpointSpec(t, endpoint);
    var w := SetSpinEndpoint(Dict(t), endpoint).value;
    SetToolsEndpointSpec(w.fields, endpoint, t');
  }

  /** Inside `generation.tools`, `spin_endpoint` is overwritten only when
      it is already there, `tools_endpoint` is rewritten as
      `RewrittenToolsEndpoint` says, no key is added or moved and every
      other entry is left as it was. */
  lemma ToolsRewriteSpec(config: Value, endpoint: string, config': Value)
    requires SpinEndpointRewrite(config, endpoint) == Ok(config')
    ensures ToolsOf(config').Some? <==> ToolsOf(config).Some?
    ensures ToolsOf(config).Some? ==>
      var t, t' := ToolsOf(config).value, ToolsOf(config').value;
      && Keys(t') == Keys(t)
      && Lookup(t', "spin_endpoint") == (if "spin_endpoint" in Keys(t) then Some(Str(endpoint)) else None)
      && Lookup(t', "tools_endpoint") == RewrittenToolsEndpoint(Lookup(t, "tools_endpoint"), endpoint)
      && (forall k :: k != "spin_endpoint" && k != "tools_endpoint" ==> Lookup(t', k) == Lookup(t, k))
    ensures ToolsOf(config).None? ==> config' == config
  {
    if ToolsOf(config).Some? {
      var g := Lookup(config.fields, "generation").value.fields;
      var t := ToolsOf(config).value;
      var t' := RewriteTools(Dict(t), endpoint).value;
      RewriteToolsSpec(t, endpoint, t');
      AssignSpec(g, "tools", t');
      AssignSpec(config.fields, "generation", Dict(Assign(g, "tools", t')));
      assert config' == Dict(Assign(config.fields, "generation", Dict(Assign(g, "tools", t'))));
      assert ToolsOf(config') == Some(t'.fields);
    } else if config.Dict? && "generation" in Keys(config.fields) {
      var g := Lookup(config.fields, "generation").value;
      if g.Dict? && "tools" in Keys(g.fields) {
        var t := Lookup(g.fields, "tools").value;
        assert RewriteTools(t, endpoint) == Ok(t);
        ReplaceSame(g.fields, "tools", t);
        ReplaceSame(config.fields, "generation", g);
      }
    }
  }

  /** The `generation` mapping of a config, when the config has one. */
  function GenerationOf(config: Value): Option<seq<Field>> {
    if config.Dict? then
      match Lookup(config.fields, "generation")
      case Some(Dict(g)) => Some(g)
      case _ => None
    else None
  }

  /** Outside `generation.tools` the rewrite changes nothing: a document
      that is not a mapping comes out as it was, and in a mapping the keys,
      their order and every entry but `generation` stay, as do the keys and
      the entries other than `tools` inside `generation`. */
  lemma {:induction false} RewriteLeavesRestUntouched(config: Value, endpoint: string, config': Value)
    requires SpinEndpointRewrite(config, endpoint) == Ok(config')
    ensures !config.Dict? ==> config' == config
    ensures config.Dict? ==>
      && config'.Dict?
      && Keys(config'.fields) == Keys(config.fields)
      && (forall k :: k != "generation" ==> Lookup(config'.fields, k) == Lookup(config.fields, k))
    ensures GenerationOf(config').Some? <==> GenerationOf(config).Some?
    ensures GenerationOf(config).Some? ==>
      var g, g' := GenerationOf(config).value, GenerationOf(config').value;
      && Keys(g') == Keys(g)
      && (forall k :: k != "tools" ==> Lookup(g', k) == Lookup(g, k))
  {
    if config.Dict? && "generation" in Keys(config.fields) {
      var g := Lookup(config.fields, "generation").value;
      if g.Dict? && "tools" in Keys(g.fields) {
        var t := Lookup(g.fields, "tools").value;
        var t' := RewriteTools(t, endpoint).value;
        AssignSpec(g.fields, "tools", t');
        var g' := Dict(Assign(g.fields, "tools", t'));
        AssignSpec(config.fields, "generation", g');
        assert config' == Dict(Assign(config.fields, "generation", g'));
      }
    }
  }

  /** A config whose `generation`, `generation.tools` and
      `tools_endpoint` entries, where present, have the documented shapes. */
  predicate WellFormedConfig(config: Value) {
    && config.Dict?
    && (match Lookup(config.fields, "generation")
        case None => true
        case Some(Dict(g)) =>
          (match Lookup(g, "tools")
           case None => true
           case Some(Dict(t)) => (match Lookup(t, "tools_endpoint") case None => true case Some(e) => e.Str?)
           case Some(_) => false)
        case Some(_) => false)
  }

  /** The rewrite raises only on a malformed config: on a well-formed one
      it always succeeds. An empty config file, which loads as `None`,
      makes it raise. */
  lemma RewriteAcceptsWellFormed(config: Value, endpoint: string)
    ensures WellFormedConfig(config) ==> SpinEndpointRewrite(config, endpoint).Ok?
    ensures SpinEndpointRewrite(Null, endpoint).Err?
  {
    if WellFormedConfig(config) && "generation" in Keys(config.fields) {
      var g := Lookup(config.fields, "generation").value;
      if "tools" in Keys(g.fields) {
        var t := Lookup(g.fields, "tools").value;
        var w := if "spin_endpoint" in Keys(t.fields) then Assign(t.fields, "spin_endpoint", Str(endpoint)) else t.fields;
        AssignSpec(t.fields, "spin_endpoint", Str(endpoint));
        assert Lookup(w, "tools_endpoint") == Lookup(t.fields, "tools_endpoint");
        assert RewriteTools(t, endpoint).Ok?;
      }
    }
  }

  /** `section.save_as` when the config declares it (Python's
      `section in config and "save_as" in config[section]`), or the
      exception evaluating that raises. */
  function DeclaredOutput(config: Value, section: string): (r: Result<Option<Value>>)
    ensures config.Dict? && section !in Keys(config.fields) ==> r == Ok(None)
    ensures config.Dict? && section in Keys(config.fields) && Lookup(config.fields, section).value.Dict? ==>
      r == Ok(Lookup(Lookup(config.fields, section).value.fields, "save_as"))
    ensures r.Ok? && r.value.Some? ==> config.Dict? && section in Keys(config.fields)
  {
    var hasSection :- In(section, config);
    if !hasSection then Ok(None)
    else
      var s :- Index(config, section);
      var hasSaveAs :- In("save_as", s);
      if !hasSaveAs then Ok(None)
      else
        var path :- Index(s, "save_as");
        Ok(Some(path))
  }

  function AsSeq<T>(o: Option<T>): seq<T> {
    match o
    case None => []
    case Some(x) => [x]
  }

  /** What `get_output_files_from_config` returns or raises. */
  function DeclaredOutputs(config: Value): Result<seq<Value>> {
    var topics :- DeclaredOutput(config, "topics");
    var dataset :- DeclaredOutput(config, "output");
    Ok(AsSeq(topics) + AsSeq(dataset))
  }

  /** Lines 81-91, appending to `outputs` as the source does. */
  method GetOutputFiles(config: Value) returns (r: Result<seq<Value>>)
    ensures r == DeclaredOutputs(config)
  {
    var outputs: seq<Value> := [];
    var hasTopics :- In("topics", config);
    if hasTopics {
      var topics :- Index(config, "topics");
      var hasSaveAs :- In("save_as", topics);
      if hasSaveAs {
        var path :- Index(topics, "save_as");
        outputs := outputs + [path];
      }
    }
    // `in` already succeeded on this value once, so it cannot raise here
    var hasOutput := In("output", config).value;
    if hasOutput {
      var output :- Index(config, "output");
      var hasSaveAs :- In("save_as", output);
      if hasSaveAs {
        var path :- Index(output, "save_as");
        outputs := outputs + [path];
      }
    }
    ghost var topicsPart := AsSeq(DeclaredOutput(config, "topics").value);
    ghost var datasetPart := AsSeq(DeclaredOutput(config, "output").value);
    assert outputs == topicsPart + datasetPart;
    r := Ok(outputs);
  }

  /** A section whose value is a mapping, or which is absent. */
  predicate SectionShaped(config: Value, section: string)
    requires config.Dict?
  {
    section in Keys(config.fields) ==> Lookup(config.fields, section).value.Dict?
  }

  /** For a mapping config with mapping sections: at most two paths, the
      topic graph's `topics.save_as` before the dataset's `output.save_as`,
      each present exactly when its section declares `save_as`. */
  lemma {:induction false} DeclaredOutputsOrder(config: Value)
    requires config.Dict? && SectionShaped(config, "topics") && SectionShaped(config, "output")
    ensures DeclaredOutputs(config).Ok?
    ensures var outs := DeclaredOutputs(config).value;
      var topics := if "topics" in Keys(config.fields) then Lookup(Lookup(config.fields, "topics").value.fields, "save_as") else None;
      var dataset := if "output" in Keys(config.fields) then Lookup(Lookup(config.fields, "output").value.fields, "save_as") else None;
      && |outs| <= 2
      && |outs| == |AsSeq(topics)| + |AsSeq(dataset)|
      && (topics.Some? ==> outs[0] == topics.value)
      && (dataset.Some? ==> outs[|outs| - 1] == dataset.value)
  {
    var t := DeclaredOutput(config, "topics");
    var d := DeclaredOutput(config, "output");
    assert t.Ok? && d.Ok?;
  }

  /** The job reads its expected outputs from the rewritten file; the
      rewrite never changes them. */
  lemma OutputsSurviveRewrite(config: Value, endpoint: string, config': Value)
    requires SpinEndpointRewrite(config, endpoint) == Ok(config')
    ensures DeclaredOutputs(config') == DeclaredOutputs(config)
  {
    RewriteLeavesRestUntouched(config, endpoint, config');
    if config.Dict? {
      assert DeclaredOutput(config', "topics") == DeclaredOutput(config, "topics");
      assert DeclaredOutput(config', "output") == DeclaredOutput(config, "output");
    }
  }
}
