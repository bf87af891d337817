/** The helpers `dfcloud init` uses against the Spin service: reading the
    tool list it reports, loading mock responses and fixtures from a mock
    data document, and the `deepfabric import-tools` command line. The
    HTTP calls and the subprocess are parameters: a reply (or none), and a
    function telling which request bodies the service accepted with a 200. */
module SpinInit {
  import opened Strings
  import opened PyValue
  import opened Subprocess

  /** What `requests.get` gave: nothing (a connection error or a timeout),
      or a status and the body, which is `None` when it is not JSON. */
  datatype HttpReply = NoReply | Reply(status: int, body: Option<Value>)

  /** `t.get("name", t) if isinstance(t, dict) else t`. */
  function NameOf(t: Value): (r: Value)
    ensures t.Dict? && "name" in Keys(t.fields) ==> Lookup(t.fields, "name") == Some(r)
    ensures !(t.Dict? && "name" in Keys(t.fields)) ==> r == t
  {
    if t.Dict? then Get(t, "name", t).value else t
  }

  /** The comprehension of lines 747-748 over what `for t in items` visits. */
  function Names(items: seq<Value>): (r: seq<Value>)
    ensures |r| == |items|
    ensures forall k :: 0 <= k < |items| ==> r[k] == NameOf(items[k])
  {
    seq(|items|, k requires 0 <= k < |items| => NameOf(items[k]))
  }

  /** Lines 742-751: the tool names from a list body or from the "tools"
      entry of a dictionary body; anything else, a failed request, a
      status other than 200 or a "tools" entry that cannot be iterated
      gives no tools. */
  function ToolNames(reply: HttpReply): (r: seq<Value>)
    ensures !(reply.Reply? && reply.status == 200 && reply.body.Some?) ==> r == []
    ensures reply.Reply? && reply.status == 200 && reply.body.Some? && reply.body.value.List? ==>
      r == Names(reply.body.value.items)
    ensures reply.Reply? && reply.status == 200 && reply.body.Some? && reply.body.value.Dict? ==>
      var fields := reply.body.value.fields;
      && ("tools" !in Keys(fields) ==> r == [])
      && ("tools" in Keys(fields) ==>
            var tools := Lookup(fields, "tools").value;
            r == if Iterate(tools).Ok? then Names(Iterate(tools).value) else [])
    ensures (reply.Reply? && reply.status == 200 && reply.body.Some? &&
             !reply.body.value.List? && !reply.body.value.Dict?) ==> r == []
  {
    match reply
    case NoReply => []
    case Reply(status, body) =>
      if status != 200 || body.None? then []
      else
        var data := body.value;
        if data.List? then Names(data.items)
        else if data.Dict? && In("tools", data).value then
          var tools := Index(data, "tools").value;
          match Iterate(tools)
          case Ok(items) => Names(items)
          case Err(_) => []
        else []
  }

  /** A bare list of tools and the same list under "tools" report the same
      names. */
  lemma ListAndWrappedAgree(items: seq<Value>)
    ensures ToolNames(Reply(200, Some(List(items)))) == ToolNames(Reply(200, Some(Dict([Field("tools", List(items))]))))
  {
    var fields := [Field("tools", List(items))];
    assert Keys(fields) == ["tools"];
    assert Lookup(fields, "tools") == Some(List(items));
  }

  /** A tool described by a dictionary with a "name" is reported by that
      name, and a plain string is reported as itself. */
  lemma NamedToolsReported(name: string, rest: seq<Field>)
    ensures ToolNames(Reply(200, Some(List([Dict([Field("name", Str(name))] + rest)])))) == [Str(name)]
    ensures ToolNames(Reply(200, Some(List([Str(name)])))) == [Str(name)]
  {
    var fields := [Field("name", Str(name))] + rest;
    assert Keys(fields)[0] == "name";
    assert Lookup(fields, "name") == Some(Str(name));
  }

  /** The body line 766 posts for one tool's default response. */
  function MockPayload(toolName: string, response: Value): Value {
    Dict([Field("name", Str(toolName)), Field("mockResponse", response)])
  }

  /** `data.get("defaultResponse")` of one "mockResponses" entry. */
  function DefaultResponse(data: Value): Result<Value> {
    Get(data, "defaultResponse", Null)
  }

  /** An entry whose default response is posted and accepted. */
  predicate MockLoads(entry: Field, accepted: Value -> bool) {
    && entry.val.Dict?
    && Truthy(DefaultResponse(entry.val).value)
    && accepted(MockPayload(entry.key, DefaultResponse(entry.val).value))
  }

  /** Lines 760-776 over the entries of "mockResponses": the number of
      default responses the service accepted, or the error of the first
      entry that is not a dictionary. */
  function MockLoaded(entries: seq<Field>, accepted: Value -> bool): Result<nat>
    decreases |entries|
  {
    if entries == [] then Ok(0)
    else
      var n :- MockLoaded(entries[..|entries| - 1], accepted);
      var entry := entries[|entries| - 1];
      var default :- DefaultResponse(entry.val);
      if !Truthy(default) then Ok(n)
      else Ok(n + if accepted(MockPayload(entry.key, default)) then 1 else 0)
  }

  /** `mock_data.get("mockResponses", {})` and its `.items()`. */
  function MockEntries(mockData: Value): Result<seq<Field>> {
    var responses :- Get(mockData, "mockResponses", Dict([]));
    if responses.Dict? then Ok(responses.fields)
    else Err(Exception(AttributeError, "'" + TypeName(responses) + "' object has no attribute 'items'"))
  }

  /** Once an entry has raised, the later entries are never reached. */
  lemma {:induction false} MockLoadedStops(entries: seq<Field>, i: nat, accepted: Value -> bool)
    requires i <= |entries| && MockLoaded(entries[..i], accepted).Err?
    ensures MockLoaded(entries, accepted) == MockLoaded(entries[..i], accepted)
    decreases |entries| - i
  {
    if i < |entries| {
      assert entries[..i + 1][..i] == entries[..i];
      MockLoadedStops(entries, i + 1, accepted);
    } else {
      assert entries[..i] == entries;
    }
  }

  /** Lines 754-778: one post per entry with a truthy default response,
      counting the posts answered with 200. */
  method LoadMockResponses(mockData: Value, accepted: Value -> bool) returns (r: Result<nat>)
    ensures MockEntries(mockData).Err? ==> r == MockEntries(mockData).PropagateFailure()
    ensures MockEntries(mockData).Ok? ==> r == MockLoaded(MockEntries(mockData).value, accepted)
  {
    var got := Get(mockData, "mockResponses", Dict([]));
    if got.Err? {
      return Err(got.error);
    }
    var responses := got.value;
    if !responses.Dict? {
      return Err(Exception(AttributeError, "'" + TypeName(responses) + "' object has no attribute 'items'"));
    }
    var entries := responses.fields;
    var loaded := 0;
    var i := 0;
    while i < |entries|
      invariant 0 <= i <= |entries|
      invariant MockLoaded(entries[..i], accepted) == Ok(loaded)
    {
      assert entries[..i + 1][..i] == entries[..i];
      var toolName := entries[i].key;
      var data := entries[i].val;
      var defaultResponse := Get(data, "defaultResponse", Null);
      if defaultResponse.Err? {
        MockLoadedStops(entries, i + 1, accepted);
        return Err(defaultResponse.error);
      }
      if Truthy(defaultResponse.value) {
        if accepted(MockPayload(toolName, defaultResponse.value)) {
          loaded := loaded + 1;
        }
      }
      i := i + 1;
    }
    assert entries[..i] == entries;
    r := Ok(loaded);
  }

  /** The count fails exactly when some entry is not a dictionary; when it
      succeeds it counts at most one per entry, and one for every entry
      exactly when every entry's default response was loaded. */
  lemma {:induction false} MockLoadedBound(entries: seq<Field>, accepted: Value -> bool)
    ensures MockLoaded(entries, accepted).Err? <==> exists k :: 0 <= k < |entries| && !entries[k].val.Dict?
    ensures MockLoaded(entries, accepted).Ok? ==>
      && MockLoaded(entries, accepted).value <= |entries|
      && (MockLoaded(entries, accepted).value == |entries| <==> forall k :: 0 <= k < |entries| ==> MockLoads(entries[k], accepted))
    decreases |entries|
  {
    if entries != [] {
      var init := entries[..|entries| - 1];
      MockLoadedBound(init, accepted);
      assert forall k :: 0 <= k < |init| ==> init[k] == entries[k];
    }
  }

  /** The body line 797 posts for one fixture. */
  function FixturePayload(toolName: string, match_: Value, response: Value): Value {
    Dict([Field("name", Str(toolName)), Field("match", match_), Field("response", response)])
  }

  /** A fixture with a truthy match and response that the service accepted. */
  predicate FixtureLoads(toolName: string, fixture: Value, accepted: Value -> bool) {
    && fixture.Dict?
    && Truthy(Get(fixture, "match", Null).value)
    && Truthy(Get(fixture, "response", Null).value)
    && accepted(FixturePayload(toolName, Get(fixture, "match", Null).value, Get(fixture, "response", Null).value))
  }

  /** Lines 788-804 over one tool's fixtures: the accepted ones, or the
      error of the first fixture that is not a dictionary. */
  function FixtureCount(toolName: string, fixtures: seq<Value>, accepted: Value -> bool): Result<nat>
    decreases |fixtures|
  {
    if fixtures == [] then Ok(0)
    else
      var n :- FixtureCount(toolName, fixtures[..|fixtures| - 1], accepted);
      var fixture := fixtures[|fixtures| - 1];
      var match_ :- Get(fixture, "match", Null);
      var response := Get(fixture, "response", Null).value;
      if !Truthy(match_) || !Truthy(response) then Ok(n)
      else Ok(n + if accepted(FixturePayload(toolName, match_, response)) then 1 else 0)
  }

  /** Lines 787-804 over the entries of "fixtures": the fixtures of every
      tool in turn, stopping at the first entry that cannot be iterated or
      fixture that is not a dictionary. */
  function FixturesLoaded(entries: seq<Field>, accepted: Value -> bool): Result<nat>
    decreases |entries|
  {
    if entries == [] then Ok(0)
    else
      var n :- FixturesLoaded(entries[..|entries| - 1], accepted);
      var entry := entries[|entries| - 1];
      var fixtures :- Iterate(entry.val);
      var m :- FixtureCount(entry.key, fixtures, accepted);
      Ok(n + m)
  }

  /** `mock_data.get("fixtures", {})` and its `.items()`. */
  function FixtureEntries(mockData: Value): Result<seq<Field>> {
    var fixtures :- Get(mockData, "fixtures", Dict([]));
    if fixtures.Dict? then Ok(fixtures.fields)
    else Err(Exception(AttributeError, "'" + TypeName(fixtures) + "' object has no attribute 'items'"))
  }

  lemma {:induction false} FixtureCountStops(toolName: string, fixtures: seq<Value>, j: nat, accepted: Value -> bool)
    requires j <= |fixtures| && FixtureCount(toolName, fixtures[..j], accepted).Err?
    ensures FixtureCount(toolName, fixtures, accepted) == FixtureCount(toolName, fixtures[..j], accepted)
    decreases |fixtures| - j
  {
    if j < |fixtures| {
      assert fixtures[..j + 1][..j] == fixtures[..j];
      FixtureCountStops(toolName, fixtures, j + 1, accepted);
    } else {
      assert fixtures[..j] == fixtures;
    }
  }

  lemma {:induction false} FixturesLoadedStops(entries: seq<Field>, i: nat, accepted: Value -> bool)
    requires i <= |entries| && FixturesLoaded(entries[..i], accepted).Err?
    ensures FixturesLoaded(entries, accepted) == FixturesLoaded(entries[..i], accepted)
    decreases |entries| - i
  {
    if i < |entries| {
      assert entries[..i + 1][..i] == entries[..i];
      FixturesLoadedStops(entries, i + 1, accepted);
    } else {
      assert entries[..i] == entries;
    }
  }

  /** What the entry after a prefix adds to the count. */
  lemma FixturesLoadedStep(entries: seq<Field>, i: nat, accepted: Value -> bool)
    requires i < |entries| && FixturesLoaded(entries[..i], accepted).Ok?
    ensures Iterate(entries[i].val).Err? ==>
      FixturesLoaded(entries[..i + 1], accepted) == Err(Iterate(entries[i].val).error)
    ensures Iterate(entries[i].val).Ok? && FixtureCount(entries[i].key, Iterate(entries[i].val).value, accepted).Err? ==>
      FixturesLoaded(entries[..i + 1], accepted) == Err(FixtureCount(entries[i].key, Iterate(entries[i].val).value, accepted).error)
    ensures Iterate(entries[i].val).Ok? && FixtureCount(entries[i].key, Iterate(entries[i].val).value, accepted).Ok? ==>
      FixturesLoaded(entries[..i + 1], accepted) ==
        Ok(FixturesLoaded(entries[..i], accepted).value + FixtureCount(entries[i].key, Iterate(entries[i].val).value, accepted).value)
  {
    assert entries[..i + 1][..i] == entries[..i];
  }

  /** One tool's fixtures (lines 788-804), counted into `loaded`. */
  method LoadToolFixtures(toolName: string, fixtures: seq<Value>, accepted: Value -> bool) returns (r: Result<nat>)
    ensures r == FixtureCount(toolName, fixtures, accepted)
  {
    var loaded := 0;
    var j := 0;
    while j < |fixtures|
      invariant 0 <= j <= |fixtures|
      invariant FixtureCount(toolName, fixtures[..j], accepted) == Ok(loaded)
    {
      assert fixtures[..j + 1][..j] == fixtures[..j];
      var fixture := fixtures[j];
      var match_ := Get(fixture, "match", Null);
      var response := Get(fixture, "response", Null);
      if match_.Err? || response.Err? {
        FixtureCountStops(toolName, fixtures, j + 1, accepted);
        return Err(match_.error);
      }
      if Truthy(match_.value) && Truthy(response.value) {
        if accepted(FixturePayload(toolName, match_.value, response.value)) {
          loaded := loaded + 1;
        }
      }
      j := j + 1;
    }
    assert fixtures[..j] == fixtures;
    r := Ok(loaded);
  }

  /** Lines 781-806: the fixtures of every tool, counting the posts
      answered with 200. */
  method LoadFixtures(mockData: Value, accepted: Value -> bool) returns (r: Result<nat>)
    ensures FixtureEntries(mockData).Err? ==> r == FixtureEntries(mockData).PropagateFailure()
    ensures FixtureEntries(mockData).Ok? ==> r == FixturesLoaded(FixtureEntries(mockData).value, accepted)
  {
    var got := Get(mockData, "fixtures", Dict([]));
    if got.Err? {
      return Err(got.error);
    }
    var fixtures := got.value;
    if !fixtures.Dict? {
      return Err(Exception(AttributeError, "'" + TypeName(fixtures) + "' object has no attribute 'items'"));
    }
    var entries := fixtures.fields;
    var loaded := 0;
    var i := 0;
    while i < |entries|
      invariant 0 <= i <= |entries|
      invariant FixturesLoaded(entries[..i], accepted) == Ok(loaded)
    {
      FixturesLoadedStep(entries, i, accepted);
      var toolFixtures := Iterate(entries[i].val);
      if toolFixtures.Err? {
        FixturesLoadedStops(entries, i + 1, accepted);
        return Err(toolFixtures.error);
      }
      var m := LoadToolFixtures(entries[i].key, toolFixtures.value, accepted);
      if m.Err? {
        FixturesLoadedStops(entries, i + 1, accepted);
        return Err(m.error);
      }
      loaded := loaded + m.value;
      i := i + 1;
    }
    assert entries[..i] == entries;
    r := Ok(loaded);
  }

  /** One tool's count is at most its number of fixtures, and reaches it
      exactly when every fixture was loaded. */
  lemma {:induction false} FixtureCountBound(toolName: string, fixtures: seq<Value>, accepted: Value -> bool)
    ensures FixtureCount(toolName, fixtures, accepted).Err? <==> exists k :: 0 <= k < |fixtures| && !fixtures[k].Dict?
    ensures FixtureCount(toolName, fixtures, accepted).Ok? ==>
      && FixtureCount(toolName, fixtures, accepted).value <= |fixtures|
      && (FixtureCount(toolName, fixtures, accepted).value == |fixtures| <==>
            forall k :: 0 <= k < |fixtures| ==> FixtureLoads(toolName, fixtures[k], accepted))
    decreases |fixtures|
  {
    if fixtures != [] {
      var init := fixtures[..|fixtures| - 1];
      FixtureCountBound(toolName, init, accepted);
      assert forall k :: 0 <= k < |init| ==> init[k] == fixtures[k];
    }
  }

  /** A service that accepts nothing is counted as having loaded nothing,
      whatever the fixtures are. */
  lemma {:induction false} NothingAcceptedNothingLoaded(entries: seq<Field>, accepted: Value -> bool)
    requires forall p :: !accepted(p)
    ensures FixturesLoaded(entries, accepted).Ok? ==> FixturesLoaded(entries, accepted).value == 0
    decreases |entries|
  {
    if entries != [] {
      var init := entries[..|entries| - 1];
      NothingAcceptedNothingLoaded(init, accepted);
      var entry := entries[|entries| - 1];
      var fixtures := Iterate(entry.val);
      if fixtures.Ok? {
        FixtureCountBound(entry.key, fixtures.value, accepted);
        FixtureCountNone(entry.key, fixtures.value, accepted);
      }
    }
  }

  lemma {:induction false} FixtureCountNone(toolName: string, fixtures: seq<Value>, accepted: Value -> bool)
    requires forall p :: !accepted(p)
    ensures FixtureCount(toolName, fixtures, accepted).Ok? ==> FixtureCount(toolName, fixtures, accepted).value == 0
    decreases |fixtures|
  {
    if fixtures != [] {
      FixtureCountNone(toolName, fixtures[..|fixtures| - 1], accepted);
    }
  }

  /** Lines 813-821: the import-tools command, with an authorization
      header only for a non-empty token. */
  function ImportToolsCommand(spinUrl: string, mcpCommand: string, authToken: Option<string>): (cmd: seq<string>)
    ensures |cmd| >= 8
    ensures cmd[..8] == ["deepfabric", "import-tools", "--transport", "stdio", "--command", mcpCommand, "--spin", spinUrl]
    ensures authToken.Some? && authToken.value != [] ==> cmd[8..] == ["--header", "Authorization=Bearer " + authToken.value]
    ensures authToken.None? || authToken.value == [] ==> |cmd| == 8
  {
    var cmd := ["deepfabric", "import-tools", "--transport", "stdio", "--command", mcpCommand, "--spin", spinUrl];
    if authToken.Some? && authToken.value != [] then cmd + ["--header", "Authorization=Bearer " + authToken.value]
    else cmd
  }

  /** A token only adds the header after the command line run without one;
      an empty token is the same as none. */
  lemma TokenOnlyAddsHeader(spinUrl: string, mcpCommand: string, token: string)
    ensures var without := ImportToolsCommand(spinUrl, mcpCommand, None);
      var with := ImportToolsCommand(spinUrl, mcpCommand, Some(token));
      |without| <= |with| && with[..|without|] == without && (token != [] ==> |with| == |without| + 2)
    ensures ImportToolsCommand(spinUrl, mcpCommand, Some([])) == ImportToolsCommand(spinUrl, mcpCommand, None)
  {
  }

  /** Lines 809-850: the tools are registered exactly when the command started
      and exited with status 0; a missing `deepfabric`, a timeout and any
      other failure all count as not registered. */
  function RunImportTools(spinUrl: string, mcpCommand: string, authToken: Option<string>,
                          run: seq<string> -> ProcessOutcome): (ok: bool)
    ensures var outcome := run(ImportToolsCommand(spinUrl, mcpCommand, authToken));
      ok <==> outcome.Exited? && outcome.code == 0
  {
    match run(ImportToolsCommand(spinUrl, mcpCommand, authToken))
    case Exited(code, _, _) => code == 0
    case TimedOut => false
    case LaunchFailed(_) => false
  }
}
