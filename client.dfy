/** The agent CLI protocol client (core/claude_client.py): the argument vector it
    launches the agent with, the decoding of a single-shot reply once the process has
    exited, and the decoding of the line-delimited event stream. The process itself is
    an input: its exit code, stderr and already-decoded stdout, or the stream's lines. */
module ClaudeClient {
  import opened Json
  import Text

  /** The settings `ClaudeClient.__init__` stores; none of them changes afterwards. */
  datatype Config = Config(binary: string, defaultModel: string, fallbackModel: string, timeout: int)

  /** The keyword arguments shared by `_build_command`, `query` and `query_stream`.
      `allowedTools` is `[]` for both `None` and an empty list: the code only tests its truth. */
  datatype Request = Request(
    prompt: string,
    sessionId: Option<string>,
    allowedTools: seq<string>,
    maxTurns: Option<int>,
    systemPrompt: Option<string>,
    workingDirectory: Option<string>,
    model: Option<string>)

  // ---------------------------------------------------------------------------
  // Argument vector
  // ---------------------------------------------------------------------------

  /** The optional flags, in the order the builder appends them. */
  const OptionFlags: seq<string> :=
    ["--resume", "--allowedTools", "--append-system-prompt", "--model", "--fallback-model"]

  /** The value following the first occurrence of `flag` in a sequence of flag/value pairs. */
  function Lookup(opts: seq<string>, flag: string): Option<string>
    decreases |opts|
  {
    if |opts| < 2 then None
    else if opts[0] == flag then Some(opts[1])
    else Lookup(opts[2..], flag)
  }

  /** Position of a flag among `OptionFlags`, or -1 for any other string. */
  function Rank(flag: string): int
  {
    if flag == OptionFlags[0] then 0
    else if flag == OptionFlags[1] then 1
    else if flag == OptionFlags[2] then 2
    else if flag == OptionFlags[3] then 3
    else if flag == OptionFlags[4] then 4
    else -1
  }

  /** A ranked flag is the optional flag of that rank. */
  lemma RankInverse(flag: string)
    requires Rank(flag) >= 0
    ensures Rank(flag) < 5 && OptionFlags[Rank(flag)] == flag
  {
    if flag == OptionFlags[0] {
    } else if flag == OptionFlags[1] {
    } else if flag == OptionFlags[2] {
    } else if flag == OptionFlags[3] {
    } else {
      assert flag == OptionFlags[4];
    }
  }

  /** Flag/value pairs of known flags in strictly increasing rank, all ranked above `after`. */
  predicate Ascending(opts: seq<string>, after: int)
    decreases |opts|
  {
    opts == [] || (|opts| >= 2 && Rank(opts[0]) > after && Ascending(opts[2..], Rank(opts[0])))
  }

  /** Every flag among the pairs ranks below `r`. */
  predicate AllBelow(opts: seq<string>, r: int)
    decreases |opts|
  {
    |opts| < 2 || (Rank(opts[0]) < r && AllBelow(opts[2..], r))
  }

  /** Flag/value pairs whose flags are known ones, each at most once, in builder order. */
  predicate WellFormedOptions(opts: seq<string>)
  {
    Ascending(opts, -1)
  }

  /** The model `_build_command` selects: the request's if given, else the configured default. */
  function SelectedModel(cfg: Config, req: Request): string
  {
    if Truthy(req.model) then req.model.value else cfg.defaultModel
  }

  /** What the argument vector for `req` must be: the fixed five-element head with the
      prompt as one element, then flag/value pairs in which each optional flag carries
      exactly the value the request and configuration call for, and is absent otherwise. */
  predicate IsCommandFor(cfg: Config, req: Request, outputFormat: string, cmd: seq<string>)
  {
    && |cmd| >= 5
    && cmd[..5] == [cfg.binary, "-p", req.prompt, "--output-format", outputFormat]
    && WellFormedOptions(cmd[5..])
    && Lookup(cmd[5..], "--resume") == (if Truthy(req.sessionId) then Some(req.sessionId.value) else None)
    && Lookup(cmd[5..], "--allowedTools") == (if req.allowedTools != [] then Some(Text.Join(req.allowedTools, ',')) else None)
    && Lookup(cmd[5..], "--append-system-prompt") == (if Truthy(req.systemPrompt) then Some(req.systemPrompt.value) else None)
    && Lookup(cmd[5..], "--model") == (if SelectedModel(cfg, req) != "" then Some(SelectedModel(cfg, req)) else None)
    && Lookup(cmd[5..], "--fallback-model") == (if cfg.fallbackModel != "" then Some(cfg.fallbackModel) else None)
  }

  /** Appending one pair: earlier values win, otherwise the new pair answers for its flag. */
  lemma {:induction false} LookupAppend(opts: seq<string>, flag: string, value: string, key: string)
    requires |opts| % 2 == 0
    ensures Lookup(opts + [flag, value], key)
         == if Lookup(opts, key).Some? then Lookup(opts, key) else if flag == key then Some(value) else None
    decreases |opts|
  {
    if |opts| >= 2 {
      assert (opts + [flag, value])[2..] == opts[2..] + [flag, value];
      LookupAppend(opts[2..], flag, value, key);
    } else {
      assert opts == [];
    }
  }

  /** Pairs ranked above `after` hold no flag of rank `after` or lower. */
  lemma {:induction false} LookupAbove(opts: seq<string>, after: int, key: string)
    requires Ascending(opts, after) && Rank(key) <= after
    ensures Lookup(opts, key) == None
    decreases |opts|
  {
    if opts != [] {
      LookupAbove(opts[2..], Rank(opts[0]), key);
    }
  }

  /** Pairs ranked below `r` hold no flag of rank `r`. */
  lemma {:induction false} LookupBelow(opts: seq<string>, r: int, key: string)
    requires AllBelow(opts, r) && Rank(key) == r
    ensures Lookup(opts, key) == None
    decreases |opts|
  {
    if |opts| >= 2 {
      LookupBelow(opts[2..], r, key);
    }
  }

  /** Appending a pair whose flag ranks above every flag present keeps the pairs ascending. */
  lemma {:induction false} AscendingAppend(opts: seq<string>, after: int, flag: string, value: string)
    requires Ascending(opts, after) && AllBelow(opts, Rank(flag)) && Rank(flag) > after
    ensures Ascending(opts + [flag, value], after)
    ensures AllBelow(opts + [flag, value], Rank(flag) + 1)
    decreases |opts|
  {
    if opts == [] {
      assert (opts + [flag, value])[2..] == [];
    } else {
      assert (opts + [flag, value])[2..] == opts[2..] + [flag, value];
      AscendingAppend(opts[2..], Rank(opts[0]), flag, value);
      assert AllBelow(opts[2..] + [flag, value], Rank(flag) + 1);
    }
  }

  /** A bound on the ranks may be raised. */
  lemma {:induction false} AllBelowWeaken(opts: seq<string>, r: int, s: int)
    requires AllBelow(opts, r) && r <= s
    ensures AllBelow(opts, s)
    decreases |opts|
  {
    if |opts| >= 2 {
      AllBelowWeaken(opts[2..], r, s);
    }
  }

  /** The value `IsCommandFor` demands for the optional flag of rank `k`. */
  function Expected(cfg: Config, req: Request, k: int): Option<string>
  {
    if k == 0 then (if Truthy(req.sessionId) then Some(req.sessionId.value) else None)
    else if k == 1 then (if req.allowedTools != [] then Some(Text.Join(req.allowedTools, ',')) else None)
    else if k == 2 then (if Truthy(req.systemPrompt) then Some(req.systemPrompt.value) else None)
    else if k == 3 then (if SelectedModel(cfg, req) != "" then Some(SelectedModel(cfg, req)) else None)
    else if k == 4 then (if cfg.fallbackModel != "" then Some(cfg.fallbackModel) else None)
    else None
  }

  /** The builder's state once the flags of rank below `r` have been considered. */
  ghost predicate Built(cfg: Config, req: Request, outputFormat: string, cmd: seq<string>, r: int)
  {
    && |cmd| >= 5
    && cmd[..5] == [cfg.binary, "-p", req.prompt, "--output-format", outputFormat]
    && WellFormedOptions(cmd[5..])
    && AllBelow(cmd[5..], r)
    && forall k :: 0 <= k < 5 ==> Lookup(cmd[5..], OptionFlags[k]) == (if k < r then Expected(cfg, req, k) else None)
  }

  /** Considering the flag of rank `r`: it is appended, with its value, iff one is expected. */
  ghost function Considered(cfg: Config, req: Request, cmd: seq<string>, r: int): seq<string>
    requires 0 <= r < 5
  {
    match Expected(cfg, req, r)
    case Some(v) => cmd + [OptionFlags[r], v]
    case None => cmd
  }

  lemma Advance(cfg: Config, req: Request, outputFormat: string, cmd: seq<string>, r: int)
    requires 0 <= r < 5 && Built(cfg, req, outputFormat, cmd, r)
    ensures Built(cfg, req, outputFormat, Considered(cfg, req, cmd, r), r + 1)
  {
    var opts := cmd[5..];
    var flag := OptionFlags[r];
    assert Rank(flag) == r;
    AllBelowWeaken(opts, r, r + 1);
    assert |opts| % 2 == 0 by { EvenLength(opts, -1); }
    match Expected(cfg, req, r)
    case None =>
    case Some(v) =>
      var next := Considered(cfg, req, cmd, r);
      assert next[5..] == opts + [flag, v];
      AscendingAppend(opts, -1, flag, v);
      LookupBelow(opts, r, flag);
      forall k | 0 <= k < 5
        ensures Lookup(opts + [flag, v], OptionFlags[k]) == (if k < r + 1 then Expected(cfg, req, k) else None)
      {
        LookupAppend(opts, flag, v, OptionFlags[k]);
      }
  }

  lemma {:induction false} EvenLength(opts: seq<string>, after: int)
    requires Ascending(opts, after)
    ensures |opts| % 2 == 0
    decreases |opts|
  {
    if opts != [] {
      EvenLength(opts[2..], Rank(opts[0]));
    }
  }

  /** All five flags considered: the vector meets `IsCommandFor`. */
  lemma BuiltComplete(cfg: Config, req: Request, outputFormat: string, cmd: seq<string>)
    requires Built(cfg, req, outputFormat, cmd, 5)
    ensures IsCommandFor(cfg, req, outputFormat, cmd)
  {
    assert Lookup(cmd[5..], OptionFlags[0]) == Expected(cfg, req, 0);
    assert Lookup(cmd[5..], OptionFlags[1]) == Expected(cfg, req, 1);
    assert Lookup(cmd[5..], OptionFlags[2]) == Expected(cfg, req, 2);
    assert Lookup(cmd[5..], OptionFlags[3]) == Expected(cfg, req, 3);
    assert Lookup(cmd[5..], OptionFlags[4]) == Expected(cfg, req, 4);
  }

  /** `_build_command`: grows the argument vector flag by flag. `maxTurns` and
      `workingDirectory` are accepted and never read. */
  method BuildCommand(cfg: Config, req: Request, outputFormat: string) returns (cmd: seq<string>)
    ensures IsCommandFor(cfg, req, outputFormat, cmd)
  {
    cmd := [cfg.binary, "-p", req.prompt];
    cmd := cmd + ["--output-format", outputFormat];
    assert cmd[5..] == [];
    ghost var before := cmd;

    if Truthy(req.sessionId) {
      cmd := cmd + ["--resume", req.sessionId.value];
    }
    Advance(cfg, req, outputFormat, before, 0);
    assert cmd == Considered(cfg, req, before, 0);
    before := cmd;

    if req.allowedTools != [] {
      cmd := cmd + ["--allowedTools", Text.Join(req.allowedTools, ',')];
    }
    Advance(cfg, req, outputFormat, before, 1);
    assert cmd == Considered(cfg, req, before, 1);
    before := cmd;

    if Truthy(req.systemPrompt) {
      cmd := cmd + ["--append-system-prompt", req.systemPrompt.value];
    }
    Advance(cfg, req, outputFormat, before, 2);
    assert cmd == Considered(cfg, req, before, 2);
    before := cmd;

    var selectedModel := if Truthy(req.model) then req.model.value else cfg.defaultModel;
    if selectedModel != "" {
      cmd := cmd + ["--model", selectedModel];
    }
    Advance(cfg, req, outputFormat, before, 3);
    assert cmd == Considered(cfg, req, before, 3);
    before := cmd;

    if cfg.fallbackModel != "" {
      cmd := cmd + ["--fallback-model", cfg.fallbackModel];
    }
    Advance(cfg, req, outputFormat, before, 4);
    assert cmd == Considered(cfg, req, before, 4);
    BuiltComplete(cfg, req, outputFormat, cmd);
  }

  /** Non-empty ascending pairs give a value to the flag of their first pair. */
  lemma FirstFlagFound(opts: seq<string>, after: int)
    ensures after >= -1 && opts != [] && Ascending(opts, after) ==>
              0 <= Rank(opts[0]) < 5 && Lookup(opts, OptionFlags[Rank(opts[0])]).Some?
  {
    if after >= -1 && opts != [] && Ascending(opts, after) {
      RankInverse(opts[0]);
    }
  }

  /** Ascending pairs are determined by the values they give the five flags. */
  lemma {:induction false} OptionsDetermined(a: seq<string>, b: seq<string>, after: int)
    requires after >= -1 && Ascending(a, after) && Ascending(b, after)
    requires forall k :: 0 <= k < 5 ==> Lookup(a, OptionFlags[k]) == Lookup(b, OptionFlags[k])
    ensures a == b
    decreases |a|
  {
    if a == [] && b != [] {
      FirstFlagFound(b, after);
      assert false;
    } else if a != [] && b == [] {
      FirstFlagFound(a, after);
      assert false;
    } else if a != [] {
      var fa, fb := a[0], b[0];
      RankInverse(fa);
      RankInverse(fb);
      if Rank(fa) < Rank(fb) {
        LookupAbove(b[2..], Rank(fb), fa);
        assert false;
      } else if Rank(fb) < Rank(fa) {
        LookupAbove(a[2..], Rank(fa), fb);
        assert false;
      } else {
        assert fa == fb;
        forall k | 0 <= k < 5
          ensures Lookup(a[2..], OptionFlags[k]) == Lookup(b[2..], OptionFlags[k])
        {
          if OptionFlags[k] == fa {
            LookupAbove(a[2..], Rank(fa), fa);
            LookupAbove(b[2..], Rank(fa), fa);
          }
        }
        OptionsDetermined(a[2..], b[2..], Rank(fa));
        assert a == a[..2] + a[2..] && b == b[..2] + b[2..];
      }
    }
  }

  /** `max_turns` and `working_directory` never contribute an element: two requests that
      differ only in them get the same argument vector. */
  lemma CommandIgnoresTurnsAndDirectory(cfg: Config, req: Request, outputFormat: string,
                                        turns: Option<int>, dir: Option<string>,
                                        cmd1: seq<string>, cmd2: seq<string>)
    requires IsCommandFor(cfg, req, outputFormat, cmd1)
    requires IsCommandFor(cfg, req.(maxTurns := turns, workingDirectory := dir), outputFormat, cmd2)
    ensures cmd1 == cmd2
  {
    OptionsDetermined(cmd1[5..], cmd2[5..], -1);
    assert cmd1 == cmd1[..5] + cmd1[5..] && cmd2 == cmd2[..5] + cmd2[5..];
  }

  /** The vector `query_stream` launches: the builder's with `stream-json`, then
      `--include-partial-messages` as one trailing element when partial messages are wanted. */
  method StreamCommand(cfg: Config, req: Request, includePartial: bool) returns (cmd: seq<string>)
    ensures includePartial ==> |cmd| > 5 && cmd[|cmd| - 1] == "--include-partial-messages"
                               && IsCommandFor(cfg, req, "stream-json", cmd[..|cmd| - 1])
    ensures !includePartial ==> IsCommandFor(cfg, req, "stream-json", cmd)
  {
    var base := BuildCommand(cfg, req, "stream-json");
    cmd := base;
    if includePartial {
      cmd := cmd + ["--include-partial-messages"];
      assert cmd[..|cmd| - 1] == base;
    }
  }

  // ---------------------------------------------------------------------------
  // Single-shot reply
  // ---------------------------------------------------------------------------

  /** Standard output after `stdout.decode()` and `json.loads`: a decoded value, or text
      that is not JSON at all. That text is not stripped: it keeps any surrounding
      whitespace, which `query` returns with it. */
  datatype Stdout = Decoded(value: Value) | NotJson(text: string)

  /** How the launched process ended: past the deadline, or with an exit code and output. */
  datatype ProcessOutcome =
    | TimedOut
    | Exited(returnCode: int, stdout: Stdout, stderr: string)

  /** The `token_usage` dict of a response. Counters are whatever values the reply
      carried (0 when absent); `totalTokens` is their Python sum. */
  datatype TokenUsage = TokenUsage(
    inputTokens: Value,
    outputTokens: Value,
    totalTokens: Value,
    cacheReadTokens: Value,
    cacheCreationTokens: Value)

  /** `ClaudeResponse`; `tokenUsage == None` is the empty dict. `duration_ms` is not modelled. */
  datatype ClaudeResponse = ClaudeResponse(
    result: Value,
    sessionId: Value,
    tokenUsage: Option<TokenUsage>,
    toolsUsed: seq<string>,
    rawOutput: Option<map<string, Value>>)

  /** What `query` raises. */
  datatype QueryError =
    | Timeout(seconds: int)             // TimeoutError
    | CliFailed(message: string)        // RuntimeError on a nonzero exit
    | ReplyNotAnObject                  // AttributeError: `data.get` on a decoded non-object
    | UsageNotAnObject                  // AttributeError: `usage.get` on a non-object
    | CountersNotAddable                // TypeError: `input + output` on values Python cannot add

  /** A JSON value Python adds as an integer: a number, or a boolean (`True` is 1). */
  function AsInt(v: Value): Option<int>
  {
    match v
    case JNum(n) => Some(n)
    case JBool(b) => Some(if b then 1 else 0)
    case _ => None
  }

  /** Python's `a + b` on two decoded JSON values: integer addition, or concatenation of
      two strings or two lists; anything else raises `TypeError`. */
  function PyAdd(a: Value, b: Value): (r: Result<Value, QueryError>)
    ensures a.JNum? && b.JNum? ==> r == Ok(JNum(a.n + b.n))
    ensures a.JStr? && b.JStr? ==> r == Ok(JStr(a.s + b.s))
    ensures r.Err? <==> !(AsInt(a).Some? && AsInt(b).Some?) && !(a.JStr? && b.JStr?) && !(a.JArr? && b.JArr?)
  {
    if AsInt(a).Some? && AsInt(b).Some? then Ok(JNum(AsInt(a).value + AsInt(b).value))
    else if a.JStr? && b.JStr? then Ok(JStr(a.s + b.s))
    else if a.JArr? && b.JArr? then Ok(JArr(a.items + b.items))
    else Err(CountersNotAddable)
  }

  /** The token-usage dict built from a `usage` value. */
  function ExtractUsage(usage: Value): (r: Result<TokenUsage, QueryError>)
    ensures !usage.JObj? ==> r == Err(UsageNotAnObject)
    ensures r.Ok? ==> usage.JObj? && PyAdd(r.value.inputTokens, r.value.outputTokens) == Ok(r.value.totalTokens)
    ensures usage.JObj? ==>
      var get := (key: string) => GetOr(usage.fields, key, JNum(0));
      match PyAdd(get("input_tokens"), get("output_tokens"))
      case Ok(total) =>
        r == Ok(TokenUsage(get("input_tokens"), get("output_tokens"), total,
                           get("cache_read_input_tokens"), get("cache_creation_input_tokens")))
      case Err(e) => r == Err(e)
  {
    if !usage.JObj? then Err(UsageNotAnObject)
    else
      var u := usage.fields;
      var input := GetOr(u, "input_tokens", JNum(0));
      var output := GetOr(u, "output_tokens", JNum(0));
      match PyAdd(input, output)
      case Ok(total) =>
        Ok(TokenUsage(input, output, total,
                      GetOr(u, "cache_read_input_tokens", JNum(0)), GetOr(u, "cache_creation_input_tokens", JNum(0))))
      case Err(e) => Err(e)
  }

  /** The body of `query` after the process has ended: turn its outcome into a response or an error. */
  function DecodeReply(cfg: Config, sessionId: Option<string>, outcome: ProcessOutcome): (r: Result<ClaudeResponse, QueryError>)
    ensures outcome.TimedOut? ==> r == Err(Timeout(cfg.timeout))
    ensures outcome.Exited? && outcome.returnCode != 0 ==>
      r == Err(CliFailed("Claude CLI failed: " + (if outcome.stderr != "" then outcome.stderr else "Unknown error")))
    ensures r.Ok? ==> outcome.Exited? && outcome.returnCode == 0 && r.value.toolsUsed == []
    ensures outcome.Exited? && outcome.returnCode == 0 && outcome.stdout.NotJson? ==>
      r == Ok(ClaudeResponse(JStr(outcome.stdout.text), JStr(OrEmpty(sessionId)), None, [], None))
    ensures outcome.Exited? && outcome.returnCode == 0 && outcome.stdout.Decoded? && !outcome.stdout.value.JObj? ==>
      r == Err(ReplyNotAnObject)
    ensures outcome.Exited? && outcome.returnCode == 0 && outcome.stdout.Decoded? && outcome.stdout.value.JObj? ==>
      var data := outcome.stdout.value.fields;
      ("usage" !in data ==> r.Ok? && r.value.tokenUsage == None) &&
      ("usage" in data ==> (r.Ok? <==> ExtractUsage(data["usage"]).Ok?) &&
                           (r.Err? ==> r == Err(ExtractUsage(data["usage"]).error)) &&
                           (r.Ok? ==> r.value.tokenUsage == Some(ExtractUsage(data["usage"]).value))) &&
      (r.Ok? ==>
         r.value.rawOutput == Some(data) &&
         r.value.result == GetOr(data, "result", JStr("")) &&
         r.value.sessionId == GetOr(data, "session_id", JStr(OrEmpty(sessionId))))
  {
    match outcome
    case TimedOut => Err(Timeout(cfg.timeout))
    case Exited(code, out, err) =>
      if code != 0 then
        Err(CliFailed("Claude CLI failed: " + (if err != "" then err else "Unknown error")))
      else match out
        case NotJson(text) =>
          Ok(ClaudeResponse(JStr(text), JStr(OrEmpty(sessionId)), None, [], None))
        case Decoded(v) =>
          if !v.JObj? then Err(ReplyNotAnObject)
          else
            var data := v.fields;
            var result := GetOr(data, "result", JStr(""));
            var newSessionId := GetOr(data, "session_id", JStr(OrEmpty(sessionId)));
            if "usage" in data then
              match ExtractUsage(data["usage"])
              case Ok(usage) => Ok(ClaudeResponse(result, newSessionId, Some(usage), [], Some(data)))
              case Err(e) => Err(e)
            else
              Ok(ClaudeResponse(result, newSessionId, None, [], Some(data)))
  }

  /** The reply object a well-behaved CLI prints: a result, optionally a session id, and
      optionally a usage object with the four counters. */
  function ReplyObject(result: string, session: Option<string>, usage: Option<(int, int, int, int)>): Value
  {
    var base := map["result" := JStr(result)];
    var withSession := if session.Some? then base["session_id" := JStr(session.value)] else base;
    if usage.Some? then
      var (i, o, cr, cc) := usage.value;
      JObj(withSession["usage" := JObj(map["input_tokens" := JNum(i), "output_tokens" := JNum(o),
                                           "cache_read_input_tokens" := JNum(cr),
                                           "cache_creation_input_tokens" := JNum(cc)])])
    else JObj(withSession)
  }

  /** Decoding a well-formed reply recovers what the CLI wrote: the result, the reply's
      session id or else the request's (or ""), the four counters with total = input +
      output, no usage when the reply has none, and no tools. */
  lemma ReplyRoundTrip(cfg: Config, sessionId: Option<string>, stderr: string,
                       result: string, session: Option<string>, usage: Option<(int, int, int, int)>)
    ensures var r := DecodeReply(cfg, sessionId, Exited(0, Decoded(ReplyObject(result, session, usage)), stderr));
            r.Ok? &&
            r.value.result == JStr(result) &&
            r.value.sessionId == JStr(if session.Some? then session.value else OrEmpty(sessionId)) &&
            r.value.toolsUsed == [] &&
            (usage.None? ==> r.value.tokenUsage.None?) &&
            (usage.Some? ==>
               var (i, o, cr, cc) := usage.value;
               r.value.tokenUsage == Some(TokenUsage(JNum(i), JNum(o), JNum(i + o), JNum(cr), JNum(cc))))
  {
    var v := ReplyObject(result, session, usage);
    assert v.JObj?;
    assert "result" in v.fields && v.fields["result"] == JStr(result);
    if session.Some? {
      assert "session_id" in v.fields && v.fields["session_id"] == JStr(session.value);
    } else {
      assert "session_id" !in v.fields;
    }
    if usage.Some? {
      assert "usage" in v.fields;
    } else {
      assert "usage" !in v.fields;
    }
  }

  // ---------------------------------------------------------------------------
  // Streaming
  // ---------------------------------------------------------------------------

  /** One line read from the agent's stdout, after `decode().strip()` and `json.loads`. */
  datatype Line = Blank | Unparsed(text: string) | Parsed(value: Value)

  /** How the read loop ended: an empty read (end of output) or a read past the deadline. */
  datatype Ending = EndOfOutput | ReadTimeout

  datatype ChunkType = Text | ToolUse | ToolResult | Error | Done

  /** `StreamChunk`; a `session_id` of `None` is `JNull`. */
  datatype StreamChunk = StreamChunk(kind: ChunkType, content: Value, sessionId: Value)

  /** The chunk kind each event `type` is dispatched to; `init` and unknown types have none. */
  function KindOf(eventType: Value): Option<ChunkType>
  {
    if eventType == JStr("text") then Some(Text)
    else if eventType == JStr("tool_use") then Some(ToolUse)
    else if eventType == JStr("tool_result") then Some(ToolResult)
    else if eventType == JStr("result") then Some(Done)
    else None
  }

  /** The effect of one line: chunks emitted, the session id captured afterwards, and
      whether the line raised (a JSON value that is not an object reaches `data.get`). */
  datatype StepResult = StepResult(emitted: seq<StreamChunk>, captured: Value, raised: bool)

  /** The event type of an object line, `"unknown"` when it has none. */
  function EventType(fields: map<string, Value>): Value
  {
    GetOr(fields, "type", JStr("unknown"))
  }

  /** The loop body of `query_stream` for one line. */
  function Step(line: Line, captured: Value): (s: StepResult)
    ensures |s.emitted| <= 1
    ensures s.raised <==> line.Parsed? && !line.value.JObj?
    ensures s.raised ==> s.emitted == []
    ensures forall c <- s.emitted :: c.kind != Error && c.sessionId == captured
    ensures s.captured != captured ==> line.Parsed? && line.value.JObj? && EventType(line.value.fields) == JStr("init")
    ensures line.Parsed? && line.value.JObj? && EventType(line.value.fields) == JStr("init") ==> s.emitted == []
    ensures line.Parsed? && line.value.JObj? ==>
      (s.emitted != [] <==> KindOf(EventType(line.value.fields)).Some?) &&
      (s.emitted != [] ==> s.emitted[0].kind == KindOf(EventType(line.value.fields)).value)
    ensures line.Blank? ==> s == StepResult([], captured, false)
    ensures line.Unparsed? ==> s.emitted == [StreamChunk(Text, JStr(line.text), captured)]
    ensures line.Parsed? && line.value.JObj? ==>
      var data := line.value.fields;
      var t := EventType(data);
      (t == JStr("init") ==> s.captured == GetOr(data, "session_id", captured)) &&
      (t == JStr("text") ==> s.emitted == [StreamChunk(Text, GetOr(data, "content", JStr("")), captured)]) &&
      (t == JStr("tool_use") ==>
         s.emitted == [StreamChunk(ToolUse, JObj(map["name" := GetOr(data, "name", JNull),
                                                     "input" := GetOr(data, "input", JNull)]), captured)]) &&
      (t == JStr("tool_result") ==> s.emitted == [StreamChunk(ToolResult, GetOr(data, "content", JNull), captured)]) &&
      (t == JStr("result") ==> s.emitted == [StreamChunk(Done, GetOr(data, "result", JStr("")), captured)])
  {
    match line
    case Blank => StepResult([], captured, false)
    case Unparsed(text) => StepResult([StreamChunk(Text, JStr(text), captured)], captured, false)
    case Parsed(v) =>
      if !v.JObj? then StepResult([], captured, true)
      else
        var data := v.fields;
        var msgType := EventType(data);
        if msgType == JStr("init") then
          StepResult([], GetOr(data, "session_id", captured), false)
        else if msgType == JStr("text") then
          StepResult([StreamChunk(Text, GetOr(data, "content", JStr("")), captured)], captured, false)
        else if msgType == JStr("tool_use") then
          var call := map["name" := GetOr(data, "name", JNull), "input" := GetOr(data, "input", JNull)];
          StepResult([StreamChunk(ToolUse, JObj(call), captured)], captured, false)
        else if msgType == JStr("tool_result") then
          StepResult([StreamChunk(ToolResult, GetOr(data, "content", JNull), captured)], captured, false)
        else if msgType == JStr("result") then
          StepResult([StreamChunk(Done, GetOr(data, "result", JStr("")), captured)], captured, false)
        else
          StepResult([], captured, false)
  }

  /** The read loop over `lines`, starting from the captured id `captured`: everything it
      emits, the id captured at its end, and whether a line raised (which ends it). */
  function Run(lines: seq<Line>, captured: Value): StepResult
    decreases |lines|
  {
    if lines == [] then StepResult([], captured, false)
    else
      var s := Step(lines[0], captured);
      if s.raised then s
      else
        var rest := Run(lines[1..], s.captured);
        StepResult(s.emitted + rest.emitted, rest.captured, rest.raised)
  }

  /** What a stream yields: its chunks, and whether it ended by raising instead of finishing. */
  datatype StreamResult = StreamResult(chunks: seq<StreamChunk>, raised: bool)

  /** The error chunk a read timeout yields; it carries no session id. */
  const TimeoutChunk := StreamChunk(Error, JStr("Stream timeout"), JNull)

  /** All of `query_stream` after launch: the read loop, the timeout chunk, and the final
      empty `done` chunk yielded once the loop has ended without raising. */
  function Stream(sessionId: Option<string>, lines: seq<Line>, ending: Ending): StreamResult
  {
    var r := Run(lines, OptionalString(sessionId));
    if r.raised then StreamResult(r.emitted, true)
    else
      StreamResult(r.emitted
                   + (if ending == ReadTimeout then [TimeoutChunk] else [])
                   + [StreamChunk(Done, JStr(""), r.captured)], false)
  }

  /** `Run` from position `i` takes the step of line `i`, then the rest. */
  lemma RunAt(lines: seq<Line>, i: int, captured: Value)
    requires 0 <= i < |lines|
    ensures var s := Step(lines[i], captured);
            Run(lines[i..], captured)
            == if s.raised then s else After(s.emitted, Run(lines[i + 1..], s.captured))
  {
    assert lines[i..][0] == lines[i] && lines[i..][1..] == lines[i + 1..];
  }

  /** `chunks` emitted so far, followed by what `r` emits. */
  function After(chunks: seq<StreamChunk>, r: StepResult): StepResult
  {
    StepResult(chunks + r.emitted, r.captured, r.raised)
  }

  lemma AfterAfter(a: seq<StreamChunk>, b: seq<StreamChunk>, r: StepResult)
    ensures After(a, After(b, r)) == After(a + b, r)
  {
    assert a + (b + r.emitted) == (a + b) + r.emitted;
  }

  /** The dispatch on `type` of one object line: `init` updates the captured id and emits
      nothing, the four known types emit one chunk, any other type emits nothing. */
  method DispatchEvent(data: map<string, Value>, captured: Value)
    returns (emitted: seq<StreamChunk>, newCaptured: Value)
    ensures StepResult(emitted, newCaptured, false) == Step(Parsed(JObj(data)), captured)
  {
    emitted, newCaptured := [], captured;
    var msgType := GetOr(data, "type", JStr("unknown"));
    if msgType == JStr("init") {
      newCaptured := GetOr(data, "session_id", captured);
      return;
    }
    if msgType == JStr("text") {
      emitted := [StreamChunk(Text, GetOr(data, "content", JStr("")), captured)];
    } else if msgType == JStr("tool_use") {
      var call := map["name" := GetOr(data, "name", JNull), "input" := GetOr(data, "input", JNull)];
      emitted := [StreamChunk(ToolUse, JObj(call), captured)];
    } else if msgType == JStr("tool_result") {
      emitted := [StreamChunk(ToolResult, GetOr(data, "content", JNull), captured)];
    } else if msgType == JStr("result") {
      emitted := [StreamChunk(Done, GetOr(data, "result", JStr("")), captured)];
    }
  }

  /** One pass of the loop body: a blank line is skipped, a line that is not JSON is
      emitted as text, a JSON value that is not an object raises, an object is dispatched. */
  method ReadLine(line: Line, captured: Value)
    returns (emitted: seq<StreamChunk>, newCaptured: Value, raised: bool)
    ensures StepResult(emitted, newCaptured, raised) == Step(line, captured)
  {
    emitted, newCaptured, raised := [], captured, false;
    match line {
      case Blank =>
      case Unparsed(text) =>
        emitted := [StreamChunk(Text, JStr(text), captured)];
      case Parsed(v) =>
        if !v.JObj? {
          raised := true;
        } else {
          assert v == JObj(v.fields);
          emitted, newCaptured := DispatchEvent(v.fields, captured);
        }
    }
  }

  /** `query_stream`'s read loop: reads line after line, keeps the captured session id up
      to date, and emits chunks until the output ends, a read times out, or a line raises. */
  method DecodeStream(sessionId: Option<string>, lines: seq<Line>, ending: Ending)
    returns (chunks: seq<StreamChunk>, raised: bool)
    ensures StreamResult(chunks, raised) == Stream(sessionId, lines, ending)
  {
    ghost var whole := Run(lines, OptionalString(sessionId));
    var captured := OptionalString(sessionId);
    chunks := [];
    raised := false;
    var i := 0;
    while i < |lines|
      invariant 0 <= i <= |lines|
      invariant whole == After(chunks, Run(lines[i..], captured))
    {
      RunAt(lines, i, captured);
      var emitted, next, lineRaised := ReadLine(lines[i], captured);
      if lineRaised {
        raised := true;
        return;
      }
      AfterAfter(chunks, emitted, Run(lines[i + 1..], next));
      chunks := chunks + emitted;
      captured := next;
      i := i + 1;
    }
    assert lines[i..] == [];
    if ending == ReadTimeout {
      chunks := chunks + [TimeoutChunk];
    }
    chunks := chunks + [StreamChunk(Done, JStr(""), captured)];
  }

  // ---------------------------------------------------------------------------
  // Properties of the stream
  // ---------------------------------------------------------------------------

  /** A line that makes the read loop raise: valid JSON that is not an object. */
  predicate Raises(line: Line)
  {
    line.Parsed? && !line.value.JObj?
  }

  /** An object line whose `type` is `init`. */
  predicate IsInit(line: Line)
  {
    line.Parsed? && line.value.JObj? && EventType(line.value.fields) == JStr("init")
  }

  /** The number of `error` chunks in a chunk sequence. */
  function ErrorCount(chunks: seq<StreamChunk>): nat
  {
    if chunks == [] then 0
    else (if chunks[0].kind == Error then 1 else 0) + ErrorCount(chunks[1..])
  }

  lemma {:induction false} ErrorCountAppend(a: seq<StreamChunk>, b: seq<StreamChunk>)
    ensures ErrorCount(a + b) == ErrorCount(a) + ErrorCount(b)
  {
    if a != [] {
      assert (a + b)[1..] == a[1..] + b;
      ErrorCountAppend(a[1..], b);
    } else {
      assert a + b == b;
    }
  }

  /** The read loop itself never emits an error chunk, and every chunk it emits has
      the session id captured at the time. */
  lemma {:induction false} RunEmitsNoError(lines: seq<Line>, captured: Value)
    ensures ErrorCount(Run(lines, captured).emitted) == 0
    decreases |lines|
  {
    if lines != [] {
      var s := Step(lines[0], captured);
      if !s.raised {
        RunEmitsNoError(lines[1..], s.captured);
        ErrorCountAppend(s.emitted, Run(lines[1..], s.captured).emitted);
        if s.emitted != [] {
          assert s.emitted[1..] == [];
        }
      }
    }
  }

  /** The loop raises exactly when some line is a JSON value that is not an object. */
  lemma {:induction false} RunRaisesIff(lines: seq<Line>, captured: Value)
    ensures Run(lines, captured).raised <==> exists i :: 0 <= i < |lines| && Raises(lines[i])
    decreases |lines|
  {
    if lines != [] {
      var s := Step(lines[0], captured);
      if !s.raised {
        RunRaisesIff(lines[1..], s.captured);
        if exists i :: 0 <= i < |lines| && Raises(lines[i]) {
          var i :| 0 <= i < |lines| && Raises(lines[i]);
          assert i != 0;
          assert Raises(lines[1..][i - 1]);
        }
        if exists j :: 0 <= j < |lines[1..]| && Raises(lines[1..][j]) {
          var j :| 0 <= j < |lines[1..]| && Raises(lines[1..][j]);
          assert Raises(lines[j + 1]);
        }
      } else {
        assert Raises(lines[0]);
      }
    }
  }

  /** Without `init` lines the captured id never changes, and every chunk carries it. */
  lemma {:induction false} RunKeepsSession(lines: seq<Line>, captured: Value)
    requires forall i :: 0 <= i < |lines| ==> !IsInit(lines[i])
    ensures Run(lines, captured).captured == captured
    ensures forall c <- Run(lines, captured).emitted :: c.sessionId == captured
    decreases |lines|
  {
    if lines != [] {
      var s := Step(lines[0], captured);
      assert !IsInit(lines[0]);
      if !s.raised {
        assert s.captured == captured;
        forall i | 0 <= i < |lines[1..]|
          ensures !IsInit(lines[1..][i])
        {
          assert lines[1..][i] == lines[i + 1];
        }
        RunKeepsSession(lines[1..], captured);
      }
    }
  }

  /** An `init` line sets the session every later chunk carries: after lines `a` that did
      not raise, an `init` line followed by lines `b` without another `init` tags each chunk
      of `b`, and the final captured id, with the init's `session_id`, or with the id
      captured before it when the init has none. */
  lemma InitThreadsSession(a: seq<Line>, init: Line, b: seq<Line>, captured: Value)
    requires IsInit(init) && !Run(a, captured).raised
    requires forall i :: 0 <= i < |b| ==> !IsInit(b[i])
    ensures var ra := Run(a, captured);
            var id := GetOr(init.value.fields, "session_id", ra.captured);
            var r := Run(a + [init] + b, captured);
            |ra.emitted| <= |r.emitted| && r.emitted[..|ra.emitted|] == ra.emitted &&
            (forall c <- r.emitted[|ra.emitted|..] :: c.sessionId == id) &&
            (!r.raised ==> r.captured == id)
  {
    var ra := Run(a, captured);
    var id := GetOr(init.value.fields, "session_id", ra.captured);
    RunAppend(a, [init] + b, captured);
    assert a + [init] + b == a + ([init] + b);
    assert ([init] + b)[0] == init && ([init] + b)[1..] == b;
    assert Run([init] + b, ra.captured) == Run(b, id);
    RunKeepsSession(b, id);
    var r := Run(a + [init] + b, captured);
    assert r.emitted == ra.emitted + Run(b, id).emitted;
    assert r.emitted[|ra.emitted|..] == Run(b, id).emitted;
  }

  /** Reading `a` then `b` is the same as reading `a + b`. */
  lemma {:induction false} RunAppend(a: seq<Line>, b: seq<Line>, captured: Value)
    ensures var ra := Run(a, captured);
            Run(a + b, captured) == if ra.raised then ra else After(ra.emitted, Run(b, ra.captured))
    decreases |a|
  {
    if a == [] {
      assert a + b == b;
    } else {
      var s := Step(a[0], captured);
      assert (a + b)[0] == a[0];
      assert (a + b)[1..] == a[1..] + b;
      if !s.raised {
        RunAppend(a[1..], b, s.captured);
        var ra' := Run(a[1..], s.captured);
        if !ra'.raised {
          AfterAfter(s.emitted, ra'.emitted, Run(b, ra'.captured));
        }
      }
    }
  }

  /** A blank line anywhere in the output changes nothing the stream yields. */
  lemma BlankLineSkipped(sessionId: Option<string>, before: seq<Line>, after: seq<Line>, ending: Ending)
    ensures Stream(sessionId, before + [Blank] + after, ending) == Stream(sessionId, before + after, ending)
  {
    var c := OptionalString(sessionId);
    RunAppend(before + [Blank], after, c);
    RunAppend(before, [Blank], c);
    RunAppend(before, after, c);
    var rb := Run(before, c);
    if !rb.raised {
      assert Run([Blank], rb.captured) == StepResult([], rb.captured, false);
      assert rb.emitted + [] == rb.emitted;
    }
  }

  /** A stream that does not raise ends with exactly one empty `done` chunk carrying the
      captured session id, preceded by the timeout error chunk exactly when a read timed
      out; there is no other error chunk. A stream that raises yields no error chunk. */
  lemma StreamEnding(sessionId: Option<string>, lines: seq<Line>, ending: Ending)
    ensures var r := Stream(sessionId, lines, ending);
            var run := Run(lines, OptionalString(sessionId));
            (r.raised <==> exists i :: 0 <= i < |lines| && Raises(lines[i])) &&
            (!r.raised ==>
               |r.chunks| >= 1 &&
               r.chunks[|r.chunks| - 1] == StreamChunk(Done, JStr(""), run.captured) &&
               (ending == ReadTimeout ==> |r.chunks| >= 2 && r.chunks[|r.chunks| - 2] == TimeoutChunk)) &&
            ErrorCount(r.chunks) == (if !r.raised && ending == ReadTimeout then 1 else 0)
  {
    var c := OptionalString(sessionId);
    var run := Run(lines, c);
    RunRaisesIff(lines, c);
    RunEmitsNoError(lines, c);
    if !run.raised {
      var tail := if ending == ReadTimeout then [TimeoutChunk] else [];
      var done := [StreamChunk(Done, JStr(""), run.captured)];
      ErrorCountAppend(run.emitted + tail, done);
      ErrorCountAppend(run.emitted, tail);
      assert ErrorCount(done) == 0 by { assert done[1..] == []; }
      if ending == ReadTimeout {
        assert ErrorCount(tail) == 1 by { assert tail[1..] == []; }
      }
    }
  }

  /** A stream without `init` lines tags every chunk it emits with the request's own
      session id (or `None`), including the final `done`. */
  lemma StreamWithoutInit(sessionId: Option<string>, lines: seq<Line>, ending: Ending)
    requires forall i :: 0 <= i < |lines| ==> !IsInit(lines[i])
    ensures forall c <- Stream(sessionId, lines, ending).chunks ::
              c.kind != Error ==> c.sessionId == OptionalString(sessionId)
  {
    RunKeepsSession(lines, OptionalString(sessionId));
  }

  /** An `init` line, a text line and a result line: text and a substantive `done`,
      both tagged with the captured id, then the final empty `done`. */
  lemma ExampleStream()
    ensures var lines := [Parsed(JObj(map["type" := JStr("init"), "session_id" := JStr("s1")])),
                          Parsed(JObj(map["type" := JStr("text"), "content" := JStr("a")])),
                          Parsed(JObj(map["type" := JStr("result"), "result" := JStr("a")]))];
            Stream(None, lines, EndOfOutput)
            == StreamResult([StreamChunk(Text, JStr("a"), JStr("s1")),
                             StreamChunk(Done, JStr("a"), JStr("s1")),
                             StreamChunk(Done, JStr(""), JStr("s1"))], false)
  {
    var init := Parsed(JObj(map["type" := JStr("init"), "session_id" := JStr("s1")]));
    var text := Parsed(JObj(map["type" := JStr("text"), "content" := JStr("a")]));
    var result := Parsed(JObj(map["type" := JStr("result"), "result" := JStr("a")]));
    var lines := [init, text, result];
    var s1 := JStr("s1");
    assert Step(init, JNull) == StepResult([], s1, false);
    assert Step(text, s1) == StepResult([StreamChunk(Text, JStr("a"), s1)], s1, false);
    assert Step(result, s1) == StepResult([StreamChunk(Done, JStr("a"), s1)], s1, false);
    assert Run([result], s1) == StepResult([StreamChunk(Done, JStr("a"), s1)], s1, false) by {
      assert [result][1..] == [];
    }
    assert lines[1..] == [text, result] && lines[1..][1..] == [result];
  }
}
