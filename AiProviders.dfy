/** The provider layer: parsing of the model's reply into task records, the
    factory that picks a provider by name, the providers' key checks and the
    error mapping of the OpenAI provider. Network calls are outcomes given as
    parameters; `json.loads` and the fence-extracting regex are parameters too. */
module AiProviders {
  import opened Outcomes
  import opened Text
  import opened Json
  import opened Errors
  import opened Config

  const NotExpectedFormat := "AI response is not in the expected format."
  const TextReason := "Parsed from text"
  const ListReason := "N/A"
  /** `tasks[:10]`: the text parser keeps at most this many tasks. */
  const MaxTextTasks := 10
  /** A kept line must be longer than this. */
  const MinMessLength := 10
  /** The characters `line.lstrip(...)` removes: bullet, dash, star, brackets, quote. */
  const LeftTrim: set<char> := {'\U{2022}', '-', '*', '[', ']', '"'}
  /** The characters `line.rstrip(...)` removes. */
  const RightTrim: set<char> := {'"', ','}

  /** The record `{"mess": mess, "reason": reason}`. */
  function Task(mess: string, reason: string): Json {
    JObject([("mess", JString(mess)), ("reason", JString(reason))])
  }

  // ---------------------------------------------------------------------------
  // _parse_text_response

  /** A stripped line the text parser skips outright. */
  predicate Skipped(line: string) {
    line == [] || StartsWith(line, '#') || StartsWith(line, '{') || line == "```" || line == "```json" || line == "tasks:"
  }

  /** The trimming applied to a line that is not skipped: leading bullets, then
      trailing quotes and commas, then whitespace. */
  function Clean(line: string): string {
    Strip(RStrip(LStrip(line, LeftTrim), RightTrim))
  }

  /** The task text one raw line contributes, if any: the cleaned line, kept only
      when longer than ten characters. */
  function LineTask(raw: string): (r: Option<string>)
    ensures r.Some? ==> |r.value| > MinMessLength
    ensures Skipped(Strip(raw)) ==> r == None
  {
    var line := Strip(raw);
    if Skipped(line) then None
    else
      var c := Clean(line);
      if |c| > MinMessLength then Some(c) else None
  }

  /** How many characters `strip()` removes from the front of `s`. */
  function StripStart(s: string): nat {
    |s| - |LStrip(s, Whitespace)|
  }

  /** Where `Clean(line)` starts within `line`. */
  function CleanStart(line: string): nat {
    var rs := RStrip(LStrip(line, LeftTrim), RightTrim);
    (|line| - |LStrip(line, LeftTrim)|) + StripStart(rs)
  }

  /** The cleaned line is a contiguous piece of the line. */
  lemma CleanIsSlice(line: string)
    ensures var c := Clean(line); var a := CleanStart(line);
            a + |c| <= |line| && c == line[a..a + |c|]
  {
    var l := LStrip(line, LeftTrim);
    var rs := RStrip(l, RightTrim);
    var c := Strip(rs);
    var k2 := |line| - |l|;
    var k := StripStart(rs);
    assert k + |c| <= |rs| && c == rs[k..k + |c|] by {
      StripCharsIsSlice(rs, Whitespace);
    }
    assert rs == l[0..|rs|] by {
      RStripIsPrefix(l, RightTrim);
    }
    assert k2 + |l| <= |line| && l == line[k2..k2 + |l|] by {
      LStripIsSuffix(line, LeftTrim);
    }
    SubSlice(rs, l, 0, c, k);
    SubSlice(l, line, k2, c, k);
  }

  /** A kept task is one contiguous piece of its own line, starting where the
      whitespace and bullets in front of it end, with no whitespace at either end. */
  lemma LineTaskIsPieceOfLine(raw: string)
    ensures LineTask(raw).Some? ==>
      var m := LineTask(raw).value; var a := StripStart(raw) + CleanStart(Strip(raw));
      a + |m| <= |raw| && m == raw[a..a + |m|] &&
      m[0] !in Whitespace && m[|m| - 1] !in Whitespace
  {
    if LineTask(raw).Some? {
      var line := Strip(raw);
      var m := Clean(line);
      assert LineTask(raw).value == m;
      var a1 := StripStart(raw);
      var a2 := CleanStart(line);
      assert a1 + |line| <= |raw| && line == raw[a1..a1 + |line|] by {
        StripCharsIsSlice(raw, Whitespace);
      }
      assert a2 + |m| <= |line| && m == line[a2..a2 + |m|] by {
        CleanIsSlice(line);
      }
      SubSlice(line, raw, a1, m, a2);
    }
  }

  /** A slice of a slice is a slice. */
  lemma SubSlice(x: string, s: string, a: nat, m: string, b: nat)
    requires a + |x| <= |s| && x == s[a..a + |x|]
    requires b + |m| <= |x| && m == x[b..b + |m|]
    ensures a + b + |m| <= |s| && m == s[a + b..a + b + |m|]
  {
    forall i | 0 <= i < |m|
      ensures m[i] == s[a + b + i]
    {
      assert m[i] == x[b + i];
    }
  }

  /** The per-line outcome of the filters, line by line. */
  function LineTasks(lines: seq<string>): (r: seq<Option<string>>)
    ensures |r| == |lines|
    ensures forall i :: 0 <= i < |lines| ==> r[i] == LineTask(lines[i])
  {
    seq(|lines|, i requires 0 <= i < |lines| => LineTask(lines[i]))
  }

  /** The task records of the outcomes that yield one, in order. */
  function Kept(outcomes: seq<Option<string>>): seq<Json> {
    if outcomes == [] then []
    else
      Kept(outcomes[..|outcomes| - 1])
        + (match outcomes[|outcomes| - 1] case Some(m) => [Task(m, TextReason)] case None => [])
  }

  /** The tasks of the lines, cut to the first ten. */
  function ParseLines(lines: seq<string>): (r: seq<Json>)
    ensures |r| <= MaxTextTasks
  {
    var all := Kept(LineTasks(lines));
    if |all| <= MaxTextTasks then all else all[..MaxTextTasks]
  }

  /** What `_parse_text_response(text)` returns. */
  function ParseText(text: string): (r: seq<Json>)
    ensures |r| <= MaxTextTasks
  {
    ParseLines(Split(text, '\n'))
  }

  /** `_parse_text_response`: walks the lines of `text`, skips blank, comment,
      brace and fence lines, trims the rest and keeps those longer than ten
      characters, then returns at most the first ten. */
  method ParseTextResponse(text: string) returns (tasks: seq<Json>)
    ensures tasks == ParseText(text)
  {
    var lines := Split(text, '\n');
    ghost var outcomes := LineTasks(lines);
    var kept: seq<Json> := [];
    var i := 0;
    while i < |lines|
      invariant 0 <= i <= |lines|
      invariant kept == Kept(outcomes[..i])
    {
      KeptNext(outcomes, i);
      assert outcomes[i] == LineTask(lines[i]);
      var line := Strip(lines[i]);
      if !(line == [] || StartsWith(line, '#') || StartsWith(line, '{') || line == "```" || line == "```json" || line == "tasks:") {
        line := Strip(RStrip(LStrip(line, LeftTrim), RightTrim));
        if line != [] && |line| > MinMessLength {
          assert outcomes[i] == Some(line);
          kept := kept + [Task(line, TextReason)];
        } else {
          assert outcomes[i] == None;
        }
      } else {
        assert outcomes[i] == None;
      }
      i := i + 1;
    }
    assert outcomes[..i] == outcomes;
    if kept == [] {
      return [];
    }
    tasks := if |kept| <= MaxTextTasks then kept else kept[..MaxTextTasks];
  }

  /** One more outcome adds its task, if it yields one, at the end. */
  lemma KeptNext(outcomes: seq<Option<string>>, i: nat)
    requires i < |outcomes|
    ensures Kept(outcomes[..i + 1])
            == Kept(outcomes[..i]) + (if outcomes[i].Some? then [Task(outcomes[i].value, TextReason)] else [])
  {
    assert outcomes[..i + 1][..i] == outcomes[..i];
  }

  /** The positions of the outcomes that yield a task, in increasing order. */
  ghost function Origins(outcomes: seq<Option<string>>): (r: seq<nat>)
    ensures forall k :: 0 <= k < |r| ==> r[k] < |outcomes|
  {
    if outcomes == [] then []
    else
      var n := |outcomes| - 1;
      Origins(outcomes[..n]) + (if outcomes[n].Some? then [n] else [])
  }

  /** Task k comes from the outcome at `Origins(outcomes)[k]`. */
  lemma {:induction false} KeptFromOrigins(outcomes: seq<Option<string>>)
    ensures |Origins(outcomes)| == |Kept(outcomes)|
    ensures forall k :: 0 <= k < |Origins(outcomes)| ==>
              outcomes[Origins(outcomes)[k]].Some? &&
              Kept(outcomes)[k] == Task(outcomes[Origins(outcomes)[k]].value, TextReason)
  {
    if outcomes != [] {
      var n := |outcomes| - 1;
      var init := outcomes[..n];
      KeptFromOrigins(init);
      var o := Origins(init);
      forall k | 0 <= k < |o|
        ensures outcomes[o[k]] == init[o[k]]
      {
      }
    }
  }

  /** The origins increase: tasks keep the order of their lines. */
  lemma {:induction false} OriginsIncrease(outcomes: seq<Option<string>>)
    ensures forall k1, k2 :: 0 <= k1 < k2 < |Origins(outcomes)| ==> Origins(outcomes)[k1] < Origins(outcomes)[k2]
  {
    if outcomes != [] {
      OriginsIncrease(outcomes[..|outcomes| - 1]);
    }
  }

  /** Every outcome that yields a task is among the origins. */
  lemma {:induction false} OriginsComplete(outcomes: seq<Option<string>>)
    ensures forall j :: 0 <= j < |outcomes| && outcomes[j].Some? ==> j in Origins(outcomes)
  {
    if outcomes != [] {
      var n := |outcomes| - 1;
      var init := outcomes[..n];
      OriginsComplete(init);
      forall j | 0 <= j < n && outcomes[j].Some?
        ensures j in Origins(outcomes)
      {
        assert init[j] == outcomes[j];
      }
    }
  }

  /** Nothing is kept exactly when no outcome yields a task. */
  lemma {:induction false} KeptEmpty(outcomes: seq<Option<string>>)
    ensures Kept(outcomes) == [] <==> forall j :: 0 <= j < |outcomes| ==> outcomes[j].None?
  {
    if outcomes != [] {
      var n := |outcomes| - 1;
      var init := outcomes[..n];
      KeptEmpty(init);
      if Kept(outcomes) == [] {
        assert Kept(init) == [];
        forall j | 0 <= j < |outcomes|
          ensures outcomes[j].None?
        {
          if j < n {
            assert outcomes[j] == init[j];
          }
        }
      }
    }
  }

  /** The parser returns one task per contributing line, up to ten. */
  lemma ParseLinesLength(lines: seq<string>)
    ensures var o := Origins(LineTasks(lines));
            |ParseLines(lines)| == if |o| <= MaxTextTasks then |o| else MaxTextTasks
  {
    KeptFromOrigins(LineTasks(lines));
  }

  /** Task k is the cleaned text of line `Origins(...)[k]`, with reason "Parsed from text". */
  lemma ParseLinesFromOrigins(lines: seq<string>)
    ensures var o := Origins(LineTasks(lines)); var r := ParseLines(lines);
      forall k :: 0 <= k < |r| ==>
        k < |o| && o[k] < |lines| && LineTask(lines[o[k]]).Some? &&
        r[k] == Task(LineTask(lines[o[k]]).value, TextReason)
  {
    var outcomes := LineTasks(lines);
    var o := Origins(outcomes);
    var all := Kept(outcomes);
    var r := ParseLines(lines);
    KeptFromOrigins(outcomes);
    forall k | 0 <= k < |r|
      ensures k < |o| && o[k] < |lines| && LineTask(lines[o[k]]).Some? &&
              r[k] == Task(LineTask(lines[o[k]]).value, TextReason)
    {
      assert r[k] == all[k];
      assert outcomes[o[k]] == LineTask(lines[o[k]]);
    }
  }

  /** Every line that yields a task is an origin: the first ten contributing lines
      are the ones returned. */
  lemma ParseLinesComplete(lines: seq<string>)
    ensures var o := Origins(LineTasks(lines));
      forall j :: 0 <= j < |lines| && LineTask(lines[j]).Some? ==> j in o
  {
    var outcomes := LineTasks(lines);
    OriginsComplete(outcomes);
    forall j | 0 <= j < |lines| && LineTask(lines[j]).Some?
      ensures j in Origins(outcomes)
    {
      assert outcomes[j] == LineTask(lines[j]);
    }
  }

  /** If no line survives the filters, the parser returns []. */
  lemma ParseLinesNone(lines: seq<string>)
    requires forall j :: 0 <= j < |lines| ==> LineTask(lines[j]).None?
    ensures ParseLines(lines) == []
  {
    var outcomes := LineTasks(lines);
    forall j | 0 <= j < |outcomes|
      ensures outcomes[j].None?
    {
      assert LineTask(lines[j]).None?;
    }
    KeptEmpty(outcomes);
  }

  /** If some line survives the filters, the parser returns at least one task. */
  lemma ParseLinesSome(lines: seq<string>, j: nat)
    requires j < |lines| && LineTask(lines[j]).Some?
    ensures ParseLines(lines) != []
  {
    var outcomes := LineTasks(lines);
    assert outcomes[j].Some?;
    KeptEmpty(outcomes);
  }

  /** A short bulleted line such as "    - task 1" yields no task: eight characters
      remain once the indentation is stripped, and trimming never lengthens a line. */
  lemma ShortBulletLineDropped()
    ensures LineTask("    - task 1") == None
  {
    var raw := "    - task 1";
    assert LStrip(raw, Whitespace) == LStrip(raw[4..], Whitespace) by {
      assert raw[0] in Whitespace && raw[1..][0] in Whitespace;
      assert raw[1..][1..] == raw[2..] && raw[2..][0] in Whitespace;
      assert raw[2..][1..] == raw[3..] && raw[3..][0] in Whitespace;
      assert raw[3..][1..] == raw[4..];
    }
    assert |Strip(raw)| <= 8;
  }

  // ---------------------------------------------------------------------------
  // _parse_ai_response

  /** The text after fence extraction: the regex's captured group when it matches. */
  function FenceContent(text: string, fence: string -> Option<string>): string {
    match fence(text) case Some(inner) => inner case None => text
  }

  /** A decoded value whose "tasks" member is a list. */
  predicate IsTasksObject(data: Json) {
    data.JObject? && match Lookup(data.members, "tasks") case Some(t) => t.JArray? case None => false
  }

  /** `_parse_ai_response`: a tasks object yields its list unchanged, a bare list
      yields one `{"mess": str(item), "reason": "N/A"}` per element, undecodable
      text falls back to the text parser, and any other decoded value is an AIError. */
  function ParseAiResponse(text: string, fence: string -> Option<string>, loads: string -> Option<Json>)
    : (r: Result<seq<Json>, Error>)
    ensures var content := FenceContent(text, fence); var decoded := loads(Strip(content));
      && (decoded.None? ==> r == Ok(ParseText(content)))
      && (decoded.Some? && IsTasksObject(decoded.value) ==>
            r == Ok(Lookup(decoded.value.members, "tasks").value.items))
      && (decoded.Some? && decoded.value.JArray? ==>
            r.Ok? && |r.value| == |decoded.value.items| &&
            forall i :: 0 <= i < |r.value| ==> r.value[i] == Task(Str(decoded.value.items[i]), ListReason))
      && (r.Err? <==> decoded.Some? && !IsTasksObject(decoded.value) && !decoded.value.JArray?)
    ensures r.Err? ==> r.error == AIError(NotExpectedFormat)
  {
    var content := FenceContent(text, fence);
    match loads(Strip(content))
    case None => Ok(ParseText(content))
    case Some(data) =>
      if IsTasksObject(data) then Ok(Lookup(data.members, "tasks").value.items)
      else if data.JArray? then
        Ok(seq(|data.items|, i requires 0 <= i < |data.items| => Task(Str(data.items[i]), ListReason)))
      else Err(AIError(NotExpectedFormat))
  }

  // ---------------------------------------------------------------------------
  // Provider construction and selection

  datatype ProviderKind = OpenAI | GoogleGemini

  /** A constructed provider and the key it was built with. */
  datatype Provider = Provider(kind: ProviderKind, apiKey: string, model: string)

  /** Which vendor SDKs imported successfully. */
  datatype Libraries = Libraries(openaiInstalled: bool, googleInstalled: bool)

  /** `OpenAIProvider(settings)`. */
  function NewOpenAIProvider(settings: Settings, libs: Libraries): (r: Result<Provider, Error>)
    ensures r.Ok? <==> libs.openaiInstalled && IsSet(settings.aiApiKey)
    ensures r.Ok? ==> r.value == Provider(OpenAI, settings.aiApiKey.value, settings.aiModel)
    ensures libs.openaiInstalled && !IsSet(settings.aiApiKey) ==>
              r == Err(ConfigError("OpenAI API key is not configured."))
  {
    if !libs.openaiInstalled then Err(ConfigError("OpenAI library not installed. Please run: pip install openai"))
    else if !IsSet(settings.aiApiKey) then Err(ConfigError("OpenAI API key is not configured."))
    else Ok(Provider(OpenAI, settings.aiApiKey.value, settings.aiModel))
  }

  /** `GoogleGeminiProvider(settings)`. */
  function NewGoogleGeminiProvider(settings: Settings, libs: Libraries): (r: Result<Provider, Error>)
    ensures r.Ok? <==> libs.googleInstalled && IsSet(settings.aiApiKey)
    ensures r.Ok? ==> r.value == Provider(GoogleGemini, settings.aiApiKey.value, settings.aiModel)
    ensures libs.googleInstalled && !IsSet(settings.aiApiKey) ==>
              r == Err(ConfigError("Google API key is not configured."))
  {
    if !libs.googleInstalled then
      Err(ConfigError("Google AI libraries not installed. Please run: pip install google-generativeai"))
    else if !IsSet(settings.aiApiKey) then Err(ConfigError("Google API key is not configured."))
    else Ok(Provider(GoogleGemini, settings.aiApiKey.value, settings.aiModel))
  }

  /** `get_ai_provider(provider_name, settings)`. */
  function GetAiProvider(providerName: string, settings: Settings, libs: Libraries): Result<Provider, Error> {
    var name := Lower(providerName);
    if name == "openai" then NewOpenAIProvider(settings, libs)
    else if name == "google" then NewGoogleGeminiProvider(settings, libs)
    else Err(ConfigError("Unknown or unsupported AI provider: " + name))
  }

  /** The factory dispatches on the lower-cased name: "openai" and "google" build
      their provider, any other name is a ConfigError; it fails with ConfigError
      whenever no AI key is configured; and the name's letter case never matters. */
  lemma GetAiProviderDispatch(providerName: string, settings: Settings, libs: Libraries)
    ensures var r := GetAiProvider(providerName, settings, libs); var name := Lower(providerName);
      && (name == "openai" ==> r == NewOpenAIProvider(settings, libs))
      && (name == "google" ==> r == NewGoogleGeminiProvider(settings, libs))
      && (r.Ok? ==> (r.value.kind == OpenAI <==> name == "openai"))
      && (r.Ok? ==> (r.value.kind == GoogleGemini <==> name == "google"))
      && (name != "openai" && name != "google" ==> r.Err? && r.error.ConfigError?)
      && (!IsSet(settings.aiApiKey) ==> r.Err? && r.error.ConfigError?)
      && r == GetAiProvider(Lower(providerName), settings, libs)
  {
    LowerIdempotent(providerName);
  }

  // ---------------------------------------------------------------------------
  // OpenAIProvider.analyze_image

  const OpenAIFailure := "Failed to analyze image with OpenAI."

  /** How the chat-completion request ended: a reply (whose text may be missing
      or empty), an `openai.APIStatusError`, or any other exception. */
  datatype CompletionOutcome =
    | Replied(content: Option<string>)
    | StatusError(statusCode: int, message: string)
    | Raised(message: string)

  /** `OpenAIProvider.analyze_image` given the request's outcome. It only ever
      fails with InvalidAPIKeyError (exactly for HTTP 401) or AIProviderError; an
      empty reply and a reply in the wrong shape both become the generic failure;
      a usable reply yields the parser's tasks. */
  function OpenAIAnalyzeImage(call: CompletionOutcome, fence: string -> Option<string>, loads: string -> Option<Json>)
    : (r: Result<seq<Json>, Error>)
    ensures r.Err? ==> r.error.InvalidAPIKeyError? || r.error.AIProviderError?
    ensures r.Err? && r.error.InvalidAPIKeyError? <==> call.StatusError? && call.statusCode == 401
    ensures call.StatusError? && call.statusCode != 401 ==> r.Err? && r.error.AIProviderError?
    ensures call.Raised? ==> r == Err(AIProviderError(OpenAIFailure))
    ensures call.Replied? && (call.content.None? || call.content.value == "") ==>
              r == Err(AIProviderError(OpenAIFailure))
    ensures call.Replied? && call.content.Some? && call.content.value != "" ==>
              match ParseAiResponse(call.content.value, fence, loads)
              case Ok(tasks) => r == Ok(tasks)
              case Err(_) => r == Err(AIProviderError(OpenAIFailure))
  {
    match call
    case StatusError(code, message) =>
      if code == 401 then Err(InvalidAPIKeyError("OpenAI API key is invalid."))
      else Err(AIProviderError("OpenAI API error: " + message))
    case Raised(_) => Err(AIProviderError(OpenAIFailure))
    case Replied(content) =>
      if content.None? || content.value == "" then
        // APIResponseError("OpenAI returned an empty response.") is raised inside the try
        Err(AIProviderError(OpenAIFailure))
      else
        match ParseAiResponse(content.value, fence, loads)
        case Ok(tasks) => Ok(tasks)
        case Err(_) => Err(AIProviderError(OpenAIFailure))
  }
}
