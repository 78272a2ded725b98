/**
 * The render pipeline of `run` (main.go:70-126). After validation it decodes
 * the JSON (from the literal, or from the whole contents of the JSON file),
 * builds a template named "templateData" with `missingkey=error`, parses the
 * template text (literal or whole file), executes it into an in-memory
 * builder and prints the builder plus a newline only when execution succeeded.
 * Every failing stage returns its error at once and nothing after it runs.
 */
module Render {
  import opened Wrappers
  import opened Resolver
  import opened Library

  /** The name given to `template.New` (main.go:95). */
  const TemplateName := "templateData"

  /** Which of the two inputs a file operation is for. */
  datatype Input = JsonInput | TemplateInput

  /** The collaborator calls of one run, in the order they were made. */
  datatype Call =
    | Open(input: Input, path: string)
    | ReadAll(input: Input, path: string)
    | Decode(text: string)
    | Parse(name: string, text: string)
    | Execute(missingKey: MissingKey)

  /**
   * What `run` returns. The code passes collaborator errors up unchanged, so
   * apart from a failed check an error is just the collaborator's message; the
   * constructor records which stage it came from.
   */
  datatype Error =
    | Config(reason: ConfigError)
    | OpenFailed(input: Input, path: string, msg: string)
    | ReadFailed(input: Input, path: string, msg: string)
    | DecodeFailed(msg: string)
    | ParseFailed(msg: string)
    | ExecFailed(msg: string)

  /** The error's text as `%v` prints it. */
  function Message(e: Error): string {
    if e.Config? then ErrorText(e.reason) else e.msg
  }

  /** Everything a run does that can be observed: its calls, its standard output, its error. */
  datatype Outcome = Outcome(calls: seq<Call>, stdout: string, err: Option<Error>)

  /** The position of each call in the fixed order of stages. */
  function Rank(c: Call): nat {
    match c
    case Open(i, _) => if i == JsonInput then 0 else 3
    case ReadAll(i, _) => if i == JsonInput then 1 else 4
    case Decode(_) => 2
    case Parse(_, _) => 5
    case Execute(_) => 6
  }

  /** The stage at which an error after validation arises. */
  function ErrorRank(e: Error): nat
    requires !e.Config?
  {
    match e
    case OpenFailed(i, _, _) => if i == JsonInput then 0 else 3
    case ReadFailed(i, _, _) => if i == JsonInput then 1 else 4
    case DecodeFailed(_) => 2
    case ParseFailed(_) => 5
    case ExecFailed(_) => 6
  }

  /** The last call of a non-empty trace. */
  function Last(calls: seq<Call>): Call
    requires calls != []
  {
    calls[|calls| - 1]
  }

  /** Each call's stage comes strictly after the previous call's. */
  predicate Ordered(calls: seq<Call>) {
    forall i :: 0 <= i < |calls| - 1 ==> Rank(calls[i]) < Rank(calls[i + 1])
  }

  /** Two ordered traces, the second starting at a later stage than the first ends, form an ordered trace. */
  lemma OrderedConcat(a: seq<Call>, b: seq<Call>)
    requires Ordered(a) && Ordered(b)
    requires a != [] && b != [] ==> Rank(Last(a)) < Rank(b[0])
    ensures Ordered(a + b)
  {
  }

  /** In an ordered trace any earlier call is at a strictly earlier stage, so no stage occurs twice. */
  lemma {:induction false} OrderedStrictly(calls: seq<Call>, i: nat, j: nat)
    requires Ordered(calls)
    requires i < j < |calls|
    ensures Rank(calls[i]) < Rank(calls[j])
    decreases j - i
  {
    if i + 1 < j {
      OrderedStrictly(calls, i, j - 1);
      assert Rank(calls[j - 1]) < Rank(calls[j]);
    }
  }

  /** The pairwise form of `Ordered`. */
  lemma OrderedPairwise(calls: seq<Call>)
    requires Ordered(calls)
    ensures forall i, j :: 0 <= i < j < |calls| ==> Rank(calls[i]) < Rank(calls[j])
  {
    forall i, j | 0 <= i < j < |calls|
      ensures Rank(calls[i]) < Rank(calls[j])
    {
      OrderedStrictly(calls, i, j);
    }
  }

  /** No call of an ordered trace is at a later stage than its last one. */
  lemma OrderedBelowLast(calls: seq<Call>)
    requires Ordered(calls) && calls != []
    ensures forall c :: c in calls ==> Rank(c) <= Rank(Last(calls))
  {
    forall c | c in calls
      ensures Rank(c) <= Rank(Last(calls))
    {
      var k :| 0 <= k < |calls| && calls[k] == c;
      if k < |calls| - 1 {
        OrderedStrictly(calls, k, |calls| - 1);
      }
    }
  }

  /** The text a source stands for: the literal itself, or the whole file when it can be read. */
  function SourceText<F, D, T>(env: Env<F, D, T>, src: Source): Option<string> {
    match src
    case Literal(t) => Some(t)
    case File(p) => FileText(env, p)
  }

  /** The calls made so far, and the value obtained or the error that stopped the run. */
  datatype Loaded<X> = Loaded(calls: seq<Call>, result: Result<X, Error>)

  /** The whole contents of the file at `path`, when it can be opened and read. */
  function FileText<F, D, T>(env: Env<F, D, T>, path: string): Option<string> {
    match env.open(path)
    case Err(_) => None
    case Ok(h) => match env.readAll(h) case Err(_) => None case Ok(c) => Some(c)
  }

  /**
   * The text of one input: a literal is used as it is and touches no file; a
   * path is opened and read whole (main.go:72-87, 97-112).
   */
  function LoadText<F, D, T>(env: Env<F, D, T>, input: Input, src: Source): (l: Loaded<string>)
    ensures src.Literal? ==> l == Loaded([], Ok(src.text))
    ensures src.File? ==> 1 <= |l.calls| <= 2 && l.calls[0] == Open(input, src.path)
    ensures src.File? && |l.calls| == 2 ==> l.calls[1] == ReadAll(input, src.path)
    ensures src.File? && l.result.Ok? ==> |l.calls| == 2
    // the text is obtained exactly when the source stands for one, and it is that text
    ensures l.result.Ok? <==> SourceText(env, src).Some?
    ensures l.result.Ok? ==> l.result.value == SourceText(env, src).value
    // a failed open stops before the read and returns the open's own error
    ensures src.File? && env.open(src.path).Err? ==>
      l == Loaded([Open(input, src.path)], Err(OpenFailed(input, src.path, env.open(src.path).error)))
    // a failed read returns the read's own error
    ensures src.File? && env.open(src.path).Ok? && env.readAll(env.open(src.path).value).Err? ==>
      l.result == Err(ReadFailed(input, src.path, env.readAll(env.open(src.path).value).error))
    ensures l.result.Err? ==>
      && l.calls != []
      && (l.result.error.OpenFailed? || l.result.error.ReadFailed?)
      && l.result.error.input == input
      && ErrorRank(l.result.error) == Rank(Last(l.calls))
  {
    match src
    case Literal(t) => Loaded([], Ok(t))
    case File(p) =>
      match env.open(p)
      case Err(m) => Loaded([Open(input, p)], Err(OpenFailed(input, p, m)))
      case Ok(h) =>
        match env.readAll(h)
        case Err(m) => Loaded([Open(input, p), ReadAll(input, p)], Err(ReadFailed(input, p, m)))
        case Ok(c) => Loaded([Open(input, p), ReadAll(input, p)], Ok(c))
  }

  /** The decoded JSON value: its text, then `json.Unmarshal` (main.go:72-93). */
  function LoadData<F, D, T>(env: Env<F, D, T>, js: Source): (l: Loaded<D>)
    ensures l.calls != [] && Ordered(l.calls) && Rank(Last(l.calls)) <= 2
    ensures l.calls[0] == if js.Literal? then Decode(js.text) else Open(JsonInput, js.path)
    ensures l.result.Err? ==> !l.result.error.Config? && ErrorRank(l.result.error) == Rank(Last(l.calls))
    // without a text the stage stops with the text's error; with one, that text is decoded
    ensures SourceText(env, js).None? ==>
      l.calls == LoadText(env, JsonInput, js).calls && l.result == Err(LoadText(env, JsonInput, js).result.error)
    ensures SourceText(env, js).Some? ==>
      l.calls == LoadText(env, JsonInput, js).calls + [Decode(SourceText(env, js).value)]
    // the value is the decoder's result for the source's text, and its error is passed up unchanged
    ensures l.result.Ok? <==> SourceText(env, js).Some? && env.decode(SourceText(env, js).value).Ok?
    ensures l.result.Ok? ==> l.result.value == env.decode(SourceText(env, js).value).value
    ensures SourceText(env, js).Some? && env.decode(SourceText(env, js).value).Err? ==>
      l.result == Err(DecodeFailed(env.decode(SourceText(env, js).value).error))
  {
    var j := LoadText(env, JsonInput, js);
    if j.result.Err? then Loaded(j.calls, Err(j.result.error)) else
    var d := env.decode(j.result.value);
    OrderedConcat(j.calls, [Decode(j.result.value)]);
    Loaded(j.calls + [Decode(j.result.value)], if d.Err? then Err(DecodeFailed(d.error)) else Ok(d.value))
  }

  /** The parsed template tree: its text, then `Parse` under the name "templateData" (main.go:95-118). */
  function LoadTree<F, D, T>(env: Env<F, D, T>, ts: Source): (l: Loaded<T>)
    ensures l.calls != [] && Ordered(l.calls) && 3 <= Rank(l.calls[0]) && Rank(Last(l.calls)) <= 5
    ensures l.result.Err? ==> !l.result.error.Config? && ErrorRank(l.result.error) == Rank(Last(l.calls))
    // without a text the stage stops with the text's error; with one, that text is parsed under "templateData"
    ensures SourceText(env, ts).None? ==>
      l.calls == LoadText(env, TemplateInput, ts).calls && l.result == Err(LoadText(env, TemplateInput, ts).result.error)
    ensures SourceText(env, ts).Some? ==>
      l.calls == LoadText(env, TemplateInput, ts).calls + [Parse(TemplateName, SourceText(env, ts).value)]
    // the tree is the parser's result for that name and text, and its error is passed up unchanged
    ensures l.result.Ok? <==> SourceText(env, ts).Some? && env.parse(TemplateName, SourceText(env, ts).value).Ok?
    ensures l.result.Ok? ==> l.result.value == env.parse(TemplateName, SourceText(env, ts).value).value
    ensures SourceText(env, ts).Some? && env.parse(TemplateName, SourceText(env, ts).value).Err? ==>
      l.result == Err(ParseFailed(env.parse(TemplateName, SourceText(env, ts).value).error))
  {
    var t := LoadText(env, TemplateInput, ts);
    if t.result.Err? then Loaded(t.calls, Err(t.result.error)) else
    var p := env.parse(TemplateName, t.result.value);
    OrderedConcat(t.calls, [Parse(TemplateName, t.result.value)]);
    Loaded(t.calls + [Parse(TemplateName, t.result.value)], if p.Err? then Err(ParseFailed(p.error)) else Ok(p.value))
  }

  /** Every stage up to and including the parse, in source order. */
  function Prepare<F, D, T>(env: Env<F, D, T>, js: Source, ts: Source): (p: Loaded<(D, T)>)
    ensures p.calls != [] && Ordered(p.calls) && Rank(Last(p.calls)) <= 5
    ensures p.result.Err? ==> !p.result.error.Config? && ErrorRank(p.result.error) == Rank(Last(p.calls))
    // the template stages run only after the JSON stages succeeded
    ensures LoadData(env, js).result.Err? ==>
      p == Loaded(LoadData(env, js).calls, Err(LoadData(env, js).result.error))
    ensures LoadData(env, js).result.Ok? ==>
      && p.calls == LoadData(env, js).calls + LoadTree(env, ts).calls
      && (LoadTree(env, ts).result.Err? ==> p.result == Err(LoadTree(env, ts).result.error))
    // success exactly when both texts exist, decode and parse succeed; the value is what they return
    ensures p.result.Ok? <==>
      && SourceText(env, js).Some? && env.decode(SourceText(env, js).value).Ok?
      && SourceText(env, ts).Some? && env.parse(TemplateName, SourceText(env, ts).value).Ok?
    ensures p.result.Ok? ==>
      p.result.value == (env.decode(SourceText(env, js).value).value, env.parse(TemplateName, SourceText(env, ts).value).value)
  {
    var j := LoadData(env, js);
    if j.result.Err? then Loaded(j.calls, Err(j.result.error)) else
    var t := LoadTree(env, ts);
    OrderedConcat(j.calls, t.calls);
    assert Last(j.calls + t.calls) == Last(t.calls);
    if t.result.Err? then Loaded(j.calls + t.calls, Err(t.result.error)) else
    Loaded(j.calls + t.calls, Ok((j.result.value, t.result.value)))
  }

  /**
   * The pipeline once validation has passed (main.go:70-126): prepare, then
   * execute with `missingkey=error` into a buffer that reaches standard
   * output, with a newline, only when execution succeeded.
   */
  function Pipeline<F, D, T>(env: Env<F, D, T>, js: Source, ts: Source): (o: Outcome)
    // something is always called, and the run stops at the failing stage
    ensures o.calls != []
    ensures o.err.Some? ==> !o.err.value.Config? && ErrorRank(o.err.value) == Rank(Last(o.calls))
    // all or nothing on standard output
    ensures o.err.Some? ==> o.stdout == ""
    ensures o.err.None? ==>
      && Last(o.calls) == Execute(FailOnMissing)
      && o.stdout != "" && o.stdout[|o.stdout| - 1] == '\n'
    // the stages run in their fixed order
    ensures Ordered(o.calls)
    // a failure before execution is returned as it is, and nothing is executed
    ensures Prepare(env, js, ts).result.Err? ==>
      o == Outcome(Prepare(env, js, ts).calls, "", Some(Prepare(env, js, ts).result.error))
    // otherwise the decoded value and the parsed tree are executed with missingkey=error
    ensures Prepare(env, js, ts).result.Ok? ==>
      var x := env.execute(Prepare(env, js, ts).result.value.1, FailOnMissing, Prepare(env, js, ts).result.value.0);
      && o.calls == Prepare(env, js, ts).calls + [Execute(FailOnMissing)]
      && o.err == (if x.failure.Some? then Some(ExecFailed(x.failure.value)) else None)
      && o.stdout == (if x.failure.Some? then "" else Concat(x.writes) + "\n")
  {
    var p := Prepare(env, js, ts);
    if p.result.Err? then Outcome(p.calls, "", Some(p.result.error)) else
    var (d, t) := p.result.value;
    var calls := p.calls + [Execute(FailOnMissing)];
    OrderedConcat(p.calls, [Execute(FailOnMissing)]);
    var x := env.execute(t, FailOnMissing, d);
    if x.failure.Some? then Outcome(calls, "", Some(ExecFailed(x.failure.value)))
    else Outcome(calls, Concat(x.writes) + "\n", None)
  }

  /**
   * The observable behaviour of `run` (main.go:57-126): the reference
   * definition the method `Run` is proved against.
   */
  function Behaviour<F, D, T>(f: Flags, env: Env<F, D, T>): (o: Outcome)
    // a failed check is reported before any collaborator is called
    ensures Resolve(f).Invalid? <==> o.err.Some? && o.err.value.Config?
    ensures Resolve(f).Invalid? ==> o == Outcome([], "", Some(Config(Resolve(f).error)))
  {
    match Resolve(f)
    case Invalid(e) => Outcome([], "", Some(Config(e)))
    case Resolved(js, ts) => Pipeline(env, js, ts)
  }

  /**
   * The text of one input, as `run` obtains it: the literal itself, or
   * `os.Open` followed by `io.ReadAll` on the path (main.go:72, 79-87, 97, 104-112).
   */
  method ReadInput<F, D, T>(env: Env<F, D, T>, input: Input, src: Source) returns (calls: seq<Call>, text: Result<string, Error>)
    ensures Loaded(calls, text) == LoadText(env, input, src)
  {
    if src.Literal? {
      return [], Ok(src.text);
    }
    calls := [Open(input, src.path)];
    var h := env.open(src.path);
    if h.Err? {
      return calls, Err(OpenFailed(input, src.path, h.error));
    }
    calls := calls + [ReadAll(input, src.path)];
    var content := env.readAll(h.value);
    if content.Err? {
      return calls, Err(ReadFailed(input, src.path, content.error));
    }
    text := Ok(content.value);
  }

  /**
   * `run` after flag parsing (main.go:57-126). The JSON value is filled in
   * once decoding succeeds, the template object is built and then parsed in
   * place, and execution writes into a fresh builder; standard output is
   * written once, at the end, and only if execution reported no error.
   */
  method Run<F, D, T>(f: Flags, env: Env<F, D, T>) returns (calls: seq<Call>, stdout: string, err: Option<Error>)
    ensures Outcome(calls, stdout, err) == Behaviour(f, env)
  {
    stdout := "";
    var r := Resolve(f);
    if r.Invalid? {
      calls, err := [], Some(Config(r.error));
      return;
    }

    var jsonText;
    calls, jsonText := ReadInput(env, JsonInput, r.json);
    if jsonText.Err? {
      err := Some(jsonText.error);
      return;
    }
    calls := calls + [Decode(jsonText.value)];
    var decoded := env.decode(jsonText.value);
    if decoded.Err? {
      err := Some(DecodeFailed(decoded.error));
      return;
    }
    var jsonData := decoded.value;
    assert LoadData(env, r.json) == Loaded(calls, Ok(jsonData));

    var templateData := new Template<T>.New(TemplateName);
    templateData.SetMissingKey(FailOnMissing);

    var templateCalls, templateText := ReadInput(env, TemplateInput, r.template);
    ghost var dataCalls := calls;
    calls := calls + templateCalls;
    if templateText.Err? {
      err := Some(templateText.error);
      return;
    }
    calls := calls + [Parse(templateData.name, templateText.value)];
    var parseErr := templateData.Parse(env.parse, templateText.value);
    assert LoadTree(env, r.template).calls == templateCalls + [Parse(TemplateName, templateText.value)];
    assert calls == dataCalls + LoadTree(env, r.template).calls;
    if parseErr.Some? {
      err := Some(ParseFailed(parseErr.value));
      return;
    }
    assert Prepare(env, r.json, r.template) == Loaded(calls, Ok((jsonData, templateData.tree.value)));

    var res := new Builder();
    calls := calls + [Execute(templateData.missingKey)];
    var execErr := templateData.Execute(env.execute, jsonData, res);
    if execErr.Some? {
      err := Some(ExecFailed(execErr.value));
      return;
    }

    stdout := stdout + res.String() + "\n";
    err := None;
  }

  /** Without any JSON input the run fails with "can't find json", whatever the template flags and files. */
  lemma MissingJsonWins<F, D, T>(f: Flags, env: Env<F, D, T>)
    requires f.json == "" && f.jsonFile == ""
    ensures Behaviour(f, env) == Outcome([], "", Some(Config(MissingJson)))
    ensures Message(Config(MissingJson)) == "can't find json"
  {
  }

  /** The missing-template check comes before the ambiguity checks: two JSON sources and no template give it too. */
  lemma MissingTemplateBeforeAmbiguity<F, D, T>(f: Flags, env: Env<F, D, T>)
    requires f.json != "" || f.jsonFile != ""
    requires f.template == "" && f.templateFile == ""
    ensures Behaviour(f, env) == Outcome([], "", Some(Config(MissingTemplate)))
    ensures Message(Config(MissingTemplate)) == "can't find template"
  {
  }

  /** Both JSON inputs with some template present: refused, no source is preferred and no file is touched. */
  lemma TwoJsonRefused<F, D, T>(f: Flags, env: Env<F, D, T>)
    requires f.json != "" && f.jsonFile != ""
    requires f.template != "" || f.templateFile != ""
    ensures Behaviour(f, env) == Outcome([], "", Some(Config(TwoJson)))
    ensures Message(Config(TwoJson)) == "you can't have two json"
  {
  }

  /** Both template inputs, after the JSON checks passed: refused before any file is touched. */
  lemma TwoTemplatesRefused<F, D, T>(f: Flags, env: Env<F, D, T>)
    requires (f.json != "") != (f.jsonFile != "")
    requires f.template != "" && f.templateFile != ""
    ensures Behaviour(f, env) == Outcome([], "", Some(Config(TwoTemplates)))
    ensures Message(Config(TwoTemplates)) == "you can't have two templates"
  {
  }

  /**
   * The calls of a run follow the fixed stage order without repetition, and a
   * run that failed before execution never executed the template.
   */
  lemma StagesInOrder<F, D, T>(f: Flags, env: Env<F, D, T>)
    ensures var o := Behaviour(f, env);
      forall i, j :: 0 <= i < j < |o.calls| ==> Rank(o.calls[i]) < Rank(o.calls[j])
    ensures var o := Behaviour(f, env);
      o.err.Some? && !o.err.value.ExecFailed? ==> forall c :: c in o.calls ==> !c.Execute?
  {
    var r := Resolve(f);
    if r.Resolved? {
      PipelineOrder(env, r.json, r.template);
    }
  }

  /** The pipeline half of `StagesInOrder`. */
  lemma PipelineOrder<F, D, T>(env: Env<F, D, T>, js: Source, ts: Source)
    ensures var o := Pipeline(env, js, ts);
      forall i, j :: 0 <= i < j < |o.calls| ==> Rank(o.calls[i]) < Rank(o.calls[j])
    ensures var o := Pipeline(env, js, ts);
      o.err.Some? && !o.err.value.ExecFailed? ==> forall c :: c in o.calls ==> !c.Execute?
  {
    TraceOrder(Pipeline(env, js, ts));
  }

  /** What an ordered trace that stops at its failing stage implies. */
  lemma TraceOrder(o: Outcome)
    requires o.calls != [] && Ordered(o.calls)
    requires o.err.Some? ==> !o.err.value.Config? && ErrorRank(o.err.value) == Rank(Last(o.calls))
    ensures forall i, j :: 0 <= i < j < |o.calls| ==> Rank(o.calls[i]) < Rank(o.calls[j])
    ensures o.err.Some? && !o.err.value.ExecFailed? ==> forall c :: c in o.calls ==> !c.Execute?
  {
    OrderedPairwise(o.calls);
    OrderedBelowLast(o.calls);
  }

  /**
   * The calls of the JSON stages: file operations on the JSON input, then one
   * decode of the source's text; the logged decode is the one whose result the
   * stage returns.
   */
  lemma DataCalls<F, D, T>(env: Env<F, D, T>, js: Source)
    ensures forall c :: c in LoadData(env, js).calls ==>
      (c.Decode? && SourceText(env, js) == Some(c.text))
      || (js.File? && (c.Open? || c.ReadAll?) && c.input == JsonInput && c.path == js.path)
    ensures forall t :: Decode(t) in LoadData(env, js).calls ==>
      LoadData(env, js).result == (if env.decode(t).Ok? then Ok(env.decode(t).value) else Err(DecodeFailed(env.decode(t).error)))
  {
  }

  /**
   * The calls of the template stages: file operations on the template input,
   * then one parse of the source's text; the logged parse is the one whose
   * result the stage returns.
   */
  lemma TreeCalls<F, D, T>(env: Env<F, D, T>, ts: Source)
    ensures forall c :: c in LoadTree(env, ts).calls ==>
      (c.Parse? && c.name == TemplateName && SourceText(env, ts) == Some(c.text))
      || (ts.File? && (c.Open? || c.ReadAll?) && c.input == TemplateInput && c.path == ts.path)
    ensures forall n, t :: Parse(n, t) in LoadTree(env, ts).calls ==>
      LoadTree(env, ts).result == (if env.parse(n, t).Ok? then Ok(env.parse(n, t).value) else Err(ParseFailed(env.parse(n, t).error)))
  {
  }

  /** Every call of the pipeline is a JSON-stage call, a template-stage call or the one execution. */
  lemma PipelineCalls<F, D, T>(env: Env<F, D, T>, js: Source, ts: Source)
    ensures Pipeline(env, js, ts).calls[0] == LoadData(env, js).calls[0]
    ensures forall c :: c in Pipeline(env, js, ts).calls ==>
      c in LoadData(env, js).calls || c in LoadTree(env, ts).calls || c == Execute(FailOnMissing)
  {
  }

  /**
   * On the pipeline: the JSON stage receives the source's text, a literal opens
   * no file first, and a failing decode of the logged text is the run's error.
   */
  lemma PipelineJsonInput<F, D, T>(env: Env<F, D, T>, js: Source, ts: Source)
    ensures var o := Pipeline(env, js, ts);
      && o.calls[0] == (if js.Literal? then Decode(js.text) else Open(JsonInput, js.path))
      && (forall t :: Decode(t) in o.calls ==> SourceText(env, js) == Some(t))
    ensures var o := Pipeline(env, js, ts);
      forall t :: Decode(t) in o.calls && env.decode(t).Err? ==> o.err == Some(DecodeFailed(env.decode(t).error))
  {
    var a := LoadData(env, js).calls;
    DataCalls(env, js);
    assert forall c :: c in a && c.Decode? ==> SourceText(env, js) == Some(c.text);
    var b := LoadTree(env, ts).calls;
    TreeCalls(env, ts);
    assert forall c :: c in b ==> !c.Decode?;
    PipelineCalls(env, js, ts);
  }

  /**
   * On the pipeline: the parse receives the template source's text under the
   * name "templateData", and a failing parse of the logged text is the run's error.
   */
  lemma PipelineTemplateInput<F, D, T>(env: Env<F, D, T>, js: Source, ts: Source)
    ensures forall n, t :: Parse(n, t) in Pipeline(env, js, ts).calls ==> n == TemplateName && SourceText(env, ts) == Some(t)
    ensures forall n, t :: Parse(n, t) in Pipeline(env, js, ts).calls && env.parse(n, t).Err? ==>
      Pipeline(env, js, ts).err == Some(ParseFailed(env.parse(n, t).error))
  {
    var a := LoadData(env, js).calls;
    DataCalls(env, js);
    assert forall c :: c in a ==> !c.Parse?;
    var b := LoadTree(env, ts).calls;
    TreeCalls(env, ts);
    assert forall c :: c in b && c.Parse? ==> c.name == TemplateName && SourceText(env, ts) == Some(c.text);
    PipelineCalls(env, js, ts);
    ParsesFrom(Pipeline(env, js, ts).calls, a, b, SourceText(env, ts));
  }

  /** A trace made of calls from `a`, which parses nothing, and `b`, whose parses all get `text`, only parses `text`. */
  lemma ParsesFrom(calls: seq<Call>, a: seq<Call>, b: seq<Call>, text: Option<string>)
    requires forall c :: c in calls ==> c in a || c in b || c == Execute(FailOnMissing)
    requires forall c :: c in a ==> !c.Parse?
    requires forall c :: c in b && c.Parse? ==> c.name == TemplateName && text == Some(c.text)
    ensures forall n, t :: Parse(n, t) in calls ==> n == TemplateName && text == Some(t)
  {
  }

  /** On the pipeline: a literal template opens no file. */
  lemma PipelineLiteralTemplate<F, D, T>(env: Env<F, D, T>, js: Source, ts: Source)
    requires ts.Literal?
    ensures forall p :: Open(TemplateInput, p) !in Pipeline(env, js, ts).calls
  {
    var a := LoadData(env, js).calls;
    DataCalls(env, js);
    assert forall c :: c in a && c.Open? ==> c.input == JsonInput;
    var b := LoadTree(env, ts).calls;
    TreeCalls(env, ts);
    assert forall c :: c in b ==> c.Parse?;
    PipelineCalls(env, js, ts);
  }

  /**
   * Once validation passes, the literal is used verbatim when it is given and
   * otherwise the whole contents of the named file; a literal input opens no
   * file; and a failing decode or parse of the text so used is the run's error
   * (`RenderedFromInputs` gives the output of a successful run).
   */
  lemma InputsUsedAsGiven<F, D, T>(f: Flags, env: Env<F, D, T>)
    requires Resolve(f).Resolved?
    ensures var o := Behaviour(f, env);
      && o.calls[0] == (if f.json != "" then Decode(f.json) else Open(JsonInput, f.jsonFile))
      && (forall t :: Decode(t) in o.calls ==>
            if f.json != "" then t == f.json else FileText(env, f.jsonFile) == Some(t))
    ensures var o := Behaviour(f, env);
      && (forall n, t :: Parse(n, t) in o.calls ==>
            n == TemplateName && if f.template != "" then t == f.template else FileText(env, f.templateFile) == Some(t))
      && (f.template != "" ==> forall p :: Open(TemplateInput, p) !in o.calls)
    // the logged texts are the ones whose decode and parse decide the run
    ensures var o := Behaviour(f, env);
      && (forall t :: Decode(t) in o.calls && env.decode(t).Err? ==> o.err == Some(DecodeFailed(env.decode(t).error)))
      && (forall n, t :: Parse(n, t) in o.calls && env.parse(n, t).Err? ==> o.err == Some(ParseFailed(env.parse(n, t).error)))
  {
    var r := Resolve(f);
    PipelineJsonInput(env, r.json, r.template);
    PipelineTemplateInput(env, r.json, r.template);
    if r.template.Literal? {
      PipelineLiteralTemplate(env, r.json, r.template);
    }
  }

  /**
   * What a run that passed validation prints, in terms of the flags and the
   * collaborators: the JSON text is the literal or the whole JSON file, the
   * template text the literal or the whole template file; the run succeeds
   * exactly when both texts exist, the decode, the parse under "templateData"
   * and the execution with missingkey=error succeed, and it then prints the
   * execution's text plus a newline.
   */
  lemma RenderedFromInputs<F, D, T>(f: Flags, env: Env<F, D, T>)
    requires Resolve(f).Resolved?
    ensures var o := Behaviour(f, env);
      var jt := if f.json != "" then Some(f.json) else FileText(env, f.jsonFile);
      var tt := if f.template != "" then Some(f.template) else FileText(env, f.templateFile);
      o.err.None? <==>
        && jt.Some? && env.decode(jt.value).Ok?
        && tt.Some? && env.parse(TemplateName, tt.value).Ok?
        && env.execute(env.parse(TemplateName, tt.value).value, FailOnMissing, env.decode(jt.value).value).failure.None?
    ensures var o := Behaviour(f, env);
      var jt := if f.json != "" then Some(f.json) else FileText(env, f.jsonFile);
      var tt := if f.template != "" then Some(f.template) else FileText(env, f.templateFile);
      o.err.None? ==>
        && jt.Some? && tt.Some?
        && o.stdout == Concat(env.execute(env.parse(TemplateName, tt.value).value, FailOnMissing, env.decode(jt.value).value).writes) + "\n"
  {
    var r := Resolve(f);
    assert SourceText(env, r.json) == if f.json != "" then Some(f.json) else FileText(env, f.jsonFile);
    assert SourceText(env, r.template) == if f.template != "" then Some(f.template) else FileText(env, f.templateFile);
  }

  /**
   * Errors are passed up unchanged: after validation, the message of a failed
   * run is the failing collaborator's own message, for the file the flags name.
   */
  lemma ErrorsPassedUp<F, D, T>(f: Flags, env: Env<F, D, T>)
    requires Resolve(f).Resolved?
    ensures var o := Behaviour(f, env);
      o.err.Some? && (o.err.value.OpenFailed? || o.err.value.ReadFailed?) ==>
        o.err.value.path == (if o.err.value.input == JsonInput then f.jsonFile else f.templateFile)
    ensures var o := Behaviour(f, env);
      o.err.Some? && o.err.value.OpenFailed? ==>
        env.open(o.err.value.path).Err? && Message(o.err.value) == env.open(o.err.value.path).error
    ensures var o := Behaviour(f, env);
      o.err.Some? && o.err.value.ReadFailed? ==>
        && env.open(o.err.value.path).Ok?
        && env.readAll(env.open(o.err.value.path).value).Err?
        && Message(o.err.value) == env.readAll(env.open(o.err.value.path).value).error
    ensures var o := Behaviour(f, env);
      var jt := if f.json != "" then Some(f.json) else FileText(env, f.jsonFile);
      o.err.Some? && o.err.value.DecodeFailed? ==>
        jt.Some? && env.decode(jt.value).Err? && Message(o.err.value) == env.decode(jt.value).error
    ensures var o := Behaviour(f, env);
      var tt := if f.template != "" then Some(f.template) else FileText(env, f.templateFile);
      o.err.Some? && o.err.value.ParseFailed? ==>
        tt.Some? && env.parse(TemplateName, tt.value).Err? && Message(o.err.value) == env.parse(TemplateName, tt.value).error
  {
    var r := Resolve(f);
    assert SourceText(env, r.json) == if f.json != "" then Some(f.json) else FileText(env, f.jsonFile);
    assert SourceText(env, r.template) == if f.template != "" then Some(f.template) else FileText(env, f.templateFile);
    PipelineErrors(env, r.json, r.template);
  }

  /** The pipeline half of `ErrorsPassedUp`, in terms of the two sources. */
  lemma PipelineErrors<F, D, T>(env: Env<F, D, T>, js: Source, ts: Source)
    ensures var o := Pipeline(env, js, ts);
      o.err.Some? && (o.err.value.OpenFailed? || o.err.value.ReadFailed?) ==>
        (if o.err.value.input == JsonInput then js else ts) == File(o.err.value.path)
    ensures var o := Pipeline(env, js, ts);
      o.err.Some? && o.err.value.OpenFailed? ==>
        env.open(o.err.value.path).Err? && o.err.value.msg == env.open(o.err.value.path).error
    ensures var o := Pipeline(env, js, ts);
      o.err.Some? && o.err.value.ReadFailed? ==>
        && env.open(o.err.value.path).Ok?
        && env.readAll(env.open(o.err.value.path).value).Err?
        && o.err.value.msg == env.readAll(env.open(o.err.value.path).value).error
    ensures var o := Pipeline(env, js, ts);
      o.err.Some? && o.err.value.DecodeFailed? ==>
        SourceText(env, js).Some? && env.decode(SourceText(env, js).value).Err?
        && o.err.value.msg == env.decode(SourceText(env, js).value).error
    ensures var o := Pipeline(env, js, ts);
      o.err.Some? && o.err.value.ParseFailed? ==>
        SourceText(env, ts).Some? && env.parse(TemplateName, SourceText(env, ts).value).Err?
        && o.err.value.msg == env.parse(TemplateName, SourceText(env, ts).value).error
  {
    var d := LoadData(env, js);
    if d.result.Err? {
      TextErrors(env, JsonInput, js);
    } else {
      TextErrors(env, TemplateInput, ts);
    }
  }

  /** The error of one input's text is the failing open's or read's own, for the path the source names. */
  lemma TextErrors<F, D, T>(env: Env<F, D, T>, input: Input, src: Source)
    ensures var l := LoadText(env, input, src);
      l.result.Err? ==> src == File(l.result.error.path)
    ensures var l := LoadText(env, input, src);
      l.result.Err? && l.result.error.OpenFailed? ==>
        env.open(src.path).Err? && l.result.error.msg == env.open(src.path).error
    ensures var l := LoadText(env, input, src);
      l.result.Err? && l.result.error.ReadFailed? ==>
        && env.open(src.path).Ok?
        && env.readAll(env.open(src.path).value).Err?
        && l.result.error.msg == env.readAll(env.open(src.path).value).error
  {
  }

  /**
   * Output is all or nothing: with every stage before execution successful, a
   * failing execution leaves standard output empty however many chunks it had
   * written, and a successful one prints exactly its text plus a newline.
   */
  lemma OutputAllOrNothing<F, D, T>(f: Flags, env: Env<F, D, T>, d: D, t: T)
    requires Resolve(f).Resolved?
    requires Prepare(env, Resolve(f).json, Resolve(f).template).result == Ok((d, t))
    ensures var x := env.execute(t, FailOnMissing, d);
      x.failure.Some? ==> Behaviour(f, env).stdout == "" && Behaviour(f, env).err == Some(ExecFailed(x.failure.value))
    ensures var x := env.execute(t, FailOnMissing, d);
      x.failure.None? ==> Behaviour(f, env).stdout == Concat(x.writes) + "\n" && Behaviour(f, env).err == None
  {
  }
}
