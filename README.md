# squizin: a Dafny model of the template runner

squizin is a small command-line program. It renders a Go `text/template`
against one JSON value and prints the result. All of its own logic is in
`run()` and `main()` of `main.go`, and this project models exactly that:

- **Input resolver** (`Resolver`). Four flag strings come in: `-json`, `-json-file`, `-template`, `-template-file`. A flag counts as given exactly when its string is non-empty. Four checks run in a fixed order, and the first one that fails decides the error: no JSON, no template, two JSON sources, two template sources. Once every check has passed, each input comes from its literal if that is given, and from its file otherwise.
- **Render pipeline** (`Render`). The JSON text is decoded, from the literal or from the whole file. A template named `templateData` is built with `missingkey=error`, and the template text (literal or whole file) is parsed into it. The template is executed into an in-memory `strings.Builder`, and the builder's text plus a newline goes to standard output only if execution succeeded. Each failing stage returns its error at once.
- **Outcome mapping** (`Cli`). An error becomes `failed to execute template: ` followed by the error's text on standard error, with no newline added, and exit code 1. Success exits with 0.

The libraries the program calls are modelled as abstract collaborators, fields of
the datatype `Library.Env`: `os.Open`, `io.ReadAll`, `json.Unmarshal`,
`Template.Parse` and `Template.Execute`. Each returns a value or an error message,
and the model assumes nothing about what they compute. Execution is described
by an `Execution` value: the chunks the engine writes into its writer, in order,
and then success or the error it stopped with. So an execution can leave partial
text in the builder before it fails.

The two objects `run` updates through methods are classes: `Library.Builder` for
`strings.Builder`, and `Library.Template` (name, missing-key option, parsed tree). The JSON value, which the code fills in place through `&jsonData` (main.go:70, 73, 89), is assigned as a value in the model once decoding succeeds.
`Render.Run` is the imperative model of `run`. It is proved equal to the reference
function `Render.Behaviour`, which records the collaborator calls in order, the
standard output and the returned error. `Cli.Program` models `main`. Three helpers have no contract of their own: `Render.Message` is the `%v` text of an error (main.go:42), `Resolver.ErrorText` gives the four `errors.New` texts (main.go:58-67), and `Library.Builder.String` is `res.String()` (main.go:125).

Behaviour of the code worth knowing (the model follows the code):

- The code reports only the first failing check, not every failing check.
- The code returns collaborator errors unchanged. It adds no path or stage to the message, so `Render.Message` of an I/O, decode, parse or execute error is the collaborator's own text (`Render.ErrorsPassedUp` for open, read, decode and parse errors; `Render.Pipeline` and `Render.OutputAllOrNothing` for the execution error). The constructor of `Render.Error` records the stage only inside the model.
- Passing `-json` and `-json-file` together gives the ambiguity error only when some template flag is also given. Otherwise the missing-template check fires first (`Cli.TwoJsonWithoutTemplate`).
- The output always gets exactly one trailing newline, from `fmt.Println`.

## Model

| member | source | states |
|---|---|---|
| Resolver.Resolve | main.go:57-68 | each of the four errors arises exactly when its check fails and all earlier checks pass (both directions); validation passes iff each pair has exactly one non-empty member, and the chosen source is that member: the literal text verbatim, or the file path |
| Resolver.ErrorTextsDistinct | main.go:58-67 | the four check messages are pairwise different, so the diagnostic identifies the failed check |
| Render.MissingJsonWins | main.go:57-59 | with both JSON flags empty the run fails with "can't find json", calls nothing and prints nothing, whatever the template flags and the collaborators do |
| Render.MissingTemplateBeforeAmbiguity | main.go:57-62 | with some JSON flag given and both template flags empty the run fails with "can't find template", even when both JSON flags are given |
| Render.TwoJsonRefused | main.go:63-65 | both JSON flags plus some template flag: "you can't have two json", no call made, neither source preferred |
| Render.TwoTemplatesRefused | main.go:66-68 | exactly one JSON flag and both template flags: "you can't have two templates", no call made |
| Render.LoadText | main.go:79-112 | a literal gives its text and touches no file; a path is opened, then read; the text is obtained exactly when open and read both succeed, and it is the file's whole contents; a failed open makes no read and returns `OpenFailed` with the open's own error; a failed read returns `ReadFailed` with the read's own error; a failure is raised at the last call made |
| Render.ReadInput | main.go:79-112 | the imperative open-then-read step produces exactly the calls and the text or error of `LoadText` |
| Render.LoadData | main.go:72-93 | without a text the stage stops with the text's error; with one it decodes exactly that text: it succeeds iff the decoder accepts the source's text, the value is the decoder's result for that text, and a decoder error is returned unchanged as `DecodeFailed`; the trace is ordered, starts with the decode of the literal or the open of the JSON file, and a failure is raised at its last call |
| Render.LoadTree | main.go:95-118 | without a text the stage stops with the text's error; with one it parses exactly that text under "templateData": it succeeds iff the parser accepts that name and text, the tree is the parser's result, and a parser error is returned unchanged as `ParseFailed`; the trace is ordered and comes after every JSON stage |
| Render.Prepare | main.go:72-118 | the template stages run only after the JSON stages succeeded, and either stage's error is returned as it is; success holds exactly when both texts exist, the decode and the parse under "templateData" succeed, and the value is the decoded JSON paired with the parsed tree; the trace is ordered |
| Render.Pipeline | main.go:70-126 | after validation: an error before execution is returned as it is, with nothing executed or printed; otherwise the decoded value and the parsed tree are executed once with missingkey=error, an execution error is returned as `ExecFailed` with empty standard output, and success prints the execution's writes concatenated plus "\n"; an error is raised at the last call made; the calls are in stage order |
| Render.Behaviour | main.go:57-126 | a failed check is the only way to get a configuration error; it returns that check's error with no call made and nothing printed |
| Render.Run | main.go:57-126 | the imperative run, which fills the JSON value, builds the template object and parses it in place, executes into a fresh builder and prints once, yields exactly the calls, standard output and error of `Behaviour` |
| Render.StagesInOrder | main.go:72-123 | the calls of any run are in strictly increasing stage order (no stage runs twice or out of turn), and a run that failed before execution never executed the template |
| Render.PipelineOrder | main.go:72-123 | the same two facts for the pipeline after validation |
| Render.DataCalls | main.go:72-93 | the JSON stages only open or read the JSON file the source names, or decode the JSON source's text, and the stage's result is exactly what decoding the logged text gives (value or `DecodeFailed` with the decoder's error) |
| Render.TreeCalls | main.go:97-118 | the template stages only parse the template source's text under "templateData", or open or read the template file the source names, and the stage's result is exactly what parsing the logged name and text gives (tree or `ParseFailed` with the parser's error) |
| Render.PipelineCalls | main.go:72-123 | every pipeline call is a JSON-stage call, a template-stage call or the one execution, and the first call is the JSON stage's first |
| Render.PipelineJsonInput | main.go:72-93 | the first call is the decode of the JSON literal, or the open of the JSON file; every decode receives the JSON source's text; a failing decode of that text is the run's error, carrying the decoder's message |
| Render.PipelineTemplateInput | main.go:97-118 | every parse is under the name "templateData" and receives the template source's text; a failing parse of that name and text is the run's error, carrying the parser's message |
| Render.PipelineLiteralTemplate | main.go:97-103 | a literal template opens no template file |
| Render.InputsUsedAsGiven | main.go:72-118 | once the checks pass, a given literal is used verbatim and otherwise the whole contents of the named file, for both inputs; a literal template opens no file; a failing decode or parse of the text so used is the run's error |
| Render.RenderedFromInputs | main.go:72-126 | once the checks pass, the run succeeds exactly when the JSON text (literal or whole file) and the template text exist, the decode, the parse under "templateData" and the execution with missingkey=error all succeed, and then standard output is the execution's text for that decoded value and that tree, plus a newline |
| Render.ErrorsPassedUp | main.go:72-118 | once the checks pass, an open or read error names the file the flags give, and the message of an open, read, decode or parse error is the failing collaborator's own message for that file or text |
| Render.PipelineErrors | main.go:72-118 | the same on the pipeline, in terms of the two sources |
| Render.TextErrors | main.go:79-87 | a failed text names the source's path and carries the failing open's or read's own message |
| Render.OutputAllOrNothing | main.go:120-126 | with every stage before execution successful, a failing execution leaves standard output empty however many chunks it wrote; a successful one prints exactly the text it wrote plus a newline |
| Library.ConcatAppend | main.go:120-121 | each write into the builder extends its text by exactly that chunk, so the builder holds the writes concatenated in order |
| Library.Builder.constructor | main.go:120 | a new builder is empty |
| Library.Builder.WriteString | main.go:121 | a write appends its text to the buffer |
| Library.Template.New | main.go:95 | a new template has the given name, the default missing-key option and no tree |
| Library.Template.SetMissingKey | main.go:95 | setting the option changes only the option |
| Library.Template.Parse | main.go:98-101 | a successful parse of the template's name and text stores the tree and returns no error; a failed one returns the parser's error and keeps the tree |
| Library.Template.Execute | main.go:121-123 | the builder gains the engine's writes in order, also when execution then fails, and the engine's error is returned |
| Cli.Terminate | main.go:40-45 | standard output is untouched; exit code 0 without error and 1 with one; on error standard error is exactly the prefix followed by the error's text, with nothing added; without error standard error is empty |
| Cli.Program | main.go:40-45 | the program, `run` followed by the error handling of `main`, leaves exactly the streams and exit code of `Terminate` applied to `Behaviour` |
| Cli.AllOrNothing | main.go:41-44 | either standard output is non-empty, standard error empty and the exit code 0, or standard output empty, standard error non-empty and the exit code 1 |
| Cli.ConfigErrorReported | main.go:41-44 | a failed check calls nothing, prints nothing on standard output, puts the prefix and the check's message on standard error and exits with 1 |
| Cli.TwoJsonWithoutTemplate | main.go:57-65 | `-json '{"a":1}' -json-file data.json` with no template flag touches no file and reports "can't find template", not the ambiguity |

## Left out

- Flag parsing with the `flag` package (main.go:48-55). The four flag values are inputs of the model.
- What the collaborators compute. This covers opening and reading files, JSON decoding (including trailing data and error positions), and the template language with how `missingkey=error` is enforced. They are the abstract functions of `Library.Env`. Only their success or failure, their arguments and the writes of an execution are modelled.
- Byte and string conversions (`[]byte(...)`, `string(t)`). File contents and JSON text are strings in the model.
- Closing files. The code never closes the files it opens, and the model states nothing about file handles.
- Errors from writing standard output (`fmt.Println`) and standard error (`fmt.Fprintf`). The code ignores them.
- Process termination. `os.Exit(1)` and a normal return appear only as the exit-code value.
- The worked example in the comments of main.go (lines 28-32). It depends on the real template engine, which is abstract here.
- Library.Template.Execute: requires that the template has been parsed. The library would return an "incomplete or empty template" error otherwise, but `run` never executes an unparsed template.
- Library.Template.SetMissingKey: takes the option as a value rather than as the string "missingkey=error". The library's handling of malformed option strings is not modelled.
- Render.Run: the order of I/O is represented by a `Call` log that the model keeps beside each collaborator call, because the collaborators are pure functions here. The ordering lemmas and the "no file is opened before validation" lemmas (`StagesInOrder`, `PipelineOrder`, `MissingJsonWins` and the other check lemmas, `PipelineLiteralTemplate`) are statements about that log. Nothing in the model forces the real collaborator calls to happen at the logged points.
