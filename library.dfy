/**
 * The library calls `run` makes and cannot see into: `os.Open`, `io.ReadAll`,
 * `json.Unmarshal`, `(*template.Template).Parse` and `Execute`. They are given
 * as an environment of functions, each returning a value or an error message;
 * nothing is assumed of what they compute. The two objects `run` updates in
 * place, the template and the `strings.Builder`, are classes.
 */
module Library {
  import opened Wrappers

  /** The template option `missingkey=...`: print "<no value>", use the zero value, or fail. */
  datatype MissingKey = NoValue | ZeroValue | FailOnMissing

  /**
   * What executing a parsed template against a data value does to its writer:
   * the chunks it writes, in order, and then either success or the error it
   * stops with. Chunks written before a failure are part of the model, because
   * the engine may produce partial text before it fails.
   */
  datatype Execution = Execution(writes: seq<string>, failure: Option<string>)

  /**
   * The collaborators: F is an open file, D a decoded JSON value, T a parsed
   * template tree. `parse` receives the template's name and its text;
   * `execute` receives the tree, the template's missing-key option and the data.
   */
  datatype Env<!F, !D, !T> = Env(
    open: string -> Result<F, string>,
    readAll: F -> Result<string, string>,
    decode: string -> Result<D, string>,
    parse: (string, string) -> Result<T, string>,
    execute: (T, MissingKey, D) -> Execution)

  /** The text a sequence of writes leaves behind, first chunk first. */
  function Concat(chunks: seq<string>): string {
    if chunks == [] then "" else chunks[0] + Concat(chunks[1..])
  }

  /** One more write extends the accumulated text by exactly that chunk. */
  lemma {:induction false} ConcatAppend(chunks: seq<string>, c: string)
    ensures Concat(chunks + [c]) == Concat(chunks) + c
  {
    if chunks == [] {
      assert chunks + [c] == [c];
    } else {
      assert (chunks + [c])[1..] == chunks[1..] + [c];
      ConcatAppend(chunks[1..], c);
    }
  }

  /** `strings.Builder`: an in-memory buffer that only ever grows. */
  class Builder {
    var buf: string

    constructor ()
      ensures buf == ""
    {
      buf := "";
    }

    method WriteString(s: string)
      modifies this
      ensures buf == old(buf) + s
    {
      buf := buf + s;
    }

    function String(): string
      reads this
    {
      buf
    }
  }

  /** `*template.Template`: a name, a missing-key option and, once parsed, a tree. */
  class Template<T> {
    const name: string
    var missingKey: MissingKey
    var tree: Option<T>

    /** `template.New(name)`: no tree yet, default missing-key behaviour. */
    constructor New(name: string)
      ensures this.name == name && missingKey == NoValue && tree == None
    {
      this.name := name;
      missingKey := NoValue;
      tree := None;
    }

    /** `.Option("missingkey=...")`: changes only the option. */
    method SetMissingKey(mode: MissingKey)
      modifies this
      ensures missingKey == mode && tree == old(tree)
    {
      missingKey := mode;
    }

    /** `.Parse(text)`: on success the tree is replaced; on failure the error is returned. */
    method Parse(parse: (string, string) -> Result<T, string>, text: string) returns (err: Option<string>)
      modifies this
      ensures missingKey == old(missingKey)
      ensures parse(name, text).Ok? ==> err == None && tree == Some(parse(name, text).value)
      ensures parse(name, text).Err? ==> err == Some(parse(name, text).error) && tree == old(tree)
    {
      var r := parse(name, text);
      if r.Ok? {
        tree := Some(r.value);
        err := None;
      } else {
        err := Some(r.error);
      }
    }

    /**
     * `.Execute(w, data)`: the engine writes its chunks into `w` one by one,
     * then reports success or the error it stopped with. Every chunk written
     * before a failure stays in `w`.
     */
    method Execute<D>(execute: (T, MissingKey, D) -> Execution, data: D, w: Builder) returns (err: Option<string>)
      requires tree.Some?
      modifies w
      ensures w.buf == old(w.buf) + Concat(execute(tree.value, missingKey, data).writes)
      ensures err == execute(tree.value, missingKey, data).failure
    {
      var x := execute(tree.value, missingKey, data);
      var i := 0;
      while i < |x.writes|
        invariant 0 <= i <= |x.writes|
        invariant w.buf == old(w.buf) + Concat(x.writes[..i])
      {
        ConcatAppend(x.writes[..i], x.writes[i]);
        assert x.writes[..i + 1] == x.writes[..i] + [x.writes[i]];
        w.WriteString(x.writes[i]);
        i := i + 1;
      }
      assert x.writes[..i] == x.writes;
      err := x.failure;
    }
  }
}
