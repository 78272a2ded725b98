/**
 * `main` (main.go:40-45): a run that returned an error becomes one diagnostic
 * on standard error, the fixed prefix followed by the error's text with no
 * newline added, and exit code 1; a run without error exits with 0.
 */
module Cli {
  import opened Wrappers
  import opened Resolver
  import opened Render

  /** The tag `main` puts in front of every error. */
  const Prefix := "failed to execute template: "

  /** What the process leaves behind: its two output streams and its exit code. */
  datatype Process = Process(stdout: string, stderr: string, exitCode: int)

  /** How `main` turns the outcome of `run` into the process's observable result. */
  function Terminate(o: Outcome): (p: Process)
    ensures p.stdout == o.stdout
    ensures p.exitCode == (if o.err.None? then 0 else 1)
    ensures o.err.None? ==> p.stderr == ""
    ensures o.err.Some? ==>
      && |Prefix| <= |p.stderr|
      && p.stderr[..|Prefix|] == Prefix
      && p.stderr[|Prefix|..] == Message(o.err.value)
  {
    match o.err
    case None => Process(o.stdout, "", 0)
    case Some(e) => Process(o.stdout, Prefix + Message(e), 1)
  }

  /**
   * The program: `run`, then `main`'s handling of its error. Standard output
   * is only ever written by `run`, standard error only by `main`.
   */
  method Program<F, D, T>(f: Flags, env: Library.Env<F, D, T>) returns (stdout: string, stderr: string, exitCode: int)
    ensures Process(stdout, stderr, exitCode) == Terminate(Behaviour(f, env))
  {
    var calls, out, err := Run(f, env);
    stdout := out;
    if err.Some? {
      stderr := Prefix + Message(err.value);
      exitCode := 1;
    } else {
      stderr := "";
      exitCode := 0;
    }
  }

  /**
   * All or nothing for the whole process: either the rendered text is on
   * standard output, standard error is empty and the exit code is 0, or
   * standard output is empty, there is one diagnostic and the exit code is 1.
   */
  lemma AllOrNothing<F, D, T>(f: Flags, env: Library.Env<F, D, T>)
    ensures var p := Terminate(Behaviour(f, env));
      || (p.exitCode == 0 && p.stdout != "" && p.stderr == "")
      || (p.exitCode == 1 && p.stdout == "" && p.stderr != "")
  {
  }

  /**
   * A failed check: nothing on standard output, the check's own message after
   * the prefix, exit code 1, and no collaborator called.
   */
  lemma ConfigErrorReported<F, D, T>(f: Flags, env: Library.Env<F, D, T>)
    requires Resolve(f).Invalid?
    ensures Behaviour(f, env).calls == []
    ensures Terminate(Behaviour(f, env)) == Process("", Prefix + ErrorText(Resolve(f).error), 1)
  {
  }

  /**
   * Two JSON inputs and no template: the missing-template check fires first,
   * so this is the error reported, not the ambiguity.
   */
  lemma TwoJsonWithoutTemplate<F, D, T>(env: Library.Env<F, D, T>)
    ensures Behaviour(Flags("{\"a\":1}", "data.json", "", ""), env).calls == []
    ensures Terminate(Behaviour(Flags("{\"a\":1}", "data.json", "", ""), env))
      == Process("", "failed to execute template: can't find template", 1)
  {
  }
}
