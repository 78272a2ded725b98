/**
 * The input resolver of `run` (main.go:57-68, and the literal-or-file choices
 * at main.go:72 and main.go:97): four flag strings, where a flag counts as given
 * exactly when its string is non-empty, are checked in a fixed order and turned
 * into one JSON source and one template source.
 */
module Resolver {

  /** The four flag values `-json`, `-json-file`, `-template`, `-template-file`. */
  datatype Flags = Flags(json: string, jsonFile: string, template: string, templateFile: string)

  /** Where one input comes from: the flag's own text, or the file a path names. */
  datatype Source = Literal(text: string) | File(path: string)

  /** One error per check, in the order the checks run. */
  datatype ConfigError = MissingJson | MissingTemplate | TwoJson | TwoTemplates

  datatype Resolution = Resolved(json: Source, template: Source) | Invalid(error: ConfigError)

  /** A flag is given exactly when its string is non-empty: `-json ""` is absent. */
  predicate Present(s: string) {
    s != ""
  }

  /** The text of the error each check returns. */
  function ErrorText(e: ConfigError): string {
    match e
    case MissingJson => "can't find json"
    case MissingTemplate => "can't find template"
    case TwoJson => "you can't have two json"
    case TwoTemplates => "you can't have two templates"
  }

  /** `s` is the one source of a literal/path pair of which exactly one is given. */
  predicate Picks(literal: string, path: string, s: Source) {
    match s
    case Literal(t) => t == literal && Present(literal) && !Present(path)
    case File(p) => p == path && Present(path) && !Present(literal)
  }

  /**
   * The four checks of main.go:57-68, first failing one wins; then the literal
   * is chosen when it is given and the file otherwise (main.go:72, 97).
   */
  function Resolve(f: Flags): (r: Resolution)
    // check 1: no JSON at all, whatever the template flags say
    ensures r == Invalid(MissingJson) <==> !Present(f.json) && !Present(f.jsonFile)
    // check 2 comes before the ambiguity checks
    ensures r == Invalid(MissingTemplate) <==>
      (Present(f.json) || Present(f.jsonFile)) && !Present(f.template) && !Present(f.templateFile)
    // check 3: two JSON sources are refused, never silently preferred
    ensures r == Invalid(TwoJson) <==>
      Present(f.json) && Present(f.jsonFile) && (Present(f.template) || Present(f.templateFile))
    // check 4
    ensures r == Invalid(TwoTemplates) <==>
      Present(f.json) != Present(f.jsonFile) && Present(f.template) && Present(f.templateFile)
    // validation passes exactly when each pair has exactly one member given
    ensures r.Resolved? <==>
      Present(f.json) != Present(f.jsonFile) && Present(f.template) != Present(f.templateFile)
    ensures r.Resolved? ==> Picks(f.json, f.jsonFile, r.json) && Picks(f.template, f.templateFile, r.template)
  {
    if f.json == "" && f.jsonFile == "" then Invalid(MissingJson)
    else if f.template == "" && f.templateFile == "" then Invalid(MissingTemplate)
    else if f.json != "" && f.jsonFile != "" then Invalid(TwoJson)
    else if f.template != "" && f.templateFile != "" then Invalid(TwoTemplates)
    else
      Resolved(if f.json != "" then Literal(f.json) else File(f.jsonFile),
               if f.template != "" then Literal(f.template) else File(f.templateFile))
  }

  /** The four error texts are pairwise distinct, so the message alone names the failed check. */
  lemma ErrorTextsDistinct(a: ConfigError, b: ConfigError)
    ensures ErrorText(a) == ErrorText(b) ==> a == b
  {
  }
}
