/** The part of the `regex` crate the filters use. Which patterns build and
    which inputs a built regex matches are left to an `Engine` value whose
    two functions stand for the crate, so every property below holds for
    any regex engine. */
module Regex {
  import opened Wrappers

  /** `builds(pattern, caseInsensitive)`: `RegexBuilder::build` succeeds;
      `finds(pattern, caseInsensitive, input)`: the built regex matches
      somewhere in `input`. */
  datatype Engine = Engine(builds: (string, bool) -> bool, finds: (string, bool, string) -> bool)

  /** A built regex: its pattern (`Regex::as_str`) and its case mode. */
  datatype Regex = Regex(pattern: string, caseInsensitive: bool)

  /** The error of a pattern that does not build. */
  datatype BuildError = BuildError(pattern: string)

  /** `RegexBuilder::new(pattern).case_insensitive(caseInsensitive).build()`. */
  function Build(engine: Engine, pattern: string, caseInsensitive: bool): (r: Result<Regex, BuildError>)
    ensures r.Ok? <==> engine.builds(pattern, caseInsensitive)
    ensures r.Ok? ==> r.value == Regex(pattern, caseInsensitive)
    ensures r.Err? ==> r.error == BuildError(pattern)
  {
    if engine.builds(pattern, caseInsensitive) then Ok(Regex(pattern, caseInsensitive)) else Err(BuildError(pattern))
  }

  /** `Regex::is_match`. */
  predicate IsMatch(engine: Engine, regex: Regex, input: string)
  {
    engine.finds(regex.pattern, regex.caseInsensitive, input)
  }
}
