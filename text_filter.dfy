/** A text filter of the commit log (`text_filter.rs`): a text that is either
    searched for as a substring or compiled as a regex, with or without case
    sensitivity. The regex state is kept as a value, and each update is
    specified by a function of the old state that the lemmas below reason
    about. */
module TextFilter {
  import opened Wrappers
  import opened Text
  import opened Regex

  /** Plain substring search, a regex that did not build, or a built one. */
  datatype RegexState = Disabled(text: string) | Invalid(text: string) | Valid(regex: Regex)

  /** The text the user entered, in every state. */
  function TextOf(state: RegexState): string
  {
    match state
    case Disabled(text) => text
    case Invalid(text) => text
    case Valid(regex) => regex.pattern
  }

  /** A built regex is one the engine builds, in the case mode of the filter. */
  predicate Consistent(engine: Engine, state: RegexState, caseSensitive: bool)
  {
    state.Valid? ==> state.regex.caseInsensitive == !caseSensitive && engine.builds(state.regex.pattern, !caseSensitive)
  }

  /** The state after the text is set to `newText`, and whether that
      failed: in plain mode the text is stored, in regex mode it is built
      and on failure the state becomes invalid with the new text. */
  function AfterSetText(engine: Engine, state: RegexState, caseSensitive: bool, newText: string)
    : (r: (RegexState, Result<(), BuildError>))
    ensures TextOf(r.0) == newText
    ensures r.0.Disabled? <==> state.Disabled?
    ensures r.1.Err? <==> !state.Disabled? && !engine.builds(newText, !caseSensitive)
    ensures r.1.Err? ==> r.0 == Invalid(newText)
    ensures Consistent(engine, r.0, caseSensitive)
  {
    match state
    case Disabled(_) => (Disabled(newText), Ok(()))
    case _ =>
      match Build(engine, newText, !caseSensitive)
      case Ok(regex) => (Valid(regex), Ok(()))
      case Err(e) => (Invalid(newText), Err(e))
  }

  /** The state after case sensitivity is switched to `shouldEnable`: in
      regex mode the text is rebuilt in the new mode, and a regex that no
      longer builds leaves the state invalid. */
  function AfterSetCaseSensitivity(engine: Engine, state: RegexState, shouldEnable: bool)
    : (r: (RegexState, Result<(), BuildError>))
    ensures TextOf(r.0) == TextOf(state)
    ensures r.0.Disabled? <==> state.Disabled?
    ensures r.1.Err? <==> !state.Disabled? && !engine.builds(TextOf(state), !shouldEnable)
    ensures r.1.Err? ==> r.0 == Invalid(TextOf(state))
    ensures Consistent(engine, r.0, shouldEnable)
  {
    match state
    case Disabled(_) => (state, Ok(()))
    case Invalid(text) =>
      (match Build(engine, text, !shouldEnable)
       case Ok(regex) => (Valid(regex), Ok(()))
       case Err(e) => (state, Err(e)))
    case Valid(regex) =>
      match Build(engine, regex.pattern, !shouldEnable)
      case Ok(newRegex) => (Valid(newRegex), Ok(()))
      case Err(e) => (Invalid(regex.pattern), Err(e))
  }

  /** The state after regex mode is switched to `shouldEnable`: enabling it
      builds the plain text (and fails when that does not build), enabling
      it again changes nothing, and disabling it keeps the text. */
  function AfterSetRegexEnabled(engine: Engine, state: RegexState, caseSensitive: bool, shouldEnable: bool)
    : (r: (RegexState, Result<(), BuildError>))
    ensures TextOf(r.0) == TextOf(state)
    ensures !shouldEnable ==> r == (Disabled(TextOf(state)), Ok(()))
    ensures shouldEnable && !state.Disabled? ==> r == (state, Ok(()))
    ensures shouldEnable ==> !r.0.Disabled?
    ensures r.1.Err? <==> shouldEnable && state.Disabled? && !engine.builds(state.text, !caseSensitive)
    ensures Consistent(engine, state, caseSensitive) ==> Consistent(engine, r.0, caseSensitive)
  {
    if shouldEnable then
      match state
      case Disabled(text) =>
        (match Build(engine, text, !caseSensitive)
         case Ok(regex) => (Valid(regex), Ok(()))
         case Err(e) => (Invalid(text), Err(e)))
      case _ => (state, Ok(()))
    else
      match state
      case Disabled(_) => (state, Ok(()))
      case Invalid(text) => (Disabled(text), Ok(()))
      case Valid(regex) => (Disabled(regex.pattern), Ok(()))
  }

  /** Nothing to filter by: an empty text, or a regex that did not build. */
  predicate IsEmptyState(state: RegexState)
  {
    match state
    case Disabled(text) => text == []
    case Invalid(_) => true
    case Valid(regex) => regex.pattern == []
  }

  /** Whether `input` passes: substring search (on lower-cased text and input
      unless case-sensitive) in plain mode, nothing for an invalid regex, and
      the regex's verdict for a built one. */
  predicate MatchesState(engine: Engine, state: RegexState, caseSensitive: bool, input: string)
  {
    match state
    case Disabled(text) =>
      if caseSensitive then Contains(input, text) else Contains(ToLower(input), ToLower(text))
    case Invalid(_) => false
    case Valid(regex) => IsMatch(engine, regex, input)
  }

  /** An empty plain text matches every input, and an invalid regex none. */
  lemma EmptyTextMatchesAll(engine: Engine, caseSensitive: bool, input: string)
    ensures MatchesState(engine, Disabled(""), caseSensitive, input)
    ensures forall text :: !MatchesState(engine, Invalid(text), caseSensitive, input)
  {
    EmptyIsContained(input);
    EmptyIsContained(ToLower(input));
  }

  /** Enabling regex mode and disabling it again gives back plain mode with
      the same text, whether or not the regex built. */
  lemma RegexOnOffKeepsText(engine: Engine, text: string, caseSensitive: bool)
    ensures var on := AfterSetRegexEnabled(engine, Disabled(text), caseSensitive, true).0;
      AfterSetRegexEnabled(engine, on, caseSensitive, false).0 == Disabled(text)
  {
  }

  /** Setting the same text twice gives the state of setting it once. */
  lemma SetTextIdempotent(engine: Engine, state: RegexState, caseSensitive: bool, newText: string)
    ensures var once := AfterSetText(engine, state, caseSensitive, newText);
      AfterSetText(engine, once.0, caseSensitive, newText) == once
  {
  }

  class TextFilter {
    const engine: Engine
    var caseSensitive: bool
    var regexState: RegexState

    predicate Valid()
      reads this
    {
      Consistent(engine, regexState, caseSensitive)
    }

    /** A new filter is case-insensitive, in plain mode, with empty text. */
    constructor (engine: Engine)
      ensures Valid() && this.engine == engine
      ensures !caseSensitive && regexState == Disabled("")
      ensures IsEmpty()
    {
      this.engine := engine;
      caseSensitive := false;
      regexState := Disabled("");
    }

    method SetText(newText: string) returns (r: Result<(), BuildError>)
      modifies this
      ensures (regexState, r) == AfterSetText(engine, old(regexState), old(caseSensitive), newText)
      ensures caseSensitive == old(caseSensitive) && Valid()
    {
      match regexState {
        case Disabled(_) =>
          regexState := Disabled(newText);
        case Invalid(_) =>
          var built := Build(engine, newText, !caseSensitive);
          match built {
            case Ok(newRegex) => regexState := RegexState.Valid(newRegex);
            case Err(e) =>
              regexState := Invalid(newText);
              return Err(e);
          }
        case Valid(_) =>
          var built := Build(engine, newText, !caseSensitive);
          match built {
            case Ok(newRegex) => regexState := RegexState.Valid(newRegex);
            case Err(e) =>
              regexState := Invalid(newText);
              return Err(e);
          }
      }
      r := Ok(());
    }

    /** The flag is set even when rebuilding the regex fails. */
    method SetCaseSensitivityEnabled(shouldEnable: bool) returns (r: Result<(), BuildError>)
      modifies this
      ensures (regexState, r) == AfterSetCaseSensitivity(engine, old(regexState), shouldEnable)
      ensures caseSensitive == shouldEnable && Valid()
    {
      caseSensitive := shouldEnable;
      match regexState {
        case Disabled(_) =>
        case Invalid(text) =>
          var built := Build(engine, text, !shouldEnable);
          match built {
            case Ok(newRegex) => regexState := RegexState.Valid(newRegex);
            case Err(e) => return Err(e);
          }
        case Valid(regex) =>
          var built := Build(engine, regex.pattern, !shouldEnable);
          match built {
            case Ok(newRegex) => regexState := RegexState.Valid(newRegex);
            case Err(e) =>
              regexState := Invalid(regex.pattern);
              return Err(e);
          }
      }
      r := Ok(());
    }

    method SetRegexEnabled(shouldEnable: bool) returns (r: Result<(), BuildError>)
      requires Valid()
      modifies this
      ensures (regexState, r) == AfterSetRegexEnabled(engine, old(regexState), old(caseSensitive), shouldEnable)
      ensures caseSensitive == old(caseSensitive) && Valid()
    {
      if shouldEnable {
        match regexState {
          case Disabled(text) =>
            var built := Build(engine, text, !caseSensitive);
            match built {
              case Ok(regex) => regexState := RegexState.Valid(regex);
              case Err(e) =>
                regexState := Invalid(text);
                return Err(e);
            }
          case Invalid(_) =>
          case Valid(_) =>
        }
      } else {
        match regexState {
          case Disabled(_) =>
          case Invalid(text) => regexState := Disabled(text);
          case Valid(regex) => regexState := Disabled(regex.pattern);
        }
      }
      r := Ok(());
    }

    predicate IsEmpty()
      reads this
    {
      IsEmptyState(regexState)
    }

    predicate IsMatch(input: string)
      reads this
    {
      MatchesState(engine, regexState, caseSensitive, input)
    }
  }
}
