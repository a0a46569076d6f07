/** The author filter of the commit log (`commit_log_model_filter.rs`): the
    text typed in the author entry and the regex toggle decide which commit
    rows stay visible; every change asks for a refilter through the channel,
    and a refilter reports its end the same way. */
module CommitLogModelFilter {
  import opened Text
  import opened Regex
  import E = Events

  /** The row-visibility rule, given the stored (already lower-cased) text:
      an empty text shows every row; in regex mode a row is shown when the
      case-insensitive regex builds and matches its author, and in plain mode
      when the lower-cased author contains the text. */
  predicate Visible(engine: Engine, text: string, useRegex: bool, author: string)
  {
    if text == [] then true
    else if useRegex then
      (match Build(engine, text, true)
       case Ok(regex) => IsMatch(engine, regex, author)
       case Err(_) => false)
    else Contains(ToLower(author), text)
  }

  /** An empty text shows all rows; a pattern that does not build hides them
      all; in plain mode visibility is substring search on the lower-cased
      author. */
  lemma VisibleRules(engine: Engine, text: string, useRegex: bool, author: string)
    ensures text == [] ==> Visible(engine, text, useRegex, author)
    ensures text != [] && useRegex && !engine.builds(text, true) ==> !Visible(engine, text, useRegex, author)
    ensures text != [] && useRegex && engine.builds(text, true) ==>
              (Visible(engine, text, useRegex, author) <==> engine.finds(text, true, author))
    ensures !useRegex ==> (Visible(engine, text, useRegex, author) <==> Contains(ToLower(author), text))
  {
    if text == [] {
      EmptyIsContained(ToLower(author));
    }
  }

  /** In plain mode the filter ignores the case of the author: an author and
      its lower-cased form are shown alike. */
  lemma PlainIgnoresAuthorCase(engine: Engine, text: string, author: string)
    ensures Visible(engine, text, false, ToLower(author)) == Visible(engine, text, false, author)
  {
    var lower := ToLower(author);
    assert ToLower(lower) == lower by {
      forall i | 0 <= i < |lower|
        ensures ToLower(lower)[i] == lower[i]
      {
        assert lower[i] == LowerChar(author[i]);
      }
    }
  }

  /** The messages this filter answers; anything else makes the program
      panic. */
  predicate Handles(source: E.Source, event: E.Event)
  {
    event.RefilterRequested? || event.TextEntered?
    || (source == E.Source.CommitLogAuthorFilterRegexButton && event.Toggled?)
  }

  class CommitLogModelFilter {
    const engine: Engine
    /** The author filter, shared with the visibility function. */
    var text: string
    var useRegex: bool
    /** The messages sent, oldest first. */
    var sent: seq<E.Message>
    /** How many times the rows were filtered again. */
    var refilters: nat

    constructor (engine: Engine)
      ensures this.engine == engine && text == [] && !useRegex && sent == [] && refilters == 0
    {
      this.engine := engine;
      text := [];
      useRegex := false;
      sent := [];
      refilters := 0;
    }

    /** Whether a row with this author is shown now. */
    predicate IsVisible(author: string)
      reads this
    {
      Visible(engine, text, useRegex, author)
    }

    method Handle(source: E.Source, event: E.Event)
      requires Handles(source, event)
      modifies this
      ensures event.RefilterRequested? ==>
                text == old(text) && useRegex == old(useRegex) && refilters == old(refilters) + 1
                && sent == old(sent) + [(E.Source.CommitLogModelFilter, E.Event.RefilterEnded)]
      ensures event.TextEntered? ==>
                text == ToLower(event.text) && useRegex == old(useRegex) && refilters == old(refilters)
                && sent == old(sent) + [(E.Source.CommitLogModelFilter, E.Event.RefilterRequested)]
      ensures event.Toggled? ==>
                text == old(text) && useRegex == !old(useRegex) && refilters == old(refilters)
                && sent == old(sent) + [(E.Source.CommitLogModelFilter, E.Event.RefilterRequested)]
    {
      match event {
        case RefilterRequested => OnRefilterRequested();
        case TextEntered(filter) => OnCommitAuthorFilterChanged(filter);
        case Toggled(_) => OnRegexToggled();
      }
    }

    /** The text is stored lower-cased. */
    method OnCommitAuthorFilterChanged(filter: string)
      modifies this
      ensures text == ToLower(filter) && useRegex == old(useRegex) && refilters == old(refilters)
      ensures sent == old(sent) + [(E.Source.CommitLogModelFilter, E.Event.RefilterRequested)]
    {
      text := ToLower(filter);
      RequestRefilter();
    }

    method OnRefilterRequested()
      modifies this
      ensures text == old(text) && useRegex == old(useRegex) && refilters == old(refilters) + 1
      ensures sent == old(sent) + [(E.Source.CommitLogModelFilter, E.Event.RefilterEnded)]
    {
      refilters := refilters + 1;
      sent := sent + [(E.Source.CommitLogModelFilter, E.Event.RefilterEnded)];
    }

    method OnRegexToggled()
      modifies this
      ensures text == old(text) && useRegex == !old(useRegex) && refilters == old(refilters)
      ensures sent == old(sent) + [(E.Source.CommitLogModelFilter, E.Event.RefilterRequested)]
    {
      useRegex := !useRegex;
      RequestRefilter();
    }

    method RequestRefilter()
      modifies this
      ensures text == old(text) && useRegex == old(useRegex) && refilters == old(refilters)
      ensures sent == old(sent) + [(E.Source.CommitLogModelFilter, E.Event.RefilterRequested)]
    {
      sent := sent + [(E.Source.CommitLogModelFilter, E.Event.RefilterRequested)];
    }
  }
}
