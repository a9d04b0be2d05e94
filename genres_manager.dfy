/** The genre editor: a name that is blank once trimmed is not submitted, the trimmed name is what
    is sent, the input is cleared only by a successful create, and the add button is disabled for
    an exactly empty input or while a request is pending. */
module GenresManager {
  import opened Results
  import opened Text

  /** The add button's `disabled`: `!newGenreName || isPending`. */
  predicate AddDisabled(newGenreName: string, isPending: bool)
  {
    newGenreName == "" || isPending
  }

  /** `handleSubmit`'s guard `if (!newGenreName.trim()) return`. */
  predicate Submits(newGenreName: string)
  {
    Trim(newGenreName) != ""
  }

  /** A name is submitted exactly when it holds a character other than white space. */
  lemma SubmitsIff(newGenreName: string)
    ensures Submits(newGenreName) <==> exists i :: 0 <= i < |newGenreName| && !IsJsSpace(newGenreName[i])
  {
    TrimEmptyIff(newGenreName);
  }

  /** A white-space-only input such as " " enables the button, yet submitting it does nothing. */
  lemma BlankInputEnabledButIgnored()
    ensures !AddDisabled(" ", false) && !Submits(" ")
  {
    TrimEmptyIff(" ");
  }

  /** A submitted name has no white space at either end and is the input without its outer
      white space. */
  lemma SentNameShape(newGenreName: string)
    requires Submits(newGenreName)
    ensures var sent := Trim(newGenreName);
      !IsJsSpace(sent[0]) && !IsJsSpace(sent[|sent| - 1]) && Trim(sent) == sent
  {
    TrimShape(newGenreName);
    TrimIdempotent(newGenreName);
  }

  /** The genre page's input state. */
  class GenreEditor {
    var newGenreName: string

    constructor ()
      ensures newGenreName == ""
    {
      newGenreName := "";
    }

    /** The input's `onChange`. */
    method SetName(value: string)
      modifies this
      ensures newGenreName == value
    {
      newGenreName := value;
    }

    /** `handleSubmit`. `sent` is the name given to `createGenre`, `None` when the guard returns
        early; `outcome` is how that call ended. Only a success clears the input. */
    method HandleSubmit(outcome: CallOutcome) returns (sent: Option<string>)
      modifies this
      ensures sent == if Submits(old(newGenreName)) then Some(Trim(old(newGenreName))) else None
      ensures newGenreName == if sent.Some? && outcome.Succeeded? then "" else old(newGenreName)
    {
      var name := Trim(newGenreName);
      if name == "" {
        return None;
      }
      sent := Some(name);
      if outcome.Succeeded? {
        newGenreName := "";
      }
    }
  }
}
