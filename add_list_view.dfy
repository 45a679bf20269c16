/**
 The "new list" form (RandomChoice/AddListView.swift): a name field, an
 option field with an add button, the options added so far, and the
 button that hands the new list to the store.
 */
module AddList {

  import opened Models
  import opened Trimming
  import opened Offsets
  import opened PhoneData

  /**
   The add button is enabled when the option field, trimmed of `.whitespaces`,
   is not empty: exactly when some character of it is not a white space.
   */
  function AddEnabled(newOption: string): (r: bool)
    ensures r <==> exists k :: 0 <= k < |newOption| && !IsWhitespace(newOption[k])
  {
    TrimmedEmptyIffBlank(newOption, Whitespaces);
    Trimmed(newOption, Whitespaces) != []
  }

  /**
   The done button is enabled when the name as typed and the options are both
   non-empty: a name of white space alone enables it, a missing option does not.
   */
  function SaveEnabled(listName: string, options: seq<string>): (r: bool)
    ensures r <==> |listName| > 0 && |options| > 0
  {
    listName != [] && options != []
  }

  /** Whenever tapping add would add an option, the add button is enabled. */
  lemma AddEnabledWhenProductive(newOption: string)
    ensures Trimmed(newOption, WhitespacesAndNewlines) != [] ==> AddEnabled(newOption)
  {
    NarrowerSetKeepsMore(newOption);
  }

  /** A line break is not in `.whitespaces`. */
  lemma LineBreakIsTrimmed()
    ensures IsTrimmed("\n", Whitespaces)
  {
    assert !IsWhitespace('\n');
  }

  /** A line break is in `.whitespacesAndNewlines`. */
  lemma LineBreakIsBlank()
    ensures IsBlank("\n", WhitespacesAndNewlines)
  {
    assert IsNewline('\n');
  }

  /**
   The add button checks `.whitespaces` while the add itself trims newlines
   too: a field holding only a line break enables the button, and tapping it
   adds nothing.
   */
  lemma LineBreakEnablesIdleAdd()
    ensures AddEnabled("\n")
    ensures Trimmed("\n", WhitespacesAndNewlines) == []
  {
    LineBreakIsTrimmed();
    TrimmedFixesTrimmed("\n", Whitespaces);
    LineBreakIsBlank();
    TrimmedEmptyIffBlank("\n", WhitespacesAndNewlines);
  }

  /**
   The done button checks the name as typed, the saved name is trimmed: a
   name of spaces passes the gate and is saved as the empty name.
   */
  lemma BlankNamePassesGate(listName: string, options: seq<string>)
    requires listName != [] && IsBlank(listName, WhitespacesAndNewlines) && options != []
    ensures SaveEnabled(listName, options)
    ensures Trimmed(listName, WhitespacesAndNewlines) == []
  {
    TrimmedEmptyIffBlank(listName, WhitespacesAndNewlines);
  }

  /**
   The list `saveList()` builds from the form: a fresh identifier, the name
   trimmed of `.whitespacesAndNewlines`, the options as they are. Behind the
   done button it always has options.
   */
  function SavedList(id: Uuid, listName: string, options: seq<string>): (r: DecisionList)
    ensures r.id == id && r.options == options
    ensures SaveEnabled(listName, options) ==> r.options != []
  {
    NewDecisionList(id, Trimmed(listName, WhitespacesAndNewlines), options)
  }

  class AddListView {
    const dataManager: PhoneDataManager
    var listName: string
    var newOption: string
    var options: seq<string>
    /** Set once the form has been closed (`dismiss()`). */
    var dismissed: bool

    /** Options only arrive through `addOption`, so each is non-empty and trimmed. */
    ghost predicate Valid()
      reads this
    {
      forall k :: 0 <= k < |options| ==> options[k] != [] && IsTrimmed(options[k], WhitespacesAndNewlines)
    }

    constructor(dataManager: PhoneDataManager)
      ensures Valid()
      ensures this.dataManager == dataManager
      ensures listName == [] && newOption == [] && options == [] && !dismissed
    {
      this.dataManager := dataManager;
      listName := [];
      newOption := [];
      options := [];
      dismissed := false;
    }

    /**
     `addOption()`: appends the trimmed option field and clears it; a field
     that trims to nothing changes nothing.
     */
    method AddOption()
      requires Valid()
      modifies this`options, this`newOption
      ensures Valid()
      ensures var t := Trimmed(old(newOption), WhitespacesAndNewlines);
              if t == [] then options == old(options) && newOption == old(newOption)
              else options == old(options) + [t] && newOption == []
    {
      var trimmedOption := Trimmed(newOption, WhitespacesAndNewlines);
      if trimmedOption == [] {
        return;
      }
      options := options + [trimmedOption];
      newOption := [];
    }

    /** `deleteOption(at:)`: removes the options at `offsets`, the rest keep their order. */
    method DeleteOption(offsets: set<nat>)
      requires Valid() && InBounds(offsets, |options|)
      modifies this`options
      ensures Valid()
      ensures options == RemoveAtOffsets(old(options), offsets)
      ensures |options| == |old(options)| - |offsets|
    {
      RemovedLength(options, offsets);
      options := RemoveAtOffsets(options, offsets);
    }

    /**
     `saveList()`: hands the store one new list named by the trimmed name
     field, holding the options as they are, then closes the form. `id` is
     the identifier the new list gets. Only the done button calls it, and
     only while `SaveEnabled` holds, so a saved list is never without options.
     */
    method SaveList(id: Uuid)
      requires SaveEnabled(listName, options)
      modifies dataManager`lists, dataManager.defaults, dataManager.session, this`dismissed
      ensures dataManager.lists == old(dataManager.lists) + [SavedList(id, listName, options)]
      ensures dataManager.defaults.slots == Persisted(old(dataManager.defaults.slots), dataManager.encoder.Encode(dataManager.lists))
      ensures dataManager.PushedToWatch()
      ensures dismissed
    {
      var newList := SavedList(id, listName, options);
      dataManager.AddList(newList);
      dismissed := true;
    }

    /** The cancel button: closes the form, the store is not touched. */
    method Cancel()
      modifies this`dismissed
      ensures dismissed
    {
      dismissed := true;
    }
  }

}
