/**
 The shared value type of phone and watch: one named list of options to
 choose from (Common/Models.swift).
 */
module Models {

  /** A UUID: an opaque 128-bit identifier. Generating one is left to the caller. */
  type Uuid = n: nat | n < 0x1_0000_0000_0000_0000_0000_0000_0000_0000

  /**
   A decision list. `id` is a `let` in the source and so fixed once built;
   `name` and `options` are `var`s and are changed with datatype updates.
   Dafny's datatype equality is the structural equality Swift derives from
   `Hashable`.
   */
  datatype DecisionList = DecisionList(id: Uuid, name: string, options: seq<string>)

  /** The initializer: the caller supplies the id; `options` defaults to no options. */
  function NewDecisionList(id: Uuid, name: string, options: seq<string> := []): (l: DecisionList)
    ensures l.id == id && l.name == name && l.options == options
  {
    DecisionList(id, name, options)
  }

  /** Leaving out `options` gives a list with no options. */
  lemma OmittedOptionsAreEmpty(id: Uuid, name: string)
    ensures NewDecisionList(id, name).options == []
    ensures NewDecisionList(id, name) == NewDecisionList(id, name, [])
  {
  }

  /** Two lists are equal exactly when id, name and options all agree. */
  lemma EqualityIsStructural(a: DecisionList, b: DecisionList)
    ensures a == b <==> (a.id == b.id && a.name == b.name && a.options == b.options)
  {
  }

  /** Changing the mutable fields never changes the identifier. */
  lemma EditsKeepId(l: DecisionList, name: string, options: seq<string>)
    ensures l.(name := name).id == l.id && l.(options := options).id == l.id
    ensures l.(name := name).options == l.options && l.(options := options).name == l.name
  {
  }

}
