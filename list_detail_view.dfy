/**
 The edit screen of one list (RandomChoice/ListDetailView.swift). Its
 `@Binding var list` is the element of the store's `lists` that the list
 screen passed in, so every edit here writes that element in place. These
 edits do not go through `addList`/`deleteList`: nothing is saved or pushed
 to the watch.
 */
module ListDetail {

  import opened Models
  import opened Trimming
  import opened Offsets
  import opened PhoneData

  /** The options the "Добавить примеры" button appends. */
  const SampleOptions: seq<string> := ["Вариант 1", "Вариант 2", "Вариант 3"]

  class ListDetailView {
    /** The store and position the binding points into. */
    const store: PhoneDataManager
    const index: nat
    var newOption: string

    ghost predicate Valid()
      reads this, store
    {
      index < |store.lists|
    }

    /** The bound list. */
    function List(): DecisionList
      reads this, store
      requires Valid()
    {
      store.lists[index]
    }

    constructor(store: PhoneDataManager, index: nat)
      requires index < |store.lists|
      ensures Valid() && this.store == store && this.index == index && newOption == []
    {
      this.store := store;
      this.index := index;
      newOption := [];
    }

    /** Typing in the name field: only the bound list's name changes. */
    method Rename(name: string)
      requires Valid()
      modifies store`lists
      ensures Valid()
      ensures store.lists == old(store.lists)[index := old(List()).(name := name)]
      ensures List().id == old(List().id) && List().name == name && List().options == old(List().options)
      ensures unchanged(store.defaults)
    {
      store.lists := store.lists[index := store.lists[index].(name := name)];
    }

    /** Typing in the field of option `i`: only that option changes. */
    method EditOption(i: nat, text: string)
      requires Valid() && i < |List().options|
      modifies store`lists
      ensures Valid()
      ensures store.lists == old(store.lists)[index := old(List()).(options := old(List().options)[i := text])]
      ensures List().id == old(List().id) && List().name == old(List().name)
      ensures |List().options| == |old(List().options)| && List().options[i] == text
      ensures forall j :: 0 <= j < |List().options| && j != i ==> List().options[j] == old(List().options[j])
      ensures unchanged(store.defaults)
    {
      var l := store.lists[index];
      store.lists := store.lists[index := l.(options := l.options[i := text])];
    }

    /** The sample button: appends the three sample options after the existing ones. */
    method AddSamples()
      requires Valid()
      modifies store`lists
      ensures Valid()
      ensures store.lists == old(store.lists)[index := old(List()).(options := old(List().options) + SampleOptions)]
      ensures List().id == old(List().id) && List().name == old(List().name)
      ensures List().options[..|old(List().options)|] == old(List().options)
      ensures List().options[|old(List().options)|..] == ["Вариант 1", "Вариант 2", "Вариант 3"]
      ensures unchanged(store.defaults)
    {
      var l := store.lists[index];
      store.lists := store.lists[index := l.(options := l.options + SampleOptions)];
    }

    /**
     `addOption()`: appends the trimmed option field to the bound list and
     clears the field; a field that trims to nothing changes nothing.
     */
    method AddOption()
      requires Valid()
      modifies store`lists, this`newOption
      ensures Valid()
      ensures var t := Trimmed(old(newOption), WhitespacesAndNewlines);
              if t == [] then store.lists == old(store.lists) && newOption == old(newOption)
              else store.lists == old(store.lists)[index := old(List()).(options := old(List().options) + [t])]
                   && newOption == []
      ensures List().id == old(List().id) && List().name == old(List().name)
      ensures unchanged(store.defaults)
    {
      var trimmedOption := Trimmed(newOption, WhitespacesAndNewlines);
      if trimmedOption == [] {
        return;
      }
      var l := store.lists[index];
      store.lists := store.lists[index := l.(options := l.options + [trimmedOption])];
      newOption := [];
    }

    /** `deleteOption(at:)`: removes the bound list's options at `offsets`, the rest keep their order. */
    method DeleteOption(offsets: set<nat>)
      requires Valid() && InBounds(offsets, |List().options|)
      modifies store`lists
      ensures Valid()
      ensures store.lists == old(store.lists)[index := old(List()).(options := RemoveAtOffsets(old(List().options), offsets))]
      ensures List().id == old(List().id) && List().name == old(List().name)
      ensures |List().options| == |old(List().options)| - |offsets|
      ensures unchanged(store.defaults)
    {
      var l := store.lists[index];
      RemovedLength(l.options, offsets);
      store.lists := store.lists[index := l.(options := RemoveAtOffsets(l.options, offsets))];
    }
  }

}
