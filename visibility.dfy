/**
 * Section reveal flags for a page. The flags start all true (content is
 * never hidden) and an intersection callback only ever writes true.
 * Observer mechanics (threshold, root margin) are outside the model: the
 * callback receives a batch of entries.
 */
module Visibility {
  import opened Wrappers

  /** An observer entry: the target's `data-section` (absent or a string)
      and whether it intersects the viewport. */
  datatype Entry = Entry(section: Option<string>, isIntersecting: bool)

  /** `sectionName && entry.isIntersecting`: "" is falsy, so an empty
      section name does not qualify either. */
  predicate Qualifies(e: Entry) {
    e.isIntersecting && e.section.Some? && e.section.value != ""
  }

  /** One entry's functional state update: a qualifying entry sets its
      section to true (adding the key if new); every other key keeps its
      value. */
  function Mark(m: map<string, bool>, e: Entry): (r: map<string, bool>)
    ensures r.Keys == m.Keys + (if Qualifies(e) then {e.section.value} else {})
    ensures Qualifies(e) ==> r[e.section.value]
    ensures forall k :: k in m && !(Qualifies(e) && k == e.section.value) ==> r[k] == m[k]
  {
    if Qualifies(e) then m[e.section.value := true] else m
  }

  /** The updates of one callback batch, applied in entry order. No key is
      dropped, and a flag that is false afterwards was present and false
      before: the batch never writes false. */
  function ApplyEntries(m: map<string, bool>, entries: seq<Entry>): (r: map<string, bool>)
    ensures m.Keys <= r.Keys
    ensures forall k :: k in r && !r[k] ==> k in m && !m[k]
    decreases |entries|
  {
    if entries == [] then m
    else Mark(ApplyEntries(m, entries[..|entries| - 1]), entries[|entries| - 1])
  }

  /** The section names the batch marks. */
  function QualifyingSections(entries: seq<Entry>): set<string> {
    set e | e in entries && Qualifies(e) :: e.section.value
  }

  predicate AllTrue(m: map<string, bool>) {
    forall k :: k in m ==> m[k]
  }

  /** A batch marks every qualifying section true (adding it if new) and
      leaves every other key as it was. */
  lemma {:induction false} ApplyEntriesMarksSections(m: map<string, bool>, entries: seq<Entry>)
    ensures var r := ApplyEntries(m, entries);
      && r.Keys == m.Keys + QualifyingSections(entries)
      && (forall k :: k in QualifyingSections(entries) ==> r[k])
      && (forall k :: k in m && k !in QualifyingSections(entries) ==> r[k] == m[k])
  {
    if entries != [] {
      var init, last := entries[..|entries| - 1], entries[|entries| - 1];
      assert entries == init + [last];
      ApplyEntriesMarksSections(m, init);
      assert QualifyingSections(entries) ==
             QualifyingSections(init) + (if Qualifies(last) then {last.section.value} else {});
    }
  }

  /** The result does not depend on the order of the entries. */
  lemma ApplyEntriesOrderIndependent(m: map<string, bool>, entries1: seq<Entry>, entries2: seq<Entry>)
    requires multiset(entries1) == multiset(entries2)
    ensures ApplyEntries(m, entries1) == ApplyEntries(m, entries2)
  {
    forall e ensures e in entries1 <==> e in entries2 {
      assert e in entries1 <==> e in multiset(entries1);
      assert e in entries2 <==> e in multiset(entries2);
    }
    assert QualifyingSections(entries1) == QualifyingSections(entries2);
    ApplyEntriesMarksSections(m, entries1);
    ApplyEntriesMarksSections(m, entries2);
  }

  /** No update writes false: a key that is true stays true. */
  lemma ApplyEntriesNeverClears(m: map<string, bool>, entries: seq<Entry>, k: string)
    requires k in m && m[k]
    ensures k in ApplyEntries(m, entries) && ApplyEntries(m, entries)[k]
  {
    ApplyEntriesMarksSections(m, entries);
  }

  /** Starting all true, the flags stay all true. */
  lemma ApplyEntriesKeepsAllTrue(m: map<string, bool>, entries: seq<Entry>)
    requires AllTrue(m)
    ensures AllTrue(ApplyEntries(m, entries))
  {
    ApplyEntriesMarksSections(m, entries);
  }

  /** The lazy initial state: every key of `initialState` mapped to true,
      whatever value was passed. */
  method InitialVisibility(initialState: map<string, bool>) returns (visible: map<string, bool>)
    ensures visible.Keys == initialState.Keys
    ensures AllTrue(visible)
  {
    visible := map[];
    var todo := initialState.Keys;
    while todo != {}
      invariant todo <= initialState.Keys
      invariant visible.Keys == initialState.Keys - todo
      invariant AllTrue(visible)
      decreases todo
    {
      var key :| key in todo;
      visible := visible[key := true];
      todo := todo - {key};
    }
  }

  /** The hook's state: the flags and the ref table, over element type E. */
  class SectionTracker<E> {
    var isVisible: map<string, bool>
    var refs: map<string, Option<E>>

    predicate Valid()
      reads this
    {
      AllTrue(isVisible)
    }

    constructor (initialState: map<string, bool>)
      ensures Valid()
      ensures isVisible.Keys == initialState.Keys && refs == map[]
    {
      var visible := InitialVisibility(initialState);
      isVisible := visible;
      refs := map[];
    }

    /** `setRef(key)(element)`. */
    method SetRef(key: string, element: Option<E>)
      requires Valid()
      modifies this
      ensures Valid()
      ensures refs == old(refs)[key := element] && isVisible == old(isVisible)
    {
      refs := refs[key := element];
    }

    /** The observer callback over one batch of entries. */
    method OnIntersections(entries: seq<Entry>)
      requires Valid()
      modifies this
      ensures Valid()
      ensures isVisible == ApplyEntries(old(isVisible), entries) && refs == old(refs)
    {
      var i := 0;
      while i < |entries|
        invariant 0 <= i <= |entries|
        invariant isVisible == ApplyEntries(old(isVisible), entries[..i])
        invariant refs == old(refs)
      {
        assert entries[..i + 1][..i] == entries[..i];
        isVisible := Mark(isVisible, entries[i]);
        i := i + 1;
      }
      assert entries[..i] == entries;
      ApplyEntriesKeepsAllTrue(old(isVisible), entries);
    }
  }
}
