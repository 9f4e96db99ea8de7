/** The checkbox list of tags: a search box over the tags and, for the chosen
    names, a toggle on each checkbox. */
module MultiSelect {
  import opened Seqs
  import opened Text
  import opened Types
  import NameSearch

  function Other(name: string): string -> bool {
    (n: string) => n != name
  }

  /** Flip the membership of `name` in the chosen names: a chosen name is
      removed wherever it occurs, an unchosen one is appended at the end. */
  function Toggle(value: seq<string>, name: string): (r: seq<string>)
    ensures name in r <==> name !in value
    ensures forall n :: n != name ==> (n in r <==> n in value)
    ensures name in value ==> |r| < |value|
    ensures name !in value ==> r == value + [name]
  {
    FilterMultiset(Other(name), value);
    FilterComplement((n: string) => n == name, Other(name), value);
    FilterLength((n: string) => n == name, value);
    if name in value then Filter(Other(name), value) else value + [name]
  }

  /** Apart from `name`, a toggle keeps the chosen names and their order. */
  lemma ToggleKeepsOthers(value: seq<string>, name: string)
    ensures Filter(Other(name), Toggle(value, name)) == Filter(Other(name), value)
  {
    if name in value {
      FilterAllOrNone(Other(name), Filter(Other(name), value));
    } else {
      FilterAppend(Other(name), value, [name]);
      assert Filter(Other(name), [name]) == [] + Filter(Other(name), []);
    }
  }

  /** Toggling a name that was not chosen, and then toggling it again, gives
      back the original choice. */
  lemma ToggleTwice(value: seq<string>, name: string)
    requires name !in value
    ensures Toggle(Toggle(value, name), name) == value
  {
    FilterAppend(Other(name), value, [name]);
    FilterAllOrNone(Other(name), value);
    assert Filter(Other(name), [name]) == [] + Filter(Other(name), []);
  }

  /** Starting from a choice that holds the name, two toggles move it to the
      end and drop its duplicates: the round trip is exact only from a choice
      without the name. */
  lemma ToggleTwiceFromChosen(value: seq<string>, name: string)
    requires name in value
    ensures Toggle(Toggle(value, name), name) == Filter(Other(name), value) + [name]
  {
  }

  /** A checkbox is ticked when its tag's name is among the chosen names, that
      is exactly when clicking it would shorten the choice. */
  predicate Checked(value: seq<string>, tag: Tag)
    ensures Checked(value, tag) <==> |Toggle(value, tag.name)| < |value|
  {
    tag.name in value
  }

  /** Clicking a checkbox toggles its tag's name and so flips its own tick,
      leaving every tag of another name as it was. */
  function CheckboxChange(value: seq<string>, tag: Tag): (r: seq<string>)
    ensures Checked(r, tag) <==> !Checked(value, tag)
    ensures forall other: Tag :: other.name != tag.name ==> (Checked(r, other) <==> Checked(value, other))
  {
    Toggle(value, tag.name)
  }

  /** The checkboxes shown for a search text. */
  function VisibleTags(tags: seq<Tag>, search: string): (r: seq<Tag>)
    ensures forall t :: t in r <==> t in tags && Matches(t.name, search)
    ensures IsSubseq(r, tags)
  {
    NameSearch.SearchTags(tags, search)
  }
}
