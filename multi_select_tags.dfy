/** The tag buttons: every tag is shown, in list order, and clicking one
    toggles its name among the chosen names. */
module MultiSelectTags {
  import opened Types
  import MultiSelect

  /** A button is highlighted when its tag's name is among the chosen names:
      for the same choice, exactly the tags whose checkboxes are ticked. */
  predicate Highlighted(value: seq<string>, tag: Tag)
    ensures Highlighted(value, tag) <==> MultiSelect.Checked(value, tag)
  {
    tag.name in value
  }

  /** Clicking a tag: a highlighted one loses every occurrence of its name, any
      other has its name appended at the end. */
  function TagClick(value: seq<string>, tag: Tag): (r: seq<string>)
    ensures Highlighted(r, tag) <==> !Highlighted(value, tag)
    ensures Highlighted(value, tag) ==> forall i :: 0 <= i < |r| ==> r[i] != tag.name
    ensures !Highlighted(value, tag) ==> r == value + [tag.name]
  {
    MultiSelect.Toggle(value, tag.name)
  }

  /** Clicking an unhighlighted tag twice gives back the original choice. */
  lemma ClickTwice(value: seq<string>, tag: Tag)
    requires !Highlighted(value, tag)
    ensures TagClick(TagClick(value, tag), tag) == value
  {
    MultiSelect.ToggleTwice(value, tag.name);
  }
}
