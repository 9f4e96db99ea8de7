/** The tag manager: a form (name and colour), a search box, and an edit mode
    that decides whether submitting the form adds a tag or updates one. Each
    change is computed from the tag list it was given and handed back whole,
    for the board to store. */
module TagDialog {
  import opened Seqs
  import opened Text
  import opened Types
  import NameSearch

  /** The colour the form starts with and returns to on every reset. */
  const DefaultColor: string := "#9b87f5"

  function HasId(id: string): Tag -> bool {
    (t: Tag) => t.id == id
  }

  function LacksId(id: string): Tag -> bool {
    (t: Tag) => t.id != id
  }

  function Recolor(name: string, color: string): Tag -> Tag {
    (t: Tag) => t.(name := name, color := color)
  }

  /** Adding: the new tag goes at the end, every existing tag stays where it was. */
  function AddedTags(tags: seq<Tag>, name: string, color: string, id: string): (r: seq<Tag>)
    ensures |r| == |tags| + 1
    ensures r[..|tags|] == tags && r[|tags|] == Tag(id, name, color)
  {
    tags + [Tag(id, name, color)]
  }

  /** Editing: the tags with the edited id take the form's name and colour and
      keep their id and place; all others are untouched. */
  function EditedTags(tags: seq<Tag>, id: string, name: string, color: string): (r: seq<Tag>)
    ensures |r| == |tags|
    ensures forall i :: 0 <= i < |tags| ==> r[i].id == tags[i].id
    ensures forall i :: 0 <= i < |tags| && tags[i].id == id ==> r[i] == Tag(id, name, color)
    ensures forall i :: 0 <= i < |tags| && tags[i].id != id ==> r[i] == tags[i]
  {
    MapWhere(HasId(id), Recolor(name, color), tags)
  }

  /** Deleting: every tag with the id goes, the rest keep their relative order. */
  function DeletedTags(tags: seq<Tag>, id: string): (r: seq<Tag>)
    ensures forall t :: t in r <==> t in tags && t.id != id
    ensures IsSubseq(r, tags)
    ensures |r| == |tags| - |Filter(HasId(id), tags)|
  {
    FilterMultiset(LacksId(id), tags);
    FilterIsSubseq(LacksId(id), tags);
    FilterComplement(HasId(id), LacksId(id), tags);
    Filter(LacksId(id), tags)
  }

  /** Deleting a freshly added tag by its id gives back the list it was added to. */
  lemma AddThenDelete(tags: seq<Tag>, name: string, color: string, id: string)
    requires forall i :: 0 <= i < |tags| ==> tags[i].id != id
    ensures DeletedTags(AddedTags(tags, name, color, id), id) == tags
  {
    FilterAppend(LacksId(id), tags, [Tag(id, name, color)]);
    FilterAllOrNone(LacksId(id), tags);
    assert Filter(LacksId(id), [Tag(id, name, color)]) == [] + Filter(LacksId(id), []);
  }

  /** Deleting an edited tag is deleting it: the edit leaves no trace. */
  lemma EditThenDelete(tags: seq<Tag>, id: string, name: string, color: string)
    ensures DeletedTags(EditedTags(tags, id, name, color), id) == DeletedTags(tags, id)
  {
    FilterAfterMapWhere(HasId(id), Recolor(name, color), LacksId(id), tags);
  }

  /** Submitting the same edit twice has the effect of submitting it once, and
      an edit aimed at an id no tag has changes nothing. */
  lemma EditIdempotent(tags: seq<Tag>, id: string, name: string, color: string)
    ensures EditedTags(EditedTags(tags, id, name, color), id, name, color) == EditedTags(tags, id, name, color)
    ensures (forall i :: 0 <= i < |tags| ==> tags[i].id != id) ==> EditedTags(tags, id, name, color) == tags
  {
    MapWhereIdempotent(HasId(id), Recolor(name, color), tags);
  }

  /** Deleting twice is deleting once. */
  lemma DeleteIdempotent(tags: seq<Tag>, id: string)
    ensures DeletedTags(DeletedTags(tags, id), id) == DeletedTags(tags, id)
  {
    FilterAllOrNone(LacksId(id), DeletedTags(tags, id));
  }

  class Dialog {
    /** The id of the tag being edited; `None` is `null`. */
    var editTagId: Option<string>
    /** The form's current values. */
    var name: string
    var color: string
    var tagSearch: string

    constructor ()
      ensures editTagId == None && name == "" && color == DefaultColor && tagSearch == ""
    {
      editTagId := None;
      name := "";
      color := DefaultColor;
      tagSearch := "";
    }

    /** Edit mode as the code tests it: `editTagId` is truthy, so neither
        `null` nor the empty string. */
    predicate Editing()
      reads this
    {
      editTagId.Some? && editTagId.value != ""
    }

    /** The user types into the form. */
    method EnterValues(newName: string, newColor: string)
      modifies this
      ensures name == newName && color == newColor
      ensures editTagId == old(editTagId) && tagSearch == old(tagSearch)
    {
      name, color := newName, newColor;
    }

    /** Add the form's tag under a fresh id, then reset the form. */
    method AddTag(tags: seq<Tag>, id: string) returns (updated: seq<Tag>)
      modifies this
      ensures updated == AddedTags(tags, old(name), old(color), id)
      ensures name == "" && color == DefaultColor
      ensures editTagId == old(editTagId) && tagSearch == old(tagSearch)
    {
      updated := AddedTags(tags, name, color, id);
      name, color := "", DefaultColor;
    }

    /** Apply the form to the tag being edited, leave edit mode and reset the
        form; outside edit mode nothing is handed back and nothing changes. */
    method EditTag(tags: seq<Tag>) returns (updated: Option<seq<Tag>>)
      modifies this
      ensures !old(Editing()) ==> updated == None && editTagId == old(editTagId) && name == old(name) && color == old(color)
      ensures old(Editing()) ==> updated == Some(EditedTags(tags, old(editTagId).value, old(name), old(color)))
      ensures old(Editing()) ==> editTagId == None && name == "" && color == DefaultColor
      ensures tagSearch == old(tagSearch)
    {
      if !Editing() {
        return None;
      }
      updated := Some(EditedTags(tags, editTagId.value, name, color));
      editTagId := None;
      name, color := "", DefaultColor;
    }

    /** Submitting edits in edit mode and adds otherwise; either way the
        form ends up reset. */
    method Submit(tags: seq<Tag>, freshId: string) returns (updated: seq<Tag>)
      modifies this
      ensures old(Editing()) ==> updated == EditedTags(tags, old(editTagId).value, old(name), old(color)) && editTagId == None
      ensures !old(Editing()) ==> updated == AddedTags(tags, old(name), old(color), freshId) && editTagId == old(editTagId)
      ensures name == "" && color == DefaultColor && tagSearch == old(tagSearch)
    {
      if Editing() {
        var edited := EditTag(tags);
        updated := edited.value;
      } else {
        updated := AddTag(tags, freshId);
      }
    }

    /** Enter edit mode for a tag and load its name and colour into the form. */
    method EditClick(tag: Tag)
      modifies this
      ensures editTagId == Some(tag.id) && name == tag.name && color == tag.color
      ensures tagSearch == old(tagSearch)
    {
      editTagId := Some(tag.id);
      name, color := tag.name, tag.color;
    }

    /** Leave edit mode and reset the form. */
    method CancelEdit()
      modifies this
      ensures editTagId == None && !Editing() && name == "" && color == DefaultColor
      ensures tagSearch == old(tagSearch)
    {
      editTagId := None;
      name, color := "", DefaultColor;
    }

    method SetSearch(text: string)
      modifies this
      ensures tagSearch == text
      ensures editTagId == old(editTagId) && name == old(name) && color == old(color)
    {
      tagSearch := text;
    }

    /** The tags listed under the search box. */
    function FilteredTags(tags: seq<Tag>): (r: seq<Tag>)
      reads this
      ensures forall t :: t in r <==> t in tags && Matches(t.name, tagSearch)
      ensures tagSearch == "" ==> r == tags
    {
      NameSearch.SearchTags(tags, tagSearch)
    }
  }
}
