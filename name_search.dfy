/** The name search shared by the tag manager, the project manager, the tag
    multi-select and the task form: keep the records whose lower-cased name
    contains the lower-cased search text. */
module NameSearch {
  import opened Seqs
  import opened Text
  import opened Types

  function SearchTags(tags: seq<Tag>, search: string): (r: seq<Tag>)
    ensures forall t :: t in r <==> t in tags && Matches(t.name, search)
    ensures forall t :: multiset(r)[t] == if Matches(t.name, search) then multiset(tags)[t] else 0
    ensures IsSubseq(r, tags)
    ensures search == "" ==> r == tags
  {
    var keep := (t: Tag) => Matches(t.name, search);
    FilterMultiset(keep, tags);
    FilterIsSubseq(keep, tags);
    EmptyQueryMatchesAll();
    FilterAllOrNone(keep, tags);
    Filter(keep, tags)
  }

  function SearchProjects(projects: seq<Project>, search: string): (r: seq<Project>)
    ensures forall p :: p in r <==> p in projects && Matches(p.name, search)
    ensures forall p :: multiset(r)[p] == if Matches(p.name, search) then multiset(projects)[p] else 0
    ensures IsSubseq(r, projects)
    ensures search == "" ==> r == projects
  {
    var keep := (p: Project) => Matches(p.name, search);
    FilterMultiset(keep, projects);
    FilterIsSubseq(keep, projects);
    EmptyQueryMatchesAll();
    FilterAllOrNone(keep, projects);
    Filter(keep, projects)
  }
}
