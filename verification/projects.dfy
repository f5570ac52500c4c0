/** The project gallery's filter: the row of tag buttons and the projects shown for the
    active button. Animation timing is not part of the model; the shown list is a function
    of the active filter alone. */
module Projects {
  import opened Common
  import opened StringOrder

  /** A portfolio project, without its rendered icon. */
  datatype Project = Project(
    title: string,
    description: string,
    image: string,
    tags: seq<string>,
    liveUrl: Option<string>,
    sourceUrl: Option<string>)

  /** The button that shows every project. */
  const AllFilter: string := "All"

  /** `t` is a tag of some project in the list. */
  ghost predicate IsTagOf(projects: seq<Project>, t: string)
  {
    exists i :: 0 <= i < |projects| && t in projects[i].tags
  }

  lemma IsTagOfCons(projects: seq<Project>)
    requires |projects| > 0
    ensures forall t :: IsTagOf(projects, t) <==> t in projects[0].tags || IsTagOf(projects[1..], t)
  {
    forall t
      ensures IsTagOf(projects, t) <==> t in projects[0].tags || IsTagOf(projects[1..], t)
    {
      if IsTagOf(projects[1..], t) {
        var i :| 0 <= i < |projects[1..]| && t in projects[1..][i].tags;
        assert projects[i + 1] == projects[1..][i];
      }
      if IsTagOf(projects, t) && t !in projects[0].tags {
        var i :| 0 <= i < |projects| && t in projects[i].tags;
        assert projects[1..][i - 1] == projects[i];
      }
    }
  }

  /** Adds each tag to a duplicate-free list unless it is already there, as `Set.add` does;
      what was already collected keeps its place. */
  function AddTags(seen: seq<string>, tags: seq<string>): (r: seq<string>)
    requires Distinct(seen)
    ensures Distinct(r)
    ensures forall t :: t in r <==> t in seen || t in tags
    ensures |seen| <= |r| && r[..|seen|] == seen
    decreases |tags|
  {
    if |tags| == 0 then seen
    else
      var next := if tags[0] in seen then seen else seen + [tags[0]];
      assert tags == [tags[0]] + tags[1..];
      var r := AddTags(next, tags[1..]);
      assert r[..|seen|] == r[..|next|][..|seen|];
      r
  }

  /** Adds the tags of every project, in order, to a duplicate-free list. */
  function CollectTags(seen: seq<string>, projects: seq<Project>): (r: seq<string>)
    requires Distinct(seen)
    ensures Distinct(r)
    ensures forall t :: t in r <==> t in seen || IsTagOf(projects, t)
    decreases |projects|
  {
    if |projects| == 0 then seen
    else
      IsTagOfCons(projects);
      CollectTags(AddTags(seen, projects[0].tags), projects[1..])
  }

  /** The filter buttons: "All", then every project tag once, in ascending order. */
  function AllTags(projects: seq<Project>): (r: seq<string>)
    ensures |r| >= 1 && r[0] == AllFilter
    ensures forall t :: t in r[1..] <==> IsTagOf(projects, t)
    ensures StrictlySorted(r[1..])
    ensures Distinct(r[1..])
  {
    var tags := Sort(CollectTags([], projects));
    assert ([AllFilter] + tags)[1..] == tags;
    [AllFilter] + tags
  }

  /** The buttons after "All" are THE ascending list of the project tags: any strictly
      ascending list holding exactly the project tags is that list. */
  lemma AllTagsCharacterized(projects: seq<Project>, buttons: seq<string>)
    requires StrictlySorted(buttons)
    requires forall t :: t in buttons <==> IsTagOf(projects, t)
    ensures AllTags(projects) == [AllFilter] + buttons
  {
    var r := AllTags(projects);
    SortedUnique(r[1..], buttons);
    assert r == [r[0]] + r[1..];
  }

  /** The projects carrying `tag`, in their original order. */
  function KeepTagged(projects: seq<Project>, tag: string): (r: seq<Project>)
    ensures IsSubsequence(r, projects)
    ensures forall p :: multiset(r)[p] == if tag in p.tags then multiset(projects)[p] else 0
    decreases |projects|
  {
    if |projects| == 0 then []
    else
      var rest := KeepTagged(projects[1..], tag);
      assert projects == [projects[0]] + projects[1..];
      if tag in projects[0].tags then
        assert ([projects[0]] + rest)[1..] == rest;
        [projects[0]] + rest
      else
        rest
  }

  /** The projects shown under the active filter button. */
  function FilterProjects(projects: seq<Project>, active: string): (r: seq<Project>)
    ensures active == AllFilter ==> r == projects
    ensures active != AllFilter ==> IsSubsequence(r, projects)
    ensures active != AllFilter ==>
      forall p :: multiset(r)[p] == if active in p.tags then multiset(projects)[p] else 0
    ensures |r| <= |projects|
  {
    if active == AllFilter then projects
    else
      var r := KeepTagged(projects, active);
      SubsequenceLength(r, projects);
      r
  }

  /** Keeping the tagged projects is THE order-preserving sub-list holding every project
      with the tag as often as the list does, and no other project. */
  lemma {:induction false} KeepTaggedCharacterized(projects: seq<Project>, tag: string, r: seq<Project>)
    requires IsSubsequence(r, projects)
    requires forall p :: multiset(r)[p] == if tag in p.tags then multiset(projects)[p] else 0
    ensures r == KeepTagged(projects, tag)
    decreases |projects|
  {
    if |projects| > 0 {
      var q := projects[0];
      var rest := projects[1..];
      assert projects == [q] + rest;
      assert multiset(projects) == multiset{q} + multiset(rest);
      if |r| > 0 && r[0] == q && IsSubsequence(r[1..], rest) {
        assert r == [q] + r[1..];
        assert multiset(r) == multiset{q} + multiset(r[1..]);
        assert tag in q.tags;
        KeepTaggedCharacterized(rest, tag, r[1..]);
      } else {
        assert IsSubsequence(r, rest);
        SubsequenceMultiset(r, rest);
        assert multiset(r)[q] <= multiset(rest)[q];
        assert tag !in q.tags;
        KeepTaggedCharacterized(rest, tag, r);
      }
    }
  }

  /** Choosing the same button twice shows the same projects as choosing it once. */
  lemma FilterIdempotent(projects: seq<Project>, active: string)
    ensures FilterProjects(FilterProjects(projects, active), active) == FilterProjects(projects, active)
  {
    if active != AllFilter {
      var once := KeepTagged(projects, active);
      SubsequenceReflexive(once);
      KeepTaggedCharacterized(once, active, once);
    }
  }

  /** No tag button is empty: each one shows at least one project. */
  lemma EveryTagButtonShowsAProject(projects: seq<Project>, tag: string)
    requires tag in AllTags(projects)[1..]
    ensures |FilterProjects(projects, tag)| > 0
  {
    assert IsTagOf(projects, tag);
    var i :| 0 <= i < |projects| && tag in projects[i].tags;
    if tag != AllFilter {
      assert projects[i] in multiset(projects);
      var r := FilterProjects(projects, tag);
      assert multiset(r)[projects[i]] > 0;
    }
  }
}
