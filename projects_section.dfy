/** The projects section (src/components/sections/projects-section.tsx): the
    split into the featured project and the support projects, the four tags a
    card shows, and the drawer state a click sets. */
module ProjectsSection {
  import opened Wrappers
  import opened Seqs
  import opened Content
  import opened ProjectDrawer

  predicate NotFeatured(p: Project) {
    !IsFeatured(p)
  }

  /** `projects.find((p) => p.featured)`. */
  function FeaturedProject(ps: seq<Project>): Option<Project> {
    Find(ps, IsFeatured)
  }

  /** `projects.filter((p) => !p.featured)`. */
  function SupportProjects(ps: seq<Project>): seq<Project> {
    Filter(ps, NotFeatured)
  }

  /** The cards the section shows, in order: the featured card, then the
      support cards. */
  function Cards(ps: seq<Project>): seq<Project> {
    (if FeaturedProject(ps).Some? then [FeaturedProject(ps).value] else []) + SupportProjects(ps)
  }

  /** The featured project is the first featured entry, and there is none
      exactly when no entry is featured. */
  lemma FeaturedIsFirst(ps: seq<Project>)
    ensures FeaturedProject(ps).None? <==> forall i :: 0 <= i < |ps| ==> !IsFeatured(ps[i])
    ensures FeaturedProject(ps).Some? ==>
      0 <= FindIndex(ps, IsFeatured) < |ps| &&
      FeaturedProject(ps).value == ps[FindIndex(ps, IsFeatured)] &&
      IsFeatured(ps[FindIndex(ps, IsFeatured)]) &&
      forall j :: 0 <= j < FindIndex(ps, IsFeatured) ==> !IsFeatured(ps[j])
  {
  }

  /** The support projects are exactly the entries that are not featured, in
      table order, each as often as it occurs in the table. */
  lemma SupportIsRest(ps: seq<Project>)
    ensures forall p :: p in SupportProjects(ps) <==> p in ps && !IsFeatured(p)
    ensures forall p :: multiset(SupportProjects(ps))[p] == if IsFeatured(p) then 0 else multiset(ps)[p]
    ensures IsSubsequence(SupportProjects(ps), ps)
  {
    FilterIsSubsequence(ps, NotFeatured);
    FilterMembers(ps, NotFeatured);
    FilterMultiplicity(ps, NotFeatured);
  }

  /** With exactly one featured entry, the cards show every project exactly
      once. */
  lemma OneFeaturedCoversAll(ps: seq<Project>)
    requires Count(ps, IsFeatured) == 1
    ensures multiset(Cards(ps)) == multiset(ps)
  {
    FilterPartition(ps, IsFeatured, NotFeatured);
    FilterSingle(ps, IsFeatured);
    assert Cards(ps) == Filter(ps, IsFeatured) + SupportProjects(ps);
  }

  /** A second featured entry is shown nowhere: not as the featured card,
      which is the first featured entry and has another id, and not among the
      support cards, which leave featured entries out. */
  lemma SecondFeaturedHidden(ps: seq<Project>, i: nat, j: nat)
    requires DistinctIds(ps) && i < j < |ps| && IsFeatured(ps[i]) && IsFeatured(ps[j])
    ensures ps[j] !in Cards(ps)
  {
    FeaturedIsFirst(ps);
    SupportIsRest(ps);
    var k := FindIndex(ps, IsFeatured);
    assert k <= i;
    assert ps[k].id != ps[j].id;
  }

  /** The shipped table shows its featured project first and the other two
      after it, in table order. */
  lemma ShippedCards()
    ensures FeaturedProject(Projects) == Some(Projects[0])
    ensures SupportProjects(Projects) == [Projects[1], Projects[2]]
  {
    ProjectsTable();
    var ps := Projects;
    var last := [ps[2]];
    var rest := [ps[1]] + last;
    assert ps == [ps[0]] + rest;
    FilterCons(ps[2], [], NotFeatured);
    FilterCons(ps[1], last, NotFeatured);
    FilterCons(ps[0], rest, NotFeatured);
    assert Filter([], NotFeatured) == [];
    assert Filter(last, NotFeatured) == last;
  }

  /** `project.tags.slice(0, 4)`. */
  function CardTags(tags: seq<string>): (shown: seq<string>)
    ensures |shown| <= 4
    ensures |shown| == if |tags| < 4 then |tags| else 4
    ensures shown <= tags
  {
    if |tags| <= 4 then tags else tags[..4]
  }

  /** The section's drawer state: `selectedProject` and `drawerOpen`. */
  class Section {
    var selectedProject: Option<Project>
    var drawerOpen: bool

    constructor()
      ensures selectedProject.None? && !drawerOpen
    {
      selectedProject := None;
      drawerOpen := false;
    }

    /** `handleProjectClick(project)`: select the project and open the drawer. */
    method HandleProjectClick(project: Project)
      modifies this
      ensures selectedProject == Some(project) && drawerOpen
    {
      selectedProject := Some(project);
      drawerOpen := true;
    }

    /** The drawer's `onOpenChange`, which is `setDrawerOpen`: the selection
        is kept, so closing leaves the last project in place. */
    method OnOpenChange(open: bool)
      modifies this
      ensures drawerOpen == open && selectedProject == old(selectedProject)
    {
      drawerOpen := open;
    }

    /** What the drawer shows. */
    function View(): Option<DrawerView>
      reads this
    {
      Drawer(selectedProject)
    }
  }
}
