/** The skills section (src/components/sections/skills-section.tsx): the split
    of the bento categories into the Development box and the Operations &
    Design box, and the technology rows each category lists. */
module SkillsSection {
  import opened Wrappers
  import opened Seqs
  import opened Content
  import opened TechnologyIcons

  /** The Development box takes the `frontend` and `backend` categories. */
  predicate IsDevelopment(c: BentoCategory) {
    c.id == "frontend" || c.id == "backend"
  }

  /** The Operations & Design box takes `tools-devops` and `design`. */
  predicate IsOperationsDesign(c: BentoCategory) {
    c.id == "tools-devops" || c.id == "design"
  }

  /** `developmentCategories`. */
  function DevelopmentCategories(cs: seq<BentoCategory>): seq<BentoCategory> {
    Filter(cs, IsDevelopment)
  }

  /** `operationsDesignCategories`. */
  function OperationsDesignCategories(cs: seq<BentoCategory>): seq<BentoCategory> {
    Filter(cs, IsOperationsDesign)
  }

  /** Whatever the categories, no category lands in both boxes, each box
      keeps the table order, and a box holds a category exactly when its id
      is one of the box's two ids, as often as the table lists it. */
  lemma BoxesSplit(cs: seq<BentoCategory>)
    ensures forall c :: c in DevelopmentCategories(cs) ==> c !in OperationsDesignCategories(cs)
    ensures forall c :: c in DevelopmentCategories(cs) <==> c in cs && IsDevelopment(c)
    ensures forall c :: c in OperationsDesignCategories(cs) <==> c in cs && IsOperationsDesign(c)
    ensures forall c :: multiset(DevelopmentCategories(cs))[c] == (if IsDevelopment(c) then multiset(cs)[c] else 0)
    ensures forall c ::
      multiset(OperationsDesignCategories(cs))[c] == (if IsOperationsDesign(c) then multiset(cs)[c] else 0)
    ensures IsSubsequence(DevelopmentCategories(cs), cs)
    ensures IsSubsequence(OperationsDesignCategories(cs), cs)
  {
    FilterMultiplicity(cs, IsDevelopment);
    FilterMultiplicity(cs, IsOperationsDesign);
    FilterIsSubsequence(cs, IsDevelopment);
    FilterIsSubsequence(cs, IsOperationsDesign);
    FilterMembers(cs, IsDevelopment);
    FilterMembers(cs, IsOperationsDesign);
  }

  /** Filtering four entries by whether each passes `p`, given as `a`, `b`,
      `c` and `d`. */
  lemma FilterFour<T>(s: seq<T>, p: T -> bool, a: bool, b: bool, c: bool, d: bool)
    requires |s| == 4 && p(s[0]) == a && p(s[1]) == b && p(s[2]) == c && p(s[3]) == d
    ensures Filter(s, p) ==
      (if a then [s[0]] else []) + (if b then [s[1]] else []) +
      (if c then [s[2]] else []) + (if d then [s[3]] else [])
  {
    var last := [s[3]];
    var back := [s[2]] + last;
    var rest := [s[1]] + back;
    assert s == [s[0]] + rest;
    FilterCons(s[3], [], p);
    FilterCons(s[2], last, p);
    FilterCons(s[1], back, p);
    FilterCons(s[0], rest, p);
    assert Filter([], p) == [];
    assert Filter(last, p) == if d then [s[3]] else [];
  }

  /** Four entries of which the first two satisfy `p` and the last two `q`
      split into those two pairs. */
  lemma SplitFour<T>(s: seq<T>, p: T -> bool, q: T -> bool)
    requires |s| == 4 && p(s[0]) && p(s[1]) && !p(s[2]) && !p(s[3])
    requires !q(s[0]) && !q(s[1]) && q(s[2]) && q(s[3])
    ensures Filter(s, p) == [s[0], s[1]] && Filter(s, q) == [s[2], s[3]]
    ensures multiset(Filter(s, p)) + multiset(Filter(s, q)) == multiset(s)
  {
    FilterFour(s, p, true, true, false, false);
    FilterFour(s, q, false, false, true, true);
    assert s == [s[0], s[1]] + [s[2], s[3]];
  }

  /** With the shipped categories, the Development box shows Frontend then
      Backend, the other box Tools & DevOps then Design, and together the two
      boxes show every category exactly once. */
  lemma ShippedBoxes()
    ensures DevelopmentCategories(BentoCategories) == [BentoCategories[0], BentoCategories[1]]
    ensures OperationsDesignCategories(BentoCategories) == [BentoCategories[2], BentoCategories[3]]
    ensures multiset(DevelopmentCategories(BentoCategories)) + multiset(OperationsDesignCategories(BentoCategories))
      == multiset(BentoCategories)
  {
    SplitFour(BentoCategories, IsDevelopment, IsOperationsDesign);
  }

  /** The rows of one category: `category.iconSlugs.map(slug =>
      <TechnologyListItem slug={slug} />)`, each of which renders. */
  function CategoryItems(c: BentoCategory): (items: seq<ListItem>)
    ensures |items| == |c.iconSlugs|
    ensures forall i :: 0 <= i < |items| ==>
      items[i] == TechnologyListItem(c.iconSlugs[i]).value
  {
    seq(|c.iconSlugs|, i requires 0 <= i < |c.iconSlugs| => TechnologyListItem(c.iconSlugs[i]).value)
  }

  /** Every slug of the shipped categories has a name in `iconSlugToName`. */
  predicate SlugsNamed(c: BentoCategory) {
    forall i :: 0 <= i < |c.iconSlugs| ==> c.iconSlugs[i] in IconSlugToName
  }

  /** A category whose slugs all have names shows each of them under that
      name, with the icon of the icon table. */
  lemma NamedItems(c: BentoCategory)
    requires SlugsNamed(c)
    ensures forall i :: 0 <= i < |c.iconSlugs| ==>
      CategoryItems(c)[i].name == IconSlugToName[c.iconSlugs[i]] &&
      CategoryItems(c)[i].icon == TechnologyIconMap[c.iconSlugs[i]].icon
  {
    forall i | 0 <= i < |c.iconSlugs|
      ensures CategoryItems(c)[i].name == IconSlugToName[c.iconSlugs[i]]
      ensures CategoryItems(c)[i].icon == TechnologyIconMap[c.iconSlugs[i]].icon
    {
      NameFollowsIconSlugToName(c.iconSlugs[i]);
      NamesInTable(c.iconSlugs[i]);
    }
  }

  /** Every shipped category's slugs have names, so every row of both boxes
      shows its technology's name from `iconSlugToName`. */
  lemma ShippedSlugsNamed()
    ensures forall k :: 0 <= k < |BentoCategories| ==> SlugsNamed(BentoCategories[k])
  {
  }
}
