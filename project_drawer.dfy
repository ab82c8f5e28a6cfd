/** The project detail drawer (src/components/project-drawer.tsx): which
    technologies get a logo, how the stack splits into a logo row and a badge
    row, and which sections and footer link the drawer shows. */
module ProjectDrawer {
  import opened Wrappers
  import opened Seqs
  import opened Content

  /** `TECH_ICON_MAP`: technology name to Simple Icons slug. */
  const TechIconMap: map<string, string> := map[
    "Next.js" := "nextdotjs",
    "Next.js 14" := "nextdotjs",
    "TypeScript" := "typescript",
    "Tailwind CSS" := "tailwindcss",
    "React" := "react",
    "Node.js" := "nodedotjs",
    "PostgreSQL" := "postgresql",
    "Prisma ORM" := "prisma",
    "Vercel AI SDK" := "vercel",
    "OpenAI GPT-4 API" := "openai",
    "Solidity" := "solidity",
    "Docker" := "docker",
    "Google Cloud" := "googlecloud",
    "Git" := "git",
    "Figma" := "figma"
  ]

  const IconBase: string := "https://cdn.simpleicons.org/"
  const White: string := "/FFFFFF"

  /** `getIconUrl(slug)`: the white icon of `slug`. */
  function IconUrl(slug: string): string {
    IconBase + slug + White
  }

  /** The slug inside an icon address. */
  function SlugOfIconUrl(url: string): string {
    if |url| >= |IconBase| + |White| then url[|IconBase|..|url| - |White|] else ""
  }

  /** The icon address names the slug between the CDN base and the white tint,
      and the slug can be read back out of it. */
  lemma IconUrlRoundTrip(slug: string)
    ensures |IconUrl(slug)| == |IconBase| + |slug| + |White|
    ensures IconUrl(slug)[..|IconBase|] == IconBase
    ensures IconUrl(slug)[|IconUrl(slug)| - |White|..] == White
    ensures SlugOfIconUrl(IconUrl(slug)) == slug
  {
    var u := IconUrl(slug);
    assert u[|IconBase|..|u| - |White|] == slug;
  }

  /** `hasLogo(tech)`: `tech` is a key of `TECH_ICON_MAP`. */
  predicate HasLogo(tech: string) {
    tech in TechIconMap
  }

  predicate HasNoLogo(tech: string) {
    !HasLogo(tech)
  }

  /** A logo in the logo row. */
  datatype Logo = Logo(src: string, alt: string)

  /** `TechLogo`: nothing unless the name maps to a non-empty slug. */
  function TechLogo(tech: string): (l: Option<Logo>)
    ensures l.Some? <==> HasLogo(tech) && TechIconMap[tech] != ""
    ensures l.Some? ==> l.value.alt == tech && l.value.src == IconUrl(TechIconMap[tech])
    ensures l.Some? ==> SlugOfIconUrl(l.value.src) == TechIconMap[tech]
  {
    if tech in TechIconMap && TechIconMap[tech] != "" then
      IconUrlRoundTrip(TechIconMap[tech]);
      Some(Logo(IconUrl(TechIconMap[tech]), tech))
    else None
  }

  /** No slug of the table is empty, so every name with a logo draws one. */
  lemma LogosDrawn(tech: string)
    requires HasLogo(tech)
    ensures TechLogo(tech).Some?
  {
  }

  /** The two rows of "The Stack". */
  datatype StackRows = StackRows(logos: seq<string>, badges: seq<string>)

  /** `stack.filter(hasLogo)` and `stack.filter(tech => !hasLogo(tech))`. */
  function SplitStack(stack: seq<string>): StackRows {
    StackRows(Filter(stack, HasLogo), Filter(stack, HasNoLogo))
  }

  /** The logo row is the stack's names with a logo, the badge row the rest,
      each in stack order, and every name lands in exactly one row as often as
      it occurs in the stack. */
  lemma SplitStackPartition(stack: seq<string>)
    ensures forall t :: t in SplitStack(stack).logos <==> t in stack && HasLogo(t)
    ensures forall t :: t in SplitStack(stack).badges <==> t in stack && !HasLogo(t)
    ensures IsSubsequence(SplitStack(stack).logos, stack)
    ensures IsSubsequence(SplitStack(stack).badges, stack)
    ensures multiset(SplitStack(stack).logos) + multiset(SplitStack(stack).badges) == multiset(stack)
  {
    FilterIsSubsequence(stack, HasLogo);
    FilterIsSubsequence(stack, HasNoLogo);
    FilterPartition(stack, HasLogo, HasNoLogo);
    FilterMembers(stack, HasLogo);
    FilterMembers(stack, HasNoLogo);
  }

  /** `hasLink`: a non-empty link other than `#`, on a project whose link type
      is not `none`. */
  predicate HasLink(p: Project) {
    p.link != "" && p.link != "#" && p.linkType != NoLink
  }

  /** The footer button. */
  datatype Footer = Footer(href: string, caption: string)

  /** The footer caption: "View Source" on GitHub, "Visit Platform" otherwise. */
  function FooterCaption(linkType: LinkType): (caption: string)
    ensures caption == "View Source" <==> linkType == Github
    ensures caption == "Visit Platform" <==> linkType != Github
  {
    if linkType == Github then "View Source" else "Visit Platform"
  }

  /** What the drawer shows of a project. */
  datatype DrawerView = DrawerView(
    status: Option<Status>,
    title: string,
    tags: seq<string>,
    challenge: Option<string>,
    stack: Option<StackRows>,
    architectNote: Option<string>,
    footer: Option<Footer>)

  /** A `string | undefined` field rendered under `field && ...`. */
  function Truthy(s: Option<string>): Option<string> {
    if s.Some? && s.value != "" then s else None
  }

  /** `ProjectDrawer`: nothing for a null project; otherwise its status badge,
      title, tags, the challenge, stack and note sections when present, and the
      footer link when `hasLink`. */
  function Drawer(project: Option<Project>): Option<DrawerView> {
    match project
    case None => None
    case Some(p) =>
      Some(DrawerView(
        p.status,
        p.title,
        p.tags,
        Truthy(p.challenge),
        if p.stack.Some? && |p.stack.value| > 0 then Some(SplitStack(p.stack.value)) else None,
        Truthy(p.architectNote),
        if HasLink(p) then Some(Footer(p.link, FooterCaption(p.linkType))) else None))
  }

  /** The drawer renders exactly for a project; the stack section appears
      exactly when there is a non-empty stack; the footer appears exactly when
      the link is usable, points at the project's link and reads "View Source"
      exactly for GitHub links. */
  lemma DrawerSections(project: Option<Project>)
    ensures Drawer(project).None? <==> project.None?
    ensures project.Some? ==>
      (Drawer(project).value.stack.Some? <==> project.value.stack.Some? && project.value.stack.value != [])
    ensures project.Some? ==> (Drawer(project).value.footer.Some? <==>
      project.value.link != "" && project.value.link != "#" && project.value.linkType != NoLink)
    ensures project.Some? && Drawer(project).value.footer.Some? ==>
      Drawer(project).value.footer.value.href == project.value.link &&
      (Drawer(project).value.footer.value.caption == "View Source" <==> project.value.linkType == Github)
  {
  }
}
