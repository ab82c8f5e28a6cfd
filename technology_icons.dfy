/** Technology icons of the skills section
    (src/components/ui/technology-icons.tsx): the slug table, the lookup with
    its fallback to `iconSlugToName`, and the Simple Icons CDN address. */
module TechnologyIcons {
  import opened Wrappers
  import opened Content

  const Gold: string := "#D4A373"
  const SimpleIconsBase: string := "https://cdn.simpleicons.org"

  /** `s.replace("#", "")`: the first `#` removed. */
  function RemoveFirstHash(s: string): (r: string)
    ensures '#' !in s ==> r == s
    ensures '#' in s ==> |r| == |s| - 1
    decreases |s|
  {
    if |s| == 0 then ""
    else if s[0] == '#' then s[1..]
    else [s[0]] + RemoveFirstHash(s[1..])
  }

  /** The `#` removed is the first one, and the characters around it keep
      their order. */
  lemma {:induction false} RemoveFirstHashAt(s: string, i: nat)
    requires i < |s| && s[i] == '#' && '#' !in s[..i]
    ensures RemoveFirstHash(s) == s[..i] + s[i + 1..]
  {
    if i > 0 {
      assert s[0] == s[..i][0];
      assert s[1..][..i - 1] == s[1..i];
      RemoveFirstHashAt(s[1..], i - 1);
      assert s[..i] == [s[0]] + s[1..i];
    }
  }

  /** So a text with a `#` loses exactly its first `#`. */
  lemma RemoveFirstHashSpec(s: string)
    ensures '#' in s ==>
      exists i :: (0 <= i < |s| && s[i] == '#' && '#' !in s[..i] && RemoveFirstHash(s) == s[..i] + s[i + 1..])
  {
    if '#' in s {
      var i :| 0 <= i < |s| && s[i] == '#';
      while i > 0 && '#' in s[..i]
        invariant 0 <= i < |s| && s[i] == '#'
        decreases i
      {
        var j :| 0 <= j < i && s[..i][j] == '#';
        i := j;
      }
      if i == 0 {
        assert s[..i] == [];
      }
      RemoveFirstHashAt(s, i);
    }
  }

  /** The address `SimpleIcon` loads: the slug's icon tinted in gold. */
  function CdnUrl(slug: string): string {
    SimpleIconsBase + "/" + slug + "/" + RemoveFirstHash(Gold)
  }

  /** The tint is GOLD without its `#`, so the address ends in `/D4A373`; and
      the slug can be read back out of it. */
  lemma CdnUrlValue(slug: string)
    ensures CdnUrl(slug) == "https://cdn.simpleicons.org/" + slug + "/D4A373"
    ensures SlugOfCdnUrl(CdnUrl(slug)) == slug
  {
    assert RemoveFirstHash(Gold) == "D4A373";
    var u := CdnUrl(slug);
    assert u[|SimpleIconsBase| + 1..|u| - 7] == slug;
  }

  /** The slug inside a CDN address. */
  function SlugOfCdnUrl(url: string): string {
    if |url| >= |SimpleIconsBase| + 8 then url[|SimpleIconsBase| + 1..|url| - 7] else ""
  }

  /** What an entry's `Icon` draws: the custom VS Code SVG, or a CDN image. */
  datatype Icon = VSCodeSvg | CdnImage(src: string, alt: string)

  /** `TechnologyIconEntry`. */
  datatype TechnologyIconEntry = TechnologyIconEntry(icon: Icon, displayName: string)

  /** A table entry drawn by `SimpleIcon` (or `GoogleCloudIcon`, which loads
      the same address). */
  function CdnEntry(slug: string, displayName: string): TechnologyIconEntry {
    TechnologyIconEntry(CdnImage(CdnUrl(slug), displayName), displayName)
  }

  /** `TECHNOLOGY_ICON_MAP`. */
  const TechnologyIconMap: map<string, TechnologyIconEntry> := map[
    "vscode" := TechnologyIconEntry(VSCodeSvg, "VS Code"),
    "googlecloud" := CdnEntry("googlecloud", "Google Cloud"),
    "nextdotjs" := CdnEntry("nextdotjs", "Next.js"),
    "typescript" := CdnEntry("typescript", "TypeScript"),
    "postgresql" := CdnEntry("postgresql", "PostgreSQL"),
    "react" := CdnEntry("react", "React"),
    "nodedotjs" := CdnEntry("nodedotjs", "Node.js"),
    "python" := CdnEntry("python", "Python"),
    "tailwindcss" := CdnEntry("tailwindcss", "Tailwind CSS"),
    "docker" := CdnEntry("docker", "Docker"),
    "git" := CdnEntry("git", "Git"),
    "figma" := CdnEntry("figma", "Figma")
  ]

  /** The lookup of `getTechnologyIcon` over an icon table and a name table:
      the table entry when there is one, otherwise a CDN icon named by
      `names[slug] ?? slug`. Declared as possibly null, it never is. */
  function LookupIcon(icons: map<string, TechnologyIconEntry>, names: map<string, string>, slug: string)
    : (r: Option<TechnologyIconEntry>)
    ensures r.Some?
    ensures slug in icons ==> r.value == icons[slug]
    ensures slug !in icons && slug in names ==> r.value.displayName == names[slug]
    ensures slug !in icons && slug !in names ==> r.value.displayName == slug
    ensures slug !in icons ==> r.value.icon == CdnImage(CdnUrl(slug), r.value.displayName)
  {
    if slug in icons then Some(icons[slug])
    else
      var displayName := if slug in names then names[slug] else slug;
      Some(CdnEntry(slug, displayName))
  }

  /** `getTechnologyIcon(slug)`. */
  function GetTechnologyIcon(slug: string): Option<TechnologyIconEntry> {
    LookupIcon(TechnologyIconMap, IconSlugToName, slug)
  }

  /** Every slug `iconSlugToName` names has its own table entry, so with the
      shipped tables the fallback to `iconSlugToName` is never taken: a slug
      outside the table is shown under its own name. */
  lemma NamesInTable(slug: string)
    ensures slug in IconSlugToName ==> slug in TechnologyIconMap
    ensures slug !in TechnologyIconMap ==> GetTechnologyIcon(slug).value.displayName == slug
  {
  }

  /** The two tables agree on every slug they share. */
  lemma DisplayNamesAgree(slug: string)
    requires slug in TechnologyIconMap && slug in IconSlugToName
    ensures TechnologyIconMap[slug].displayName == IconSlugToName[slug]
  {
  }

  /** So the name shown for a slug `iconSlugToName` knows is always that name. */
  lemma NameFollowsIconSlugToName(slug: string)
    requires slug in IconSlugToName
    ensures GetTechnologyIcon(slug).value.displayName == IconSlugToName[slug]
  {
    NamesInTable(slug);
    DisplayNamesAgree(slug);
  }

  /** One row of a bento list: the icon and the name next to it. */
  datatype ListItem = ListItem(icon: Icon, name: string)

  /** `TechnologyListItem`: renders nothing when the lookup finds nothing,
      otherwise the entry's icon and `displayName`. */
  function TechnologyListItem(slug: string): (item: Option<ListItem>)
    ensures item.Some?
    ensures item.value.name == GetTechnologyIcon(slug).value.displayName
    ensures item.value.icon == GetTechnologyIcon(slug).value.icon
  {
    match GetTechnologyIcon(slug)
    case None => None
    case Some(entry) => Some(ListItem(entry.icon, entry.displayName))
  }
}
