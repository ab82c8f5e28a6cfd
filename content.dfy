/** The site's content tables and the contact links derived from the
    environment (src/data/content.ts). Environment values are parameters:
    `process.env` reads become `Option<string>` values. */
module Content {
  import opened Wrappers
  import opened Text

  // Environment and contact channels.

  /** The four environment values the contact hub reads. */
  datatype Env = Env(
    userEmail: Option<string>,
    xHandle: Option<string>,
    telegramHandle: Option<string>,
    substackUrl: Option<string>)

  /** `process.env.NAME ?? ""`: a missing value becomes the empty string. */
  function EnvValue(v: Option<string>): (s: string)
    ensures v.None? ==> s == ""
    ensures v.Some? ==> s == v.value
  {
    v.GetOr("")
  }

  /** One card of the contact hub. The email channel has no sublabel. */
  datatype Channel = Channel(labelText: string, sublabel: Option<string>, href: string, primaryAction: string)

  const MailtoScheme: string := "mailto:"
  const MailSubject: string := "?subject=Inquiry%20regarding%20Systems%20Architecture"
  const XComposeUrl: string := "https://x.com/messages/compose?recipient_id="
  const TelegramUrl: string := "https://t.me"
  const SubstackHome: string := "https://substack.com"

  /** `contactChannels.email`. */
  function EmailChannel(userEmail: string): (c: Channel)
    ensures c.sublabel.None? && c.primaryAction == "Send Secure Email"
    ensures userEmail != "" ==> c.labelText == userEmail && c.href == MailtoScheme + userEmail + MailSubject
    ensures userEmail == "" ==> c.labelText == "Email" && c.href == "#"
  {
    Channel(
      if userEmail != "" then userEmail else "Email",
      None,
      if userEmail != "" then MailtoScheme + userEmail + MailSubject else "#",
      "Send Secure Email")
  }

  /** `contactChannels.x`. */
  function XChannel(xHandle: string): (c: Channel)
    ensures c.labelText == "Direct Message" && c.primaryAction == "Open DM"
    ensures xHandle != "" ==> c.sublabel == Some("@" + xHandle) && c.href == XComposeUrl + xHandle
    ensures xHandle == "" ==> c.sublabel == Some("X") && c.href == "https://x.com"
  {
    Channel(
      "Direct Message",
      Some(if xHandle != "" then "@" + xHandle else "X"),
      if xHandle != "" then XComposeUrl + xHandle else "https://x.com",
      "Open DM")
  }

  /** `contactChannels.telegram`. */
  function TelegramChannel(telegramHandle: string): (c: Channel)
    ensures c.labelText == "Telegram" && c.primaryAction == "Open Chat"
    ensures telegramHandle != "" ==> c.sublabel == Some("@" + telegramHandle) && c.href == TelegramUrl + "/" + telegramHandle
    ensures telegramHandle == "" ==> c.sublabel == Some("Telegram") && c.href == TelegramUrl
  {
    Channel(
      "Telegram",
      Some(if telegramHandle != "" then "@" + telegramHandle else "Telegram"),
      if telegramHandle != "" then TelegramUrl + "/" + telegramHandle else TelegramUrl,
      "Open Chat")
  }

  /** `url.replace(/^https?:\/\//, "")`: one leading `https://` or `http://`
      removed, anything else left alone. */
  function StripScheme(url: string): string {
    if StartsWith(url, "https://") then url[8..]
    else if StartsWith(url, "http://") then url[7..]
    else url
  }

  /** The stripped text is `url` less a prefix that is `https://`, `http://`
      or nothing, and nothing exactly when `url` starts with neither. */
  lemma StripSchemeSpec(url: string)
    ensures |StripScheme(url)| <= |url|
    ensures url == url[..|url| - |StripScheme(url)|] + StripScheme(url)
    ensures url[..|url| - |StripScheme(url)|] in ["", "http://", "https://"]
    ensures StripScheme(url) == url <==> !StartsWith(url, "http://") && !StartsWith(url, "https://")
  {
    var r := StripScheme(url);
    assert url == url[..|url| - |r|] + url[|url| - |r|..];
    if StartsWith(url, "https://") {
      assert url[..8] == "https://";
      assert |r| < |url|;
    } else if StartsWith(url, "http://") {
      assert url[..7] == "http://";
      assert |r| < |url|;
    }
  }

  /** Stripping undoes a scheme put in front: whatever follows `http://` or
      `https://` comes back unchanged, even when it starts with a scheme itself. */
  lemma StripSchemeRoundTrip(scheme: string, rest: string)
    requires scheme in ["http://", "https://"]
    ensures StripScheme(scheme + rest) == rest
  {
    var url := scheme + rest;
    assert url[..|scheme|] == scheme;
    if scheme == "http://" {
      assert url[4] == ':' && "https://"[4] == 's';
      assert !StartsWith(url, "https://");
    }
  }

  /** `contactChannels.substack`. */
  function SubstackChannel(substackUrl: string): (c: Channel)
    ensures c.labelText == "Newsletter" && c.primaryAction == "Subscribe"
    ensures substackUrl != "" ==> c.sublabel == Some(StripScheme(substackUrl)) && c.href == substackUrl
    ensures substackUrl == "" ==> c.sublabel == Some("Substack") && c.href == SubstackHome
  {
    Channel(
      "Newsletter",
      Some(if substackUrl != "" then StripScheme(substackUrl) else "Substack"),
      if substackUrl != "" then substackUrl else SubstackHome,
      "Subscribe")
  }

  /** `contactChannels`, from the environment. */
  datatype ContactChannels = ContactChannels(email: Channel, x: Channel, telegram: Channel, substack: Channel)

  function ContactChannelsOf(env: Env): ContactChannels {
    ContactChannels(
      EmailChannel(EnvValue(env.userEmail)),
      XChannel(EnvValue(env.xHandle)),
      TelegramChannel(EnvValue(env.telegramHandle)),
      SubstackChannel(EnvValue(env.substackUrl)))
  }

  /** The address a `mailto:` link of the email card was built from. */
  function MailtoAddress(href: string): string {
    if |href| >= |MailtoScheme| + |MailSubject| then href[|MailtoScheme|..|href| - |MailSubject|] else ""
  }

  /** The handle behind an `@` sublabel. */
  function HandleOf(sublabel: string): string {
    if |sublabel| > 0 && sublabel[0] == '@' then sublabel[1..] else ""
  }

  /** With no environment at all, every card falls back to its default. */
  lemma EmptyEnvDefaults()
    ensures ContactChannelsOf(Env(None, None, None, None)) ==
      ContactChannels(
        Channel("Email", None, "#", "Send Secure Email"),
        Channel("Direct Message", Some("X"), "https://x.com", "Open DM"),
        Channel("Telegram", Some("Telegram"), "https://t.me", "Open Chat"),
        Channel("Newsletter", Some("Substack"), "https://substack.com", "Subscribe"))
  {
  }

  /** The links carry the configured values: the address comes back out of the
      `mailto:` link, each handle out of its `@` sublabel, and the Telegram link
      names a chat exactly when a handle is set. */
  lemma ChannelsCarryEnv(env: Env)
    ensures env.userEmail.Some? && env.userEmail.value != "" ==>
      MailtoAddress(ContactChannelsOf(env).email.href) == env.userEmail.value
    ensures env.xHandle.Some? && env.xHandle.value != "" ==>
      HandleOf(ContactChannelsOf(env).x.sublabel.value) == env.xHandle.value
    ensures env.telegramHandle.Some? && env.telegramHandle.value != "" ==>
      HandleOf(ContactChannelsOf(env).telegram.sublabel.value) == env.telegramHandle.value
    ensures StartsWith(ContactChannelsOf(env).telegram.href, TelegramUrl + "/") <==>
      env.telegramHandle.Some? && env.telegramHandle.value != ""
  {
    var c := ContactChannelsOf(env);
    var e := EnvValue(env.userEmail);
    if e != "" {
      var href := MailtoScheme + e + MailSubject;
      assert href[|MailtoScheme|..|href| - |MailSubject|] == e;
    }
    var x := EnvValue(env.xHandle);
    if x != "" {
      assert ("@" + x)[1..] == x;
    }
    var t := EnvValue(env.telegramHandle);
    if t != "" {
      assert ("@" + t)[1..] == t;
      assert (TelegramUrl + "/" + t)[..|TelegramUrl + "/"|] == TelegramUrl + "/";
    } else {
      assert |c.telegram.href| < |TelegramUrl + "/"|;
    }
  }

  // Projects.

  datatype LinkType = Github | External | NoLink

  datatype Status = Live | Beta | InDevelopment | Archived

  /** `Project`; the optional fields are `Option`s. */
  datatype Project = Project(
    id: string,
    title: string,
    description: string,
    image: string,
    tags: seq<string>,
    link: string,
    linkType: LinkType,
    featured: Option<bool>,
    status: Option<Status>,
    challenge: Option<string>,
    stack: Option<seq<string>>,
    architectNote: Option<string>)

  /** `p.featured` is truthy. */
  predicate IsFeatured(p: Project) {
    p.featured == Some(true)
  }

  // The entries of `projects`. Long texts are split into concatenated pieces;
  // the strings are the table's own.

  const ViennaWaits: Project := Project(
    "vienna-waits",
    "Vienna Waits Growth Strategy",
    "Served as Project Lead for a technical "
      + "growth strategy initiative. Directed a "
      + "cross-functional team of 5, overseeing the "
      + "Decision Log and milestone tracking to "
      + "deliver a comprehensive expansion roadmap.",
    "/projects/vienna-waits.png",
    ["Project Management", "Growth Strategy", "Team Leadership", "Riipen Labs"],
    "https://viennawaits.com",
    External,
    Some(true),
    Some(Live),
    Some("Vienna Waits needed a scalable growth "
      + "strategy that could transition them from a "
      + "boutique coaching practice to a multi-market "
      + "enterprise. The challenge was balancing "
      + "rapid expansion with maintaining their core "
      + "philosophy of intentional living."),
    Some(["Strategic Planning", "Market Analysis", "Stakeholder Management", "Agile Methodology", "Decision Logging", "KPI Tracking"]),
    Some("I chose to implement a phased rollout "
      + "approach rather than aggressive scaling. "
      + "This allowed the team to validate "
      + "assumptions at each stage and pivot quickly. "
      + "The Decision Log became our single source of "
      + "truth, ensuring alignment across all 5 team "
      + "members."))

  const StudySpark: Project := Project(
    "study-spark",
    "Study Spark",
    "An AI-powered educational platform developed "
      + "for the Bolt Hackathon. Generates "
      + "personalized learning paths and interactive "
      + "summaries from complex academic materials.",
    "/projects/study-spark.png",
    ["Next.js", "OpenAI API", "Vibe Coding", "Tailwind CSS"],
    "https://github.com/yourusername/study-spark",
    Github,
    None,
    Some(Beta),
    Some("Students struggle to extract key concepts "
      + "from dense academic materials. Traditional "
      + "summarization tools lack personalization and "
      + "fail to adapt to individual learning styles "
      + "or knowledge gaps."),
    Some(["Next.js 14", "TypeScript", "OpenAI GPT-4 API", "Tailwind CSS", "Vercel AI SDK", "PostgreSQL", "Prisma ORM"]),
    Some("I opted for streaming responses using Vercel "
      + "AI SDK to provide real-time feedback during "
      + "content generation. This dramatically "
      + "improved perceived performance and user "
      + "engagement. The 'Vibe Coding' approach meant "
      + "rapid iteration—shipping features within "
      + "hours, not days."))

  const BasePass: Project := Project(
    "basepass",
    "BasePass",
    "A decentralized event attendance system "
      + "built for the Base Batches hackathon. Uses "
      + "cryptographically signed QR codes and NFT "
      + "stamps to verify on-chain presence.",
    "/projects/basepass.png",
    ["Solidity", "Next.js", "Wagmi", "Web3 UX"],
    "https://github.com/yourusername/basepass",
    Github,
    None,
    Some(Beta),
    Some("Event organizers lack verifiable proof of "
      + "attendance that's tamper-proof and portable. "
      + "Traditional check-ins are easily faked, and "
      + "attendees have no lasting credential from "
      + "their participation."),
    Some(["Solidity", "Next.js 14", "TypeScript", "Wagmi v2", "Viem", "Base Network (L2)", "IPFS", "Tailwind CSS"]),
    Some("Building on Base (Coinbase's L2) was a "
      + "deliberate choice for near-zero gas "
      + "fees—critical for event use cases where "
      + "users mint multiple attendance NFTs. The QR "
      + "code signing happens client-side to maintain "
      + "privacy, with verification occurring "
      + "on-chain only at mint time."))

  /** `projects`, in table order. */
  const Projects: seq<Project> := [ViennaWaits, StudySpark, BasePass]

  /** No two entries share an id. */
  predicate DistinctIds(ps: seq<Project>) {
    forall i, j :: 0 <= i < j < |ps| ==> ps[i].id != ps[j].id
  }

  /** The shipped table: exactly one featured project, the first, and
      pairwise distinct ids. */
  lemma ProjectsTable()
    ensures IsFeatured(Projects[0])
    ensures forall i :: 1 <= i < |Projects| ==> !IsFeatured(Projects[i])
    ensures DistinctIds(Projects)
  {
    assert Projects[0].id[0] == 'v' && Projects[1].id[0] == 's' && Projects[2].id[0] == 'b';
  }

  // Icon names and skill categories.

  /** `iconSlugToName`. */
  const IconSlugToName: map<string, string> := map[
    "nextdotjs" := "Next.js",
    "react" := "React",
    "typescript" := "TypeScript",
    "python" := "Python",
    "nodedotjs" := "Node.js",
    "postgresql" := "PostgreSQL",
    "googlecloud" := "Google Cloud",
    "docker" := "Docker",
    "git" := "Git",
    "tailwindcss" := "Tailwind CSS",
    "figma" := "Figma"
  ]

  /** `BentoCategory`. */
  datatype BentoCategory = BentoCategory(id: string, name: string, iconSlugs: seq<string>, skills: seq<string>)

  const BentoCategories: seq<BentoCategory> := [
    BentoCategory("frontend", "Frontend", ["react", "nextdotjs", "typescript", "tailwindcss"],
      ["React", "Next.js", "TypeScript", "Tailwind CSS", "Responsive Web"]),
    BentoCategory("backend", "Backend", ["nodedotjs", "python", "postgresql"],
      ["Node.js", "Python", "PostgreSQL", "REST APIs", "Data Modeling"]),
    BentoCategory("tools-devops", "Tools & DevOps", ["googlecloud", "docker", "git"],
      ["Google Cloud", "Docker", "Git", "CI/CD Pipelines", "Systems Analysis"]),
    BentoCategory("design", "Design", ["figma"],
      ["UI/UX Prototyping", "Human-Centered Design", "Accessibility", "Figma"])
  ]

  // Navigation.

  datatype NavLink = NavLink(name: string, href: string)

  /** `navLinks`, in scroll order. */
  const NavLinks: seq<NavLink> := [
    NavLink("Home", "#home"),
    NavLink("Skills", "#skills"),
    NavLink("Projects", "#projects"),
    NavLink("Contact", "#contact")
  ]

  /** The section anchor a link points at. */
  function Anchor(link: NavLink): string {
    if |link.href| > 0 && link.href[0] == '#' then link.href[1..] else ""
  }

  /** The links go Home, Skills, Projects, Contact, each to its own
      in-page anchor. */
  lemma NavLinksOrder()
    ensures |NavLinks| == 4
    ensures NavLinks[0].name == "Home" && NavLinks[1].name == "Skills"
    ensures NavLinks[2].name == "Projects" && NavLinks[3].name == "Contact"
    ensures forall i, j :: 0 <= i < j < |NavLinks| ==> Anchor(NavLinks[i]) != Anchor(NavLinks[j])
  {
    assert Anchor(NavLinks[0]) == "home";
    assert Anchor(NavLinks[1]) == "skills";
    assert Anchor(NavLinks[2]) == "projects";
    assert Anchor(NavLinks[3]) == "contact";
  }
}
