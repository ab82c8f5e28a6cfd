# Gold-Black portfolio: a verified model of its interactive core

This project models the logic behind the portfolio site's interactive parts, which are written in TypeScript/React:

- the typewriter terminal, which types its script one character at a time and highlights keywords in the response lines;
- the content tables and the contact links built from environment values;
- the projects section and its detail drawer;
- the contact cards, with their click ripples and the "copied" flag of the email card;
- the technology icon lookup;
- the magnifying lens;
- the split of the skills section into two boxes.

Rendering is reduced to the values a component shows: which cards, which rows, which sections and which links.

Each kind of state is modelled in a fixed way:

- React state that event handlers update becomes fields of a Dafny `class`, changed by methods.
- Timers are modelled as events. A method is called when a timer fires. No clock is modelled.
- The typing effect is a step function `Typewriter.Next`. The class `Typewriter.Terminal` keeps the same state in fields, and its `Step` method is proved against `Next`.
- The keyword highlighter keeps the source's `while` loop with its inner `for` loop, as methods. The methods are proved equal to the recursive `Highlighter.Scan`, and the lemmas about the output are stated over `Scan`.

Modules, one per file:

| module | models |
|---|---|
| `Wrappers` | `Option`, `Result` |
| `Text` | `StartsWith`, `String.prototype.indexOf` |
| `Seqs` | `Array.prototype.filter` / `find` and the facts about them |
| `Highlighter` | `highlightKeywords` in `src/components/ui/typewriter-terminal.tsx` |
| `Typewriter` | the typing effect and the line display of the same file |
| `Content` | `src/data/content.ts` |
| `TechnologyIcons` | `src/components/ui/technology-icons.tsx` |
| `ProjectDrawer` | `src/components/project-drawer.tsx` |
| `ProjectsSection` | `src/components/sections/projects-section.tsx` |
| `ContactSection` | `src/components/sections/contact-section.tsx` |
| `Lens` | `src/components/ui/lens.tsx` |
| `SkillsSection` | `src/components/sections/skills-section.tsx` |

The typing effect has one behaviour worth knowing. A script line with empty text breaks the invariant that links `displayedLines` to the lines shown: the next line's first character is stored at the empty line's index. `Typewriter.EmptyLineBreaksAlignment` shows this on the script `["", "ab"]`. The shipped script has no empty line, so it types to the end (`Typewriter.AboutLinesComplete`).

## Model

| member | source | states |
|---|---|---|
| Text.IndexOf | src/components/ui/typewriter-terminal.tsx:33 | `remainingText.indexOf(keyword)`: -1, or a position where the word fits inside the text. `IndexOfFound` and `IndexOfFirst` prove it is the first occurrence |
| Text.StartsWith | src/components/sections/contact-section.tsx:189 | `href.startsWith("http")`: the text begins with the prefix. `ContactSection.Target` is stated with it |
| Text.IndexOfFirst | src/components/ui/typewriter-terminal.tsx:33 | `indexOf` finds the first occurrence: the word occurs nowhere before the index it returns, and nowhere at all when it returns -1 |
| Text.IndexOfFound | src/components/ui/typewriter-terminal.tsx:33 | an index other than -1 returned by `indexOf` is an occurrence of the word |
| Text.IndexOfExamples | src/components/ui/typewriter-terminal.tsx:33 | `indexOf` on concrete inputs: a later match, the empty word at 0, and a word longer than the text giving -1 |
| Highlighter.KeywordsValid | src/components/ui/typewriter-terminal.tsx:7-19 | every keyword in `HIGHLIGHT_KEYWORDS` is non-empty, so each turn of the loop consumes text |
| Highlighter.EarliestAmong | src/components/ui/typewriter-terminal.tsx:32-37 | a match found among the first `n` keywords names one of them, and it fits inside the remaining text |
| Highlighter.EarliestAmongSpec | src/components/ui/typewriter-terminal.tsx:32-37 | after `n` keywords there is no match exactly when none of them occurs. Otherwise the match is the leftmost occurrence, and a tie goes to the keyword listed first, because the comparison is strict |
| Highlighter.Earliest | src/components/ui/typewriter-terminal.tsx:30-37 | `earliestMatch` after the `for` loop has run over every keyword: a keyword of the list that fits in the remaining text. `EarliestSpec` proves it is the leftmost occurrence |
| Highlighter.EarliestSpec | src/components/ui/typewriter-terminal.tsx:30-37 | `earliestMatch` is null exactly when no keyword occurs. Otherwise it is the leftmost occurrence, and ties go to list order |
| Highlighter.FindEarliestMatch | src/components/ui/typewriter-terminal.tsx:30-37 | the `for` loop over the keywords computes exactly `Earliest` |
| Highlighter.Scan | src/components/ui/typewriter-terminal.tsx:29-55 | the pieces the `while` loop pushes for the remaining text, with highlight keys from `key` on. `ScanMatch`, `ScanLast`, `ScanConcat`, `ScanKeys`, `ScanSegmentsOk` and `ScanSegmentAt` state what it produces |
| Highlighter.ScanMatch | src/components/ui/typewriter-terminal.tsx:39-50 | on a match, the output is the non-empty text before it, then the keyword highlighted under the current key, then the scan of what follows the keyword with the key increased by one |
| Highlighter.ScanLast | src/components/ui/typewriter-terminal.tsx:51-53 | with no match, the rest of the text is pushed as one plain piece and the loop ends |
| Highlighter.HighlightWith | src/components/ui/typewriter-terminal.tsx:22-58 | the `while` loop produces exactly `Scan(ks, text, 0)` |
| Highlighter.HighlightKeywords | src/components/ui/typewriter-terminal.tsx:22-58 | `highlightKeywords` over `HIGHLIGHT_KEYWORDS` equals `Scan`. An empty text gives no pieces |
| Highlighter.NothingBeforeMatch | src/components/ui/typewriter-terminal.tsx:32-37 | no keyword occurs before the match. At the match's own index, only keywords listed later occur |
| Highlighter.NoMatchNoOccurrence | src/components/ui/typewriter-terminal.tsx:51-53 | when there is no match, no keyword occurs anywhere in the remaining text |
| Highlighter.MatchOccurs | src/components/ui/typewriter-terminal.tsx:33-35 | the match is an occurrence of its keyword at its index |
| Highlighter.SplitAtMatch | src/components/ui/typewriter-terminal.tsx:41-50 | the remaining text is the text before the match, plus the keyword, plus the text after it |
| Highlighter.ScanConcat | src/components/ui/typewriter-terminal.tsx:29-55 | round trip: joining the shown pieces gives back the input text exactly |
| Highlighter.ScanKeys | src/components/ui/typewriter-terminal.tsx:46 | the highlights carry the keys `key, key+1, …` in order, so React keys are distinct |
| Highlighter.ScanSegmentsOk | src/components/ui/typewriter-terminal.tsx:41-49 | no plain piece is empty, and every highlighted piece is one of the keywords |
| Highlighter.ScanSegmentAt | src/components/ui/typewriter-terminal.tsx:29-55 | each piece sits at its offset in the input. No keyword starts inside a plain piece, and a highlighted piece is the first-listed keyword occurring at its offset |
| Typewriter.LineDelay | src/components/ui/typewriter-terminal.tsx:119-123 | `currentLine.delay \|\| lineDelay`: a line's own delay is used unless it is absent or 0, in which case the prop is used |
| Typewriter.Typed | src/components/ui/typewriter-terminal.tsx:106-114 | the `setDisplayedLines` updater: push the typed prefix when the list has no entry at the line index, or overwrite that entry. `CharStep` states its effect |
| Typewriter.Next | src/components/ui/typewriter-terminal.tsx:94-126 | one run of the typing effect followed by its timer. `CharStep`, `LineStep`, `FinishedStep`, `NextInRange`, `NextAligned` and `NextProgress` state what it does |
| Typewriter.Delay | src/components/ui/typewriter-terminal.tsx:104-125 | the delay of the timer the effect sets: `typeSpeed` for a character, `LineDelay` after a completed line, none at the end. `FinishedStep` and `AboutTerminalTiming` state it |
| Typewriter.Terminal.constructor | src/components/ui/typewriter-terminal.tsx:73-82 | on mount nothing is displayed, both indexes are 0 and the terminal is typing |
| Typewriter.Terminal.Step | src/components/ui/typewriter-terminal.tsx:94-126 | one run of the typing effect followed by its timer: the new state is `Next` of the old state, and the delay returned is the timer's |
| Typewriter.CharStep | src/components/ui/typewriter-terminal.tsx:104-116 | a character step stores the first `charIndex + 1` characters of the current line at that line's index. It appends when the list is short and overwrites otherwise, and leaves the other entries alone |
| Typewriter.LineStep | src/components/ui/typewriter-terminal.tsx:118-124 | a completed line moves to the next line at character 0 and changes nothing else |
| Typewriter.FinishedStep | src/components/ui/typewriter-terminal.tsx:96-99 | once the lines run out, typing stops, no timer is set, and further steps change nothing |
| Typewriter.NextInRange | src/components/ui/typewriter-terminal.tsx:94-126 | every step keeps the line index within the script and the character index within the current line |
| Typewriter.NextAligned | src/components/ui/typewriter-terminal.tsx:104-124 | for a script without empty lines, every step keeps `displayedLines` holding each past line in full and the typed prefix of the current line |
| Typewriter.AlignedPrefixes | src/components/ui/typewriter-terminal.tsx:104-114 | in an aligned state, each displayed entry is a prefix of its line, and the list is never longer than the current index plus one |
| Typewriter.RunAligned | src/components/ui/typewriter-terminal.tsx:94-126 | for a script without empty lines, every state reached from an aligned state is aligned |
| Typewriter.EmptyLineBreaksAlignment | src/components/ui/typewriter-terminal.tsx:104-114 | for the script `["", "ab"]`, the first character of "ab" is stored at index 0, and line 1 shows nothing after two steps |
| Typewriter.NextProgress | src/components/ui/typewriter-terminal.tsx:94-126 | each step before the end takes exactly one step off what remains |
| Typewriter.RunToEnd | src/components/ui/typewriter-terminal.tsx:96-99 | after as many steps as remain, the lines have run out |
| Typewriter.TypingCompletes | src/components/ui/typewriter-terminal.tsx:94-126 | a script without empty lines ends typing after one step per character, one per line and one final step, and every line is then displayed in full |
| Typewriter.DisplayText | src/components/ui/typewriter-terminal.tsx:136-144 | `displayText`: a past line in full, the current line's stored entry or "", and "" for later lines. `AlignedDisplay` states it |
| Typewriter.LineRendered | src/components/ui/typewriter-terminal.tsx:145 | a line is rendered unless its display text is empty and it is not the current line. `AlignedDisplay` states it |
| Typewriter.AlignedDisplay | src/components/ui/typewriter-terminal.tsx:136-145 | in an aligned state, past lines show in full, the current line shows what was typed, and later lines are not rendered |
| Typewriter.LineBody | src/components/ui/typewriter-terminal.tsx:149-181 | the body of a rendered line: response lines go through `highlightKeywords`, and the other types show the text as is. `LineBodyShowsText` states it |
| Typewriter.LineBodyShowsText | src/components/ui/typewriter-terminal.tsx:149-181 | whatever its type, a rendered line shows exactly its display text. Response lines go through the highlighter |
| Typewriter.AboutTerminalTiming | src/components/ui/typewriter-terminal.tsx:75-76 | with the default props, the shipped script types a character every 40 ms, and after each line it pauses for that line's own delay, never for the 300 ms default |
| Typewriter.HeroTerminalTiming | src/components/sections/hero-section.tsx:52-56 | as the hero section mounts the terminal (`typeSpeed` 30, `lineDelay` 500), every character takes 30 ms. Every shipped line sets its own non-zero delay, so each pause is that delay and the prop is never the fallback |
| Typewriter.AboutLinesNonEmpty | src/components/ui/typewriter-terminal.tsx:204-212 | no line of `aboutTerminalLines` is empty |
| Typewriter.AboutLinesComplete | src/components/ui/typewriter-terminal.tsx:204-212 | the shipped boot sequence types to the end, and every line is then displayed in full |
| Content.EnvValue | src/data/content.ts:54-57 | `?? ""`: an unset variable reads as the empty string, and a set one reads as its value |
| Content.EmailChannel | src/data/content.ts:75-79 | with an address, the label is the address and the link is `mailto:` plus the address plus the fixed subject. Without one, the label is "Email" and the link is `#` |
| Content.XChannel | src/data/content.ts:80-85 | with a handle, the sublabel is `@handle` and the link is the compose URL ending in the handle. Without one, the sublabel is "X" and the link is `https://x.com` |
| Content.TelegramChannel | src/data/content.ts:86-91 | with a handle, the sublabel is `@handle` and the link is `https://t.me/handle`. Without one, the sublabel is "Telegram" and the link is `https://t.me` |
| Content.SubstackChannel | src/data/content.ts:92-97 | with a URL, the link is the URL and the sublabel is the URL without its scheme. Without one, the sublabel is "Substack" and the link is the Substack home page |
| Content.StripScheme | src/data/content.ts:94 | `replace(/^https?:\/\//, "")`. `StripSchemeSpec` and `StripSchemeRoundTrip` state it |
| Content.StripSchemeSpec | src/data/content.ts:94 | `replace(/^https?:\/\//, "")` removes a leading `http://`, a leading `https://`, or nothing, and leaves the text unchanged exactly when it has neither prefix |
| Content.StripSchemeRoundTrip | src/data/content.ts:94 | stripping undoes a scheme put in front |
| Content.ContactChannelsOf | src/data/content.ts:74-98 | `contactChannels` built from the four environment values. `EmptyEnvDefaults`, `ChannelsCarryEnv` and `ContactSection.ChannelTargets` state it |
| Content.EmptyEnvDefaults | src/data/content.ts:74-98 | with no environment values, all four cards fall back to their defaults |
| Content.ChannelsCarryEnv | src/data/content.ts:74-98 | the configured address and handles can be read back from the links, and the Telegram link names a handle exactly when one is configured |
| Content.ProjectsTable | src/data/content.ts:101-142 | the shipped `projects`: exactly one is featured, and it is the first. The ids are distinct |
| Content.NavLinksOrder | src/data/content.ts:250-256 | `navLinks` go Home, Skills, Projects, Contact, and each points at a different anchor |
| TechnologyIcons.RemoveFirstHash | src/components/ui/technology-icons.tsx:64 | `replace("#", "")` leaves a text without `#` as it is, and otherwise removes exactly one character |
| TechnologyIcons.RemoveFirstHashAt | src/components/ui/technology-icons.tsx:64 | when position `i` holds the first `#`, the result is the text before it followed by the text after it |
| TechnologyIcons.RemoveFirstHashSpec | src/components/ui/technology-icons.tsx:64 | a text containing `#` loses exactly its first `#`, and the other characters keep their order |
| TechnologyIcons.CdnUrl | src/components/ui/technology-icons.tsx:64 | the `src` of `SimpleIcon`: base, slug and the gold tint without its `#`. `CdnUrlValue` states it |
| TechnologyIcons.CdnUrlValue | src/components/ui/technology-icons.tsx:12-13 | the icon address is the CDN base, the slug and the gold tint `D4A373` without its `#`, and the slug can be read back out of it |
| TechnologyIcons.LookupIcon | src/components/ui/technology-icons.tsx:157-167 | the lookup always gives an entry. A slug in the table gets its own entry. Any other slug gets a CDN icon named from `iconSlugToName`, or the slug itself when that has no name |
| TechnologyIcons.GetTechnologyIcon | src/components/ui/technology-icons.tsx:157-167 | `getTechnologyIcon` over the shipped tables. `LookupIcon`, `NamesInTable` and `NameFollowsIconSlugToName` state it |
| TechnologyIcons.NamesInTable | src/components/ui/technology-icons.tsx:157-167 | every slug that `iconSlugToName` names has its own table entry. A slug that is not in the table is shown under its own text |
| TechnologyIcons.DisplayNamesAgree | src/components/ui/technology-icons.tsx:85-154 | `TECHNOLOGY_ICON_MAP` and `iconSlugToName` agree on the name of every slug they share |
| TechnologyIcons.NameFollowsIconSlugToName | src/components/ui/technology-icons.tsx:157-167 | a slug known to `iconSlugToName` is always shown under that name |
| TechnologyIcons.TechnologyListItem | src/components/ui/technology-icons.tsx:170-187 | the row always renders, showing the icon and name that `getTechnologyIcon` gives |
| ProjectDrawer.IconUrl | src/components/project-drawer.tsx:28-30 | `getIconUrl`. `IconUrlRoundTrip` states its shape |
| ProjectDrawer.HasLogo | src/components/project-drawer.tsx:33-35 | `hasLogo`: the name is a key of `TECH_ICON_MAP`. `TechLogo` and `LogosDrawn` state it |
| ProjectDrawer.IconUrlRoundTrip | src/components/project-drawer.tsx:28-30 | `getIconUrl` is the CDN base, the slug and `/FFFFFF`, and the slug can be read back out of it |
| ProjectDrawer.TechLogo | src/components/project-drawer.tsx:38-54 | a logo is drawn exactly when the name maps to a non-empty slug. Its alt text is the name, its address is `getIconUrl` of that slug, and the slug can be read back from the address |
| ProjectDrawer.LogosDrawn | src/components/project-drawer.tsx:33-40 | every name for which `hasLogo` is true does draw a logo, since no slug in the table is empty |
| ProjectDrawer.SplitStack | src/components/project-drawer.tsx:168-176 | the two `filter`s of the stack. `SplitStackPartition` states them |
| ProjectDrawer.SplitStackPartition | src/components/project-drawer.tsx:168-176 | the logo row holds the stack's names that have a logo and the badge row holds the rest. Each row keeps stack order, and each name lands in exactly one row as often as it occurs |
| ProjectDrawer.FooterCaption | src/components/project-drawer.tsx:215-228 | the caption is "View Source" exactly for GitHub links and "Visit Platform" otherwise |
| ProjectDrawer.HasLink | src/components/project-drawer.tsx:83 | `hasLink`: a non-empty link other than `#` on a project whose link type is not `none`. `DrawerSections` states it |
| ProjectDrawer.Drawer | src/components/project-drawer.tsx:79-232 | what `ProjectDrawer` renders for a project, or nothing for null. `DrawerSections` states it |
| ProjectDrawer.DrawerSections | src/components/project-drawer.tsx:79-232 | a null project renders nothing. The stack section appears exactly for a non-empty stack. The footer appears exactly when the link is non-empty, is not `#` and its type is not `none`, and it then points at the project's link |
| ProjectsSection.FeaturedProject | src/components/sections/projects-section.tsx:180 | `projects.find((p) => p.featured)`. `FeaturedIsFirst` states it |
| ProjectsSection.SupportProjects | src/components/sections/projects-section.tsx:181 | `projects.filter((p) => !p.featured)`. `SupportIsRest` states it |
| ProjectsSection.Cards | src/components/sections/projects-section.tsx:221-254 | the cards in render order: the featured card if any, then the support cards. `OneFeaturedCoversAll`, `SecondFeaturedHidden` and `ShippedCards` state it |
| ProjectsSection.FeaturedIsFirst | src/components/sections/projects-section.tsx:180 | the featured project is the first featured entry, and there is none exactly when no entry is featured |
| ProjectsSection.SupportIsRest | src/components/sections/projects-section.tsx:181 | the support projects are exactly the entries that are not featured, in table order, each as often as it occurs in the table |
| ProjectsSection.OneFeaturedCoversAll | src/components/sections/projects-section.tsx:179-181 | with exactly one featured entry, the cards show every project exactly once |
| ProjectsSection.SecondFeaturedHidden | src/components/sections/projects-section.tsx:179-181 | when the ids are distinct, a second featured entry appears on no card |
| ProjectsSection.ShippedCards | src/components/sections/projects-section.tsx:221-254 | with the shipped table, the featured card is the first project, and the support cards are the other two in order |
| ProjectsSection.CardTags | src/components/sections/projects-section.tsx:147 | `slice(0, 4)` keeps the first four tags, or all of them when there are fewer |
| ProjectsSection.Section.constructor | src/components/sections/projects-section.tsx:176-177 | nothing is selected and the drawer is closed |
| ProjectsSection.Section.HandleProjectClick | src/components/sections/projects-section.tsx:183-186 | a click selects the project and opens the drawer |
| ProjectsSection.Section.OnOpenChange | src/components/sections/projects-section.tsx:259-263 | the drawer's open flag follows the request, and the selection is kept |
| ContactSection.RemoveById | src/components/sections/contact-section.tsx:164 | `prev.filter(r => r.id !== id)`, never longer than its input. `RemoveMembers`, `RemoveAbsent`, `RemoveOldest` and `RemoveKeepsOrder` state it |
| ContactSection.RemoveMembers | src/components/sections/contact-section.tsx:164 | `filter(r => r.id !== id)` keeps exactly the ripples whose id differs |
| ContactSection.RemoveAbsent | src/components/sections/contact-section.tsx:164 | removing an id that no ripple has changes nothing |
| ContactSection.RemoveOldest | src/components/sections/contact-section.tsx:162-165 | with increasing ids, removing the first ripple's id drops exactly that ripple |
| ContactSection.RemoveKeepsOrder | src/components/sections/contact-section.tsx:164 | with increasing ids, removal drops exactly the ripple with that id and keeps the others in order |
| ContactSection.AppendIncreasing | src/components/sections/contact-section.tsx:154-160 | appending a ripple whose id is above all others keeps the ids increasing |
| ContactSection.ContactCard.constructor | src/components/sections/contact-section.tsx:123-124 | no ripples, and the id counter starts at 0 |
| ContactSection.ContactCard.CreateRipple | src/components/sections/contact-section.tsx:145-166 | on a non-primary card nothing changes. On the primary card, a ripple is appended at the click position relative to the card, with size 210 and the next id. The counter goes up by one, the removal timer is set with the 800 + 150 ms delay, and the ids stay increasing |
| ContactSection.ContactCard.RemovalTimerFires | src/components/sections/contact-section.tsx:163-165 | the oldest removal timer filters out its ripple, which is the oldest ripple |
| ContactSection.ContactCard.HandleClick | src/components/sections/contact-section.tsx:168-171 | the ripple is created first, then `onClick` runs. The counter goes up by one exactly on the primary card, with one more removal timer pending. On the email card, the handler stops the link, copies the address and shows the check mark |
| ContactSection.Section.constructor | src/components/sections/contact-section.tsx:319 | `copied` starts false |
| ContactSection.Section.HandleCopyEmail | src/components/sections/contact-section.tsx:321-326 | the link is not followed, the address goes to the clipboard, `copied` is set, and a reset timer of 1000 ms is pending |
| ContactSection.Section.ResetTimerFires | src/components/sections/contact-section.tsx:325 | a reset timer sets `copied` back to false, even when a later click set another timer |
| ContactSection.Target | src/components/sections/contact-section.tsx:189 | `_blank` exactly for links starting with `http` |
| ContactSection.Rel | src/components/sections/contact-section.tsx:190 | `noopener noreferrer` exactly when the link opens a new tab |
| ContactSection.ChannelTargets | src/components/sections/contact-section.tsx:363-398 | the email card never opens a new tab, and the X and Telegram cards always do. The Substack card does so exactly when its URL is unset or starts with `http` |
| Lens.Validate | src/components/ui/lens.tsx:49-54 | the props pass exactly when zoom ≥ 1 and size ≥ 0. Otherwise the error is the zoom message first, then the size message |
| Lens.CurrentPosition | src/components/ui/lens.tsx:61-65 | the `position` prop when static. Otherwise the default position while not hovering, if one is given. Otherwise the tracked pointer |
| Lens.LensShown | src/components/ui/lens.tsx:132-138 | the lens is drawn always when static or given a default position, and otherwise only while hovering |
| Lens.View | src/components/ui/lens.tsx:82-117 | a lens is drawn exactly when shown. It is centred on the current position, with radius `lensSize / 2` and scale `zoomFactor` |
| Lens.ValidView | src/components/ui/lens.tsx:49-54 | a validated lens never shrinks the content and never has a negative radius |
| Lens.DefaultLens | src/components/ui/lens.tsx:39-43 | with every prop at its default, the lens passes validation and is hidden until hovered. It then draws a circle of radius 75 at the pointer, magnified 1.5 times |
| Lens.IdleLensIgnoresPointer | src/components/ui/lens.tsx:61-65 | a lens shown without hovering sits at its `position` or default position, whatever the pointer did |
| Lens.Lens.constructor | src/components/ui/lens.tsx:56-57 | not hovering, and the pointer starts at `position` |
| Lens.Lens.MouseEnter | src/components/ui/lens.tsx:123 | hovering starts, so the lens is drawn, and a non-static lens follows the pointer |
| Lens.Lens.MouseLeave | src/components/ui/lens.tsx:124 | hovering stops, and the lens stays drawn exactly when it is static or has a default position |
| Lens.Lens.KeyDown | src/components/ui/lens.tsx:77-79 | Escape stops hovering, and any other key changes nothing |
| Lens.Lens.MouseMove | src/components/ui/lens.tsx:68-74 | the tracked pointer is the click position relative to the container, and a hovering non-static lens is centred there |
| Lens.EnterAndMove | src/components/ui/lens.tsx:56-74 | after mount, enter and move, a non-static lens sits at the pointer and a static lens stays at its `position` |
| SkillsSection.DevelopmentCategories | src/components/sections/skills-section.tsx:26-28 | `developmentCategories`: the `frontend` and `backend` categories. `BoxesSplit` and `ShippedBoxes` state it |
| SkillsSection.OperationsDesignCategories | src/components/sections/skills-section.tsx:30-32 | `operationsDesignCategories`: the `tools-devops` and `design` categories. `BoxesSplit` and `ShippedBoxes` state it |
| SkillsSection.BoxesSplit | src/components/sections/skills-section.tsx:26-32 | no category lands in both boxes. Each box holds a category exactly when its id is one of the box's two ids, as often as the table lists it, and keeps table order |
| SkillsSection.ShippedBoxes | src/components/sections/skills-section.tsx:26-32 | with the shipped categories, Development shows Frontend then Backend, and Operations & Design shows Tools & DevOps then Design. Together the boxes show every category once |
| SkillsSection.CategoryItems | src/components/sections/skills-section.tsx:131-137 | a category shows one row per slug, in order, and each row is what `TechnologyListItem` renders |
| SkillsSection.NamedItems | src/components/sections/skills-section.tsx:125-137 | when every slug has a name, each row shows that name and the icon from the icon table |
| SkillsSection.ShippedSlugsNamed | src/data/content.ts:204-229 | every slug in the shipped categories has a name in `iconSlugToName` |

## Left out

- Rendering, CSS classes, animation (framer-motion springs, `AnimatePresence`), images and their `onError` fallbacks are not modelled. Only the values a component shows are.
- Timers are events with no clock. `setTimeout` delays are returned by the methods that set the timers: `RippleCleanupMs` (800 + 150) by `CreateRipple`, `CopiedResetMs` (1000) by `HandleCopyEmail`, and the typing delays by `Terminal.Step`. The cleanup functions that clear a pending timeout are not modelled, because the effect re-runs only after its own timer fires.
- The cursor blink of the typewriter terminal (`showCursor`, a 530 ms interval) and the terminal's scroll ref are not modelled. They change only whether a cursor glyph is drawn.
- Typewriter.Terminal: the `lines`, `typeSpeed` and `lineDelay` props are fixed for the component's life. A change of props mid-typing, which re-runs the effect, is not modelled.
- Highlighter.HighlightKeywords: an empty text makes `highlightKeywords` return the empty string itself. The model returns no pieces, which renders the same.
- Text lengths and indexes count UTF-16 code units as `char`s. There is no Unicode handling.
- JavaScript lookups `key in obj` and `obj[key]` also see inherited properties such as `constructor`. The model uses maps, which have only their own keys. No shipped name collides with an inherited property.
- ContactSection.ContactCard.CreateRipple: the `!cardRef.current` guard is not modelled, because the card is always mounted when it is clicked. Pointer coordinates are whole numbers.
- The pointer spotlight of the contact cards (`handlePointerMove` and `reset`, contact-section.tsx lines 130-142) and `MagneticWrapper` (lines 47-97) are not modelled. They are motion values that only move decorations.
- The contact cards render `label` only. The X, Telegram and Substack `sublabel` values are modelled in `Content` but not shown by the section.
- The clipboard is a field of `ContactSection.Section`. The browser API and its asynchronous result are not modelled. The address copied is `personalInfo.email`, which is the same `NEXT_PUBLIC_USER_EMAIL` value, passed in as a parameter.
- Lens coordinates are exact `real`s. Floating point and NaN are not modelled.
- Lens.Lens.constructor: requires props that pass `Validate`. The component throws during render otherwise, and `Validate` models that error path with its messages. The messages say "greater than" while the checks accept 1 and 0.
- The lens props `duration`, `lensColor` and `ariaLabel` only affect rendering and are not modelled.
- The `description`, `image` and `title` of projects, and the `skills` and `name` of categories, appear only as rendered text. They are carried as data, and nothing is proved about them.
- `TechItem` (project-drawer.tsx lines 66-71) is not modelled, because the drawer never uses it: it filters the stack into rows itself. `TechBadge` only renders a name.
- The `iconSlugToName` fallback and the bare-slug fallback in `getTechnologyIcon` are modelled (`TechnologyIcons.LookupIcon`), but the shipped tables never reach them for the shipped slugs.
- `src/components/ui/globe.tsx`, `sheet.tsx`, `src/lib/utils.ts`, the hero section apart from the props it mounts the terminal with, the navigation dock, the beam, grid and theme components, and the unused data in `content.ts` (`terminalLogs`, `socialLinks`, `skillCategories`, `themeConfig`, `iconCloudIcons`, and the fields of `personalInfo` other than `email`) are not part of this model.
