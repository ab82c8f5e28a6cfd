/** The typing effect of the typewriter terminal
    (src/components/ui/typewriter-terminal.tsx): a state machine over the
    React state `displayedLines`, `currentLineIndex`, `currentCharIndex` and
    `isTyping`. One run of the effect together with the firing of the timer it
    sets is one step; the timer's delay is what the step returns. */
module Typewriter {
  import opened Wrappers
  import opened Highlighter

  /** `TerminalLine.type`. */
  datatype LineKind = Command | Response | Shell | Identity

  /** `TerminalLine`: `delay` is optional. */
  datatype TerminalLine = TerminalLine(kind: LineKind, text: string, delay: Option<int>)

  /** The props' defaults. */
  const DefaultTypeSpeed: int := 40
  const DefaultLineDelay: int := 300

  /** `aboutTerminalLines`, the boot sequence the site shows. */
  const AboutTerminalLines: seq<TerminalLine> := [
    TerminalLine(Shell, "[ $ ] whoami", Some(500)),
    TerminalLine(Identity, "Yonis Diriye", Some(500)),
    TerminalLine(Command, "init system --target=production", Some(500)),
    TerminalLine(Response, "[OK] Loading modules: Next.js, TypeScript, Cloud Architecture...", Some(600)),
    TerminalLine(Response, "[INFO] Optimizing for: High-Performance, Scalability, UX Precision.", Some(600)),
    TerminalLine(Response, "[STATUS] Core System Active. Location: Toronto, ON.", Some(600)),
    TerminalLine(Response, "[READY] Awaiting Input...", Some(800))
  ]

  /** The pause after a completed line, `currentLine.delay || lineDelay`: a
      missing delay and a delay of 0 both fall back to `lineDelay`. */
  function LineDelay(line: TerminalLine, lineDelay: int): (d: int)
    ensures line.delay.Some? && line.delay.value != 0 ==> d == line.delay.value
    ensures line.delay.None? || line.delay.value == 0 ==> d == lineDelay
    ensures d == 0 ==> lineDelay == 0
  {
    match line.delay
    case Some(v) => if v != 0 then v else lineDelay
    case None => lineDelay
  }

  /** The state the typing effect reads and writes. */
  datatype TypingState = TypingState(
    displayedLines: seq<string>,
    currentLineIndex: nat,
    currentCharIndex: nat,
    isTyping: bool)

  /** The state on mount. */
  const Initial: TypingState := TypingState([], 0, 0, true)

  /** The `setDisplayedLines` updater: copy the lines, then append `typed` when
      the copy has no entry at `index`, or overwrite that entry. */
  function Typed(prev: seq<string>, index: nat, typed: string): seq<string> {
    if |prev| <= index then prev + [typed] else prev[index := typed]
  }

  /** One step: the effect run for `st` followed by its timer firing. */
  function Next(lines: seq<TerminalLine>, st: TypingState): TypingState {
    if st.currentLineIndex >= |lines| then st.(isTyping := false)
    else
      var fullText := lines[st.currentLineIndex].text;
      if st.currentCharIndex < |fullText| then
        st.(displayedLines := Typed(st.displayedLines, st.currentLineIndex, fullText[..st.currentCharIndex + 1]),
            currentCharIndex := st.currentCharIndex + 1)
      else
        st.(currentLineIndex := st.currentLineIndex + 1, currentCharIndex := 0)
  }

  /** The delay of the timer the effect sets in `st`; none once the lines have
      run out. */
  function Delay(lines: seq<TerminalLine>, st: TypingState, typeSpeed: int, lineDelay: int): Option<int> {
    if st.currentLineIndex >= |lines| then None
    else if st.currentCharIndex < |lines[st.currentLineIndex].text| then Some(typeSpeed)
    else Some(LineDelay(lines[st.currentLineIndex], lineDelay))
  }

  /** `n` steps from `st`. */
  function Run(lines: seq<TerminalLine>, st: TypingState, n: nat): TypingState
    decreases n
  {
    if n == 0 then st else Run(lines, Next(lines, st), n - 1)
  }

  /** The component, its state held in fields. */
  class Terminal {
    const lines: seq<TerminalLine>
    const typeSpeed: int
    const lineDelay: int
    var displayedLines: seq<string>
    var currentLineIndex: nat
    var currentCharIndex: nat
    var isTyping: bool

    function State(): TypingState
      reads this
    {
      TypingState(displayedLines, currentLineIndex, currentCharIndex, isTyping)
    }

    constructor(lines: seq<TerminalLine>, typeSpeed: int, lineDelay: int)
      ensures this.lines == lines && this.typeSpeed == typeSpeed && this.lineDelay == lineDelay
      ensures State() == Initial
    {
      this.lines := lines;
      this.typeSpeed := typeSpeed;
      this.lineDelay := lineDelay;
      displayedLines := [];
      currentLineIndex := 0;
      currentCharIndex := 0;
      isTyping := true;
    }

    /** The typing effect and the timer it sets: reveal one more character of
        the current line, or move on to the next line, or stop typing. The
        result is the timer's delay. */
    method Step() returns (delay: Option<int>)
      modifies this
      ensures State() == Next(lines, old(State()))
      ensures delay == Delay(lines, old(State()), typeSpeed, lineDelay)
    {
      if currentLineIndex >= |lines| {
        isTyping := false;
        return None;
      }
      var currentLine := lines[currentLineIndex];
      var fullText := currentLine.text;
      if currentCharIndex < |fullText| {
        var newLines := displayedLines;
        if |newLines| <= currentLineIndex {
          newLines := newLines + [fullText[..currentCharIndex + 1]];
        } else {
          newLines := newLines[currentLineIndex := fullText[..currentCharIndex + 1]];
        }
        displayedLines := newLines;
        currentCharIndex := currentCharIndex + 1;
        delay := Some(typeSpeed);
      } else {
        currentLineIndex := currentLineIndex + 1;
        currentCharIndex := 0;
        delay := Some(LineDelay(currentLine, lineDelay));
      }
    }
  }

  // What each step does.

  /** A character step on the current line: the entry at `currentLineIndex`
      becomes the next longer prefix of the line, the character index goes up
      by one, and every other entry is kept. This needs the entries before the
      current line to be there; see `EmptyLineBreaksAlignment` for when they
      are not. */
  lemma CharStep(lines: seq<TerminalLine>, st: TypingState)
    requires st.currentLineIndex < |lines| && st.currentCharIndex < |lines[st.currentLineIndex].text|
    requires st.currentLineIndex <= |st.displayedLines|
    ensures Next(lines, st).currentLineIndex == st.currentLineIndex
    ensures Next(lines, st).currentCharIndex == st.currentCharIndex + 1
    ensures Next(lines, st).isTyping == st.isTyping
    ensures |Next(lines, st).displayedLines| == if st.currentLineIndex < |st.displayedLines| then |st.displayedLines| else st.currentLineIndex + 1
    ensures Next(lines, st).displayedLines[st.currentLineIndex] == lines[st.currentLineIndex].text[..st.currentCharIndex + 1]
    ensures forall i :: 0 <= i < |st.displayedLines| && i != st.currentLineIndex ==>
      Next(lines, st).displayedLines[i] == st.displayedLines[i]
  {
  }

  /** A completed line moves to the next line at its first character and
      leaves the displayed lines alone. */
  lemma LineStep(lines: seq<TerminalLine>, st: TypingState)
    requires st.currentLineIndex < |lines| && st.currentCharIndex >= |lines[st.currentLineIndex].text|
    ensures Next(lines, st) == st.(currentLineIndex := st.currentLineIndex + 1, currentCharIndex := 0)
  {
  }

  /** Once the lines have run out, a step only stops the typing, and further
      steps change nothing. */
  lemma FinishedStep(lines: seq<TerminalLine>, st: TypingState, typeSpeed: int, lineDelay: int)
    requires st.currentLineIndex >= |lines|
    ensures Next(lines, st) == st.(isTyping := false)
    ensures Next(lines, Next(lines, st)) == Next(lines, st)
    ensures Delay(lines, st, typeSpeed, lineDelay).None?
  {
  }

  // The alignment of `displayedLines` with the line index.

  /** No line of the script is empty. */
  predicate NoEmptyLine(lines: seq<TerminalLine>) {
    forall i :: 0 <= i < |lines| ==> |lines[i].text| > 0
  }

  /** The indexes stay in range: the line index within the script, and the
      character index within the current line. */
  predicate InRange(lines: seq<TerminalLine>, st: TypingState) {
    && st.currentLineIndex <= |lines|
    && (st.currentLineIndex < |lines| ==> st.currentCharIndex <= |lines[st.currentLineIndex].text|)
    && (st.currentLineIndex == |lines| ==> st.currentCharIndex == 0)
  }

  /** `displayedLines` holds the full text of every past line and, once the
      current line has started, its typed prefix; nothing beyond. */
  predicate Aligned(lines: seq<TerminalLine>, st: TypingState) {
    && InRange(lines, st)
    && |st.displayedLines| == (if st.currentCharIndex == 0 then st.currentLineIndex else st.currentLineIndex + 1)
    && (forall i :: 0 <= i < st.currentLineIndex ==> st.displayedLines[i] == lines[i].text)
    && (st.currentCharIndex > 0 ==>
          st.displayedLines[st.currentLineIndex] == lines[st.currentLineIndex].text[..st.currentCharIndex])
  }

  /** Every step keeps the indexes in range. */
  lemma NextInRange(lines: seq<TerminalLine>, st: TypingState)
    requires InRange(lines, st)
    ensures InRange(lines, Next(lines, st))
  {
  }

  /** Without empty lines every step keeps `displayedLines` aligned. */
  lemma NextAligned(lines: seq<TerminalLine>, st: TypingState)
    requires NoEmptyLine(lines) && Aligned(lines, st)
    ensures Aligned(lines, Next(lines, st))
  {
    var li := st.currentLineIndex;
    if li < |lines| {
      var t := lines[li].text;
      if st.currentCharIndex == |t| {
        assert t[..|t|] == t;
      }
    }
  }

  /** Aligned means: each displayed entry is a prefix of its line, and there
      is one entry per started line. */
  lemma AlignedPrefixes(lines: seq<TerminalLine>, st: TypingState)
    requires Aligned(lines, st)
    ensures |st.displayedLines| == st.currentLineIndex || |st.displayedLines| == st.currentLineIndex + 1
    ensures |st.displayedLines| <= |lines|
    ensures forall i :: 0 <= i < |st.displayedLines| ==>
      st.displayedLines[i] <= lines[i].text
  {
  }

  /** Without empty lines, every state the terminal reaches is aligned. */
  lemma {:induction false} RunAligned(lines: seq<TerminalLine>, st: TypingState, n: nat)
    requires NoEmptyLine(lines) && Aligned(lines, st)
    ensures Aligned(lines, Run(lines, st, n))
    decreases n
  {
    if n > 0 {
      NextAligned(lines, st);
      RunAligned(lines, Next(lines, st), n - 1);
    }
  }

  /** The edge case: with the script `["", "ab"]`, the empty first line is
      skipped without an entry, so the first character of the second line is
      appended at index 0 and the current line shows nothing although one
      character has been typed. */
  lemma EmptyLineBreaksAlignment()
    ensures Run(EmptyFirst, Initial, 2) == TypingState(["a"], 1, 1, true)
    ensures !Aligned(EmptyFirst, Run(EmptyFirst, Initial, 2))
    ensures DisplayText(EmptyFirst, Run(EmptyFirst, Initial, 2), 1) == ""
  {
    var s1 := Next(EmptyFirst, Initial);
    assert s1 == TypingState([], 1, 0, true);
    assert "ab"[..1] == "a";
    var s2 := Next(EmptyFirst, s1);
    assert s2 == TypingState(["a"], 1, 1, true);
    assert Run(EmptyFirst, Initial, 2) == Run(EmptyFirst, s1, 1) == Run(EmptyFirst, s2, 0);
  }

  const EmptyFirst: seq<TerminalLine> := [TerminalLine(Response, "", None), TerminalLine(Response, "ab", None)]

  // Termination of the typing.

  /** The steps left from line `from` on: one per character and one to leave
      each line. */
  function Work(lines: seq<TerminalLine>, from: nat): (w: nat)
    ensures from < |lines| ==> w > |lines[from].text|
    decreases |lines| - from
  {
    if from >= |lines| then 0 else |lines[from].text| + 1 + Work(lines, from + 1)
  }

  /** The steps left before the lines run out. */
  function Remaining(lines: seq<TerminalLine>, st: TypingState): nat
    requires InRange(lines, st)
  {
    if st.currentLineIndex >= |lines| then 0 else Work(lines, st.currentLineIndex) - st.currentCharIndex
  }

  /** Each step before the end takes exactly one step off what remains, and
      nothing remains exactly when the lines have run out. */
  lemma NextProgress(lines: seq<TerminalLine>, st: TypingState)
    requires InRange(lines, st)
    ensures Remaining(lines, st) == 0 <==> st.currentLineIndex == |lines|
    ensures st.currentLineIndex < |lines| ==>
      InRange(lines, Next(lines, st)) && Remaining(lines, Next(lines, st)) == Remaining(lines, st) - 1
  {
  }

  /** After as many steps as remain, the lines have run out. */
  lemma {:induction false} RunToEnd(lines: seq<TerminalLine>, st: TypingState)
    requires InRange(lines, st)
    ensures Run(lines, st, Remaining(lines, st)).currentLineIndex == |lines|
    decreases Remaining(lines, st)
  {
    NextProgress(lines, st);
    if st.currentLineIndex < |lines| {
      RunToEnd(lines, Next(lines, st));
    }
  }

  /** Typing a script without empty lines ends, after one step per character
      and per line plus one, with typing stopped and every line displayed in
      full. */
  lemma TypingCompletes(lines: seq<TerminalLine>)
    requires NoEmptyLine(lines)
    ensures !Run(lines, Initial, Work(lines, 0) + 1).isTyping
    ensures Run(lines, Initial, Work(lines, 0) + 1).currentLineIndex == |lines|
    ensures |Run(lines, Initial, Work(lines, 0) + 1).displayedLines| == |lines|
    ensures forall i :: 0 <= i < |lines| ==> Run(lines, Initial, Work(lines, 0) + 1).displayedLines[i] == lines[i].text
  {
    var n := Work(lines, 0);
    assert Remaining(lines, Initial) == n;
    RunToEnd(lines, Initial);
    RunAligned(lines, Initial, n);
    RunSplit(lines, Initial, n);
  }

  lemma {:induction false} RunSplit(lines: seq<TerminalLine>, st: TypingState, n: nat)
    ensures Run(lines, st, n + 1) == Next(lines, Run(lines, st, n))
    decreases n
  {
    if n > 0 {
      RunSplit(lines, Next(lines, st), n - 1);
    }
  }

  // What the terminal shows.

  /** The text shown for line `index`: past lines in full, the current line
      as typed so far (`displayedLines[index] || ""`), later lines nothing. */
  function DisplayText(lines: seq<TerminalLine>, st: TypingState, index: nat): string
    requires index < |lines|
  {
    if index < st.currentLineIndex then lines[index].text
    else if index == st.currentLineIndex then
      (if index < |st.displayedLines| then st.displayedLines[index] else "")
    else ""
  }

  /** Whether line `index` is rendered at all: `!displayText && !isCurrentLine`
      renders nothing. */
  predicate LineRendered(lines: seq<TerminalLine>, st: TypingState, index: nat)
    requires index < |lines|
  {
    DisplayText(lines, st, index) != "" || index == st.currentLineIndex
  }

  /** In an aligned state the terminal shows past lines in full, the current
      line's typed prefix and nothing of later lines; exactly the started
      lines and the current one are rendered. */
  lemma AlignedDisplay(lines: seq<TerminalLine>, st: TypingState, index: nat)
    requires NoEmptyLine(lines) && Aligned(lines, st) && index < |lines|
    ensures index < st.currentLineIndex ==> DisplayText(lines, st, index) == lines[index].text
    ensures index == st.currentLineIndex ==>
      DisplayText(lines, st, index) == lines[index].text[..st.currentCharIndex]
    ensures index > st.currentLineIndex ==> DisplayText(lines, st, index) == ""
    ensures LineRendered(lines, st, index) <==> index <= st.currentLineIndex
  {
  }

  /** The body of a rendered line: response lines go through the keyword
      highlighter, the other kinds show their text as one plain run. */
  function LineBody(kind: LineKind, text: string): seq<Segment> {
    if kind == Response then Scan(Keywords, text, 0)
    else if |text| == 0 then []
    else [Plain(text)]
  }

  /** Whatever its kind, a line's body shows exactly its display text. */
  lemma LineBodyShowsText(kind: LineKind, text: string)
    ensures Concat(LineBody(kind, text)) == text
  {
    if kind == Response {
      KeywordsValid();
      ScanConcat(Keywords, text, 0);
    } else if |text| > 0 {
      ConcatSingle(Plain(text));
    }
  }

  /** With the default props, the shipped script types a character every
      40 ms and pauses after each line for the line's own delay, never for the
      300 ms default. */
  lemma AboutTerminalTiming(st: TypingState)
    requires st.currentLineIndex < |AboutTerminalLines|
    ensures st.currentCharIndex < |AboutTerminalLines[st.currentLineIndex].text| ==>
      Delay(AboutTerminalLines, st, DefaultTypeSpeed, DefaultLineDelay) == Some(40)
    ensures st.currentCharIndex >= |AboutTerminalLines[st.currentLineIndex].text| ==>
      Delay(AboutTerminalLines, st, DefaultTypeSpeed, DefaultLineDelay) == AboutTerminalLines[st.currentLineIndex].delay
    ensures Delay(AboutTerminalLines, st, DefaultTypeSpeed, DefaultLineDelay) != Some(DefaultLineDelay)
  {
  }

  /** The props the hero section mounts the terminal with. */
  const HeroTypeSpeed: int := 30
  const HeroLineDelay: int := 500

  /** As the hero section mounts it, the terminal types a character every
      30 ms and pauses after each line for the line's own delay: every line
      of the script sets one, so the 500 ms prop is never the fallback. */
  lemma HeroTerminalTiming(st: TypingState)
    requires st.currentLineIndex < |AboutTerminalLines|
    ensures st.currentCharIndex < |AboutTerminalLines[st.currentLineIndex].text| ==>
      Delay(AboutTerminalLines, st, HeroTypeSpeed, HeroLineDelay) == Some(30)
    ensures st.currentCharIndex >= |AboutTerminalLines[st.currentLineIndex].text| ==>
      Delay(AboutTerminalLines, st, HeroTypeSpeed, HeroLineDelay) == AboutTerminalLines[st.currentLineIndex].delay
    ensures AboutTerminalLines[st.currentLineIndex].delay.Some? && AboutTerminalLines[st.currentLineIndex].delay.value != 0
  {
  }

  /** No line of the shipped script is empty. */
  lemma AboutLinesNonEmpty()
    ensures NoEmptyLine(AboutTerminalLines)
  {
    var ls := AboutTerminalLines;
    assert |ls[0].text| > 0 && |ls[1].text| > 0 && |ls[2].text| > 0 && |ls[3].text| > 0;
    assert |ls[4].text| > 0 && |ls[5].text| > 0 && |ls[6].text| > 0;
  }

  /** So the shipped script types to the end, every line in full. */
  lemma AboutLinesComplete()
    ensures |Run(AboutTerminalLines, Initial, Work(AboutTerminalLines, 0) + 1).displayedLines| == |AboutTerminalLines|
    ensures forall i :: 0 <= i < |AboutTerminalLines| ==>
      Run(AboutTerminalLines, Initial, Work(AboutTerminalLines, 0) + 1).displayedLines[i] == AboutTerminalLines[i].text
  {
    AboutLinesNonEmpty();
    TypingCompletes(AboutTerminalLines);
  }
}
