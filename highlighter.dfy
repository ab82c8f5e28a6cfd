/** The keyword highlighter of the typewriter terminal: `highlightKeywords`
    (src/components/ui/typewriter-terminal.tsx). It cuts a line of text into
    plain runs and gold-accented keywords. The scan is defined for any list
    `ks` of non-empty keywords; the terminal uses `Keywords`. */
module Highlighter {
  import opened Wrappers
  import opened Text

  /** HIGHLIGHT_KEYWORDS, in list order (the order decides ties). */
  const Keywords: seq<string> := [
    "High-Performance",
    "Scalability",
    "UX Precision",
    "Next.js",
    "TypeScript",
    "Cloud Architecture",
    "[OK]",
    "[INFO]",
    "[STATUS]",
    "[READY]",
    "Toronto, ON"
  ]

  /** A keyword list the scan can work with: every keyword is non-empty,
      which is what makes the scan terminate. */
  predicate ValidKeywords(ks: seq<string>) {
    forall j :: 0 <= j < |ks| ==> |ks[j]| > 0
  }

  lemma KeywordsValid()
    ensures ValidKeywords(Keywords)
  {
  }

  /** One child of the rendered line: a run of plain text, or a highlighted
      keyword in a `<span>` whose React key is `key`. */
  datatype Segment = Plain(text: string) | Highlight(key: nat, keyword: string)

  /** The text a segment shows. */
  function Shown(seg: Segment): string {
    match seg
    case Plain(t) => t
    case Highlight(_, w) => w
  }

  /** The text the segments show, one after the other. */
  function Concat(segs: seq<Segment>): string {
    if |segs| == 0 then "" else Shown(segs[0]) + Concat(segs[1..])
  }

  lemma {:induction false} ConcatAppend(a: seq<Segment>, b: seq<Segment>)
    ensures Concat(a + b) == Concat(a) + Concat(b)
  {
    if a != [] {
      assert (a + b)[1..] == a[1..] + b;
      ConcatAppend(a[1..], b);
    } else {
      assert a + b == b;
    }
  }

  /** A match found by the inner `for` loop: keyword `ks[keywordIndex]` first
      occurs at `index`. */
  datatype Match = Match(keywordIndex: nat, index: nat)

  /** `m` is the earliest match among the first `n` keywords; on a tie at the
      same index the keyword earlier in the list wins. */
  predicate IsEarliest(ks: seq<string>, rest: string, n: nat, m: Match)
    requires n <= |ks|
  {
    && m.keywordIndex < n
    && IndexOf(rest, ks[m.keywordIndex]) == m.index
    && forall j :: 0 <= j < n && IndexOf(rest, ks[j]) != -1 ==>
         m.index < IndexOf(rest, ks[j]) || (m.index == IndexOf(rest, ks[j]) && m.keywordIndex <= j)
  }

  /** The value of `earliestMatch` after the inner loop has looked at the first
      `n` keywords. */
  function EarliestAmong(ks: seq<string>, rest: string, n: nat): (m: Option<Match>)
    requires n <= |ks|
    ensures m.Some? ==> m.value.keywordIndex < n && m.value.index + |ks[m.value.keywordIndex]| <= |rest|
  {
    if n == 0 then None
    else
      var best := EarliestAmong(ks, rest, n - 1);
      var index := IndexOf(rest, ks[n - 1]);
      if index != -1 && (best.None? || index < best.value.index) then Some(Match(n - 1, index))
      else best
  }

  /** The inner loop finds nothing exactly when no keyword occurs, and what it
      finds is the earliest match. */
  lemma {:induction false} EarliestAmongSpec(ks: seq<string>, rest: string, n: nat)
    requires n <= |ks|
    ensures EarliestAmong(ks, rest, n).None? <==> forall j :: 0 <= j < n ==> IndexOf(rest, ks[j]) == -1
    ensures EarliestAmong(ks, rest, n).Some? ==> IsEarliest(ks, rest, n, EarliestAmong(ks, rest, n).value)
  {
    if n > 0 {
      EarliestAmongSpec(ks, rest, n - 1);
    }
  }

  /** The earliest match over the whole keyword list. */
  function Earliest(ks: seq<string>, rest: string): (m: Option<Match>)
    ensures m.Some? ==> m.value.keywordIndex < |ks| && m.value.index + |ks[m.value.keywordIndex]| <= |rest|
  {
    EarliestAmong(ks, rest, |ks|)
  }

  /** `Earliest` is the earliest match, and `None` means no keyword occurs. */
  lemma EarliestSpec(ks: seq<string>, rest: string)
    ensures Earliest(ks, rest).None? <==> forall j :: 0 <= j < |ks| ==> IndexOf(rest, ks[j]) == -1
    ensures Earliest(ks, rest).Some? ==> IsEarliest(ks, rest, |ks|, Earliest(ks, rest).value)
  {
    EarliestAmongSpec(ks, rest, |ks|);
  }

  /** The inner `for` loop of `highlightKeywords`: the earliest keyword
      occurrence in `rest`, ties going to the keyword listed first. */
  method FindEarliestMatch(ks: seq<string>, rest: string) returns (earliestMatch: Option<Match>)
    ensures earliestMatch == Earliest(ks, rest)
  {
    earliestMatch := None;
    for j := 0 to |ks|
      invariant earliestMatch == EarliestAmong(ks, rest, j)
    {
      var index := IndexOf(rest, ks[j]);
      if index != -1 && (earliestMatch == None || index < earliestMatch.value.index) {
        earliestMatch := Some(Match(j, index));
      }
    }
  }

  /** The plain run the loop emits before a keyword; none when the keyword
      starts the remaining text (the `index > 0` test). */
  function PlainBefore(before: string): seq<Segment> {
    if |before| > 0 then [Plain(before)] else []
  }

  /** What one turn of the loop that finds keyword `w` emits. */
  function Step(before: string, key: nat, w: string): seq<Segment> {
    PlainBefore(before) + [Highlight(key, w)]
  }

  /** The segments the `while` loop emits for the text `rest` that remains,
      numbering highlighted keywords from `key` on. */
  function Scan(ks: seq<string>, rest: string, key: nat): (segs: seq<Segment>)
    requires ValidKeywords(ks)
    decreases |rest|, 1
  {
    if |rest| == 0 then [] else Turn(ks, rest, key)
  }

  /** One turn of the `while` loop on a non-empty `rest`, then the turns after it. */
  function Turn(ks: seq<string>, rest: string, key: nat): (segs: seq<Segment>)
    requires ValidKeywords(ks) && |rest| > 0
    decreases |rest|, 0
  {
    var e := Earliest(ks, rest);
    if e.None? then [Plain(rest)]
    else
      var keyword := ks[e.value.keywordIndex];
      var index := e.value.index;
      Step(rest[..index], key, keyword) + Scan(ks, rest[index + |keyword|..], key + 1)
  }

  /** A turn of the `while` loop that finds a keyword. */
  lemma ScanMatch(ks: seq<string>, rest: string, key: nat, m: Match)
    requires ValidKeywords(ks) && |rest| > 0 && Earliest(ks, rest) == Some(m)
    ensures m.keywordIndex < |ks| && 0 < |ks[m.keywordIndex]|
    ensures m.index + |ks[m.keywordIndex]| <= |rest|
    ensures Scan(ks, rest, key) ==
      Step(rest[..m.index], key, ks[m.keywordIndex]) + Scan(ks, rest[m.index + |ks[m.keywordIndex]|..], key + 1)
  {
    assert Scan(ks, rest, key) == Turn(ks, rest, key);
  }

  /** The turn of the `while` loop that finds no keyword ends the scan. */
  lemma ScanLast(ks: seq<string>, rest: string, key: nat)
    requires ValidKeywords(ks) && |rest| > 0 && Earliest(ks, rest) == None
    ensures Scan(ks, rest, key) == [Plain(rest)]
  {
    assert Scan(ks, rest, key) == Turn(ks, rest, key);
  }

  /** `Scan` with the segments already emitted carried along: the loop of
      `highlightKeywords` computes exactly this. */
  function ScanFrom(ks: seq<string>, rest: string, key: nat, acc: seq<Segment>): (segs: seq<Segment>)
    requires ValidKeywords(ks)
    decreases |rest|, 1
  {
    if |rest| == 0 then acc else TurnFrom(ks, rest, key, acc)
  }

  /** One turn of the `while` loop on a non-empty `rest`, then the turns after it. */
  function TurnFrom(ks: seq<string>, rest: string, key: nat, acc: seq<Segment>): (segs: seq<Segment>)
    requires ValidKeywords(ks) && |rest| > 0
    decreases |rest|, 0
  {
    var e := Earliest(ks, rest);
    if e.None? then acc + [Plain(rest)]
    else
      var keyword := ks[e.value.keywordIndex];
      var index := e.value.index;
      ScanFrom(ks, rest[index + |keyword|..], key + 1,
        (if index > 0 then acc + [Plain(rest[..index])] else acc) + [Highlight(key, keyword)])
  }

  /** The accumulated form emits the segments `Scan` describes after `acc`. */
  lemma {:induction false} ScanFromIsScan(ks: seq<string>, rest: string, key: nat, acc: seq<Segment>)
    requires ValidKeywords(ks)
    ensures ScanFrom(ks, rest, key, acc) == acc + Scan(ks, rest, key)
    decreases |rest|
  {
    if |rest| == 0 {
      assert acc + [] == acc;
    } else {
      var e := Earliest(ks, rest);
      assert ScanFrom(ks, rest, key, acc) == TurnFrom(ks, rest, key, acc);
      if e.Some? {
        var m := e.value;
        ScanMatch(ks, rest, key, m);
        var keyword := ks[m.keywordIndex];
        var after := rest[m.index + |keyword|..];
        var acc' := (if m.index > 0 then acc + [Plain(rest[..m.index])] else acc) + [Highlight(key, keyword)];
        ScanFromIsScan(ks, after, key + 1, acc');
        AccStep(acc, rest[..m.index], key, keyword, Scan(ks, after, key + 1));
      }
    }
  }

  /** Appending one turn to the accumulator, then the rest. */
  lemma AccStep(acc: seq<Segment>, before: string, key: nat, w: string, tail: seq<Segment>)
    ensures ((if |before| > 0 then acc + [Plain(before)] else acc) + [Highlight(key, w)]) + tail
         == acc + (Step(before, key, w) + tail)
  {
    if |before| > 0 {
      assert Step(before, key, w) == [Plain(before), Highlight(key, w)];
    } else {
      assert Step(before, key, w) == [Highlight(key, w)];
    }
  }

  /** One turn of the loop that finds a keyword, in the accumulated form. */
  lemma ScanFromStep(ks: seq<string>, rest: string, key: nat, acc: seq<Segment>, m: Match, acc': seq<Segment>)
    requires ValidKeywords(ks) && |rest| > 0 && Earliest(ks, rest) == Some(m)
    requires m.keywordIndex < |ks| && m.index + |ks[m.keywordIndex]| <= |rest|
    requires acc' == (if m.index > 0 then acc + [Plain(rest[..m.index])] else acc) + [Highlight(key, ks[m.keywordIndex])]
    ensures ScanFrom(ks, rest, key, acc) == ScanFrom(ks, rest[m.index + |ks[m.keywordIndex]|..], key + 1, acc')
  {
    assert ScanFrom(ks, rest, key, acc) == TurnFrom(ks, rest, key, acc);
  }

  /** The turn of the loop that finds no keyword ends the scan. */
  lemma ScanFromLast(ks: seq<string>, rest: string, key: nat, acc: seq<Segment>)
    requires ValidKeywords(ks) && |rest| > 0 && Earliest(ks, rest) == None
    ensures ScanFrom(ks, rest, key, acc) == acc + [Plain(rest)]
  {
    assert ScanFrom(ks, rest, key, acc) == TurnFrom(ks, rest, key, acc);
  }

  /** The body of `highlightKeywords`, for the keyword list `ks`. The early
      return for the empty text gives back the empty string, which renders
      as no segments at all. */
  method HighlightWith(ks: seq<string>, text: string) returns (result: seq<Segment>)
    requires ValidKeywords(ks)
    ensures result == Scan(ks, text, 0)
  {
    ScanFromIsScan(ks, text, 0, []);
    if |text| == 0 {
      return [];
    }
    ghost var goal := ScanFrom(ks, text, 0, []);
    result := [];
    var remainingText := text;
    var keyIndex: nat := 0;
    while |remainingText| > 0
      invariant ScanFrom(ks, remainingText, keyIndex, result) == goal
      decreases |remainingText|
    {
      var earliestMatch := FindEarliestMatch(ks, remainingText);
      if earliestMatch.Some? {
        var m := earliestMatch.value;
        var keyword := ks[m.keywordIndex];
        ghost var acc := result;
        if m.index > 0 {
          result := result + [Plain(remainingText[..m.index])];
        }
        result := result + [Highlight(keyIndex, keyword)];
        ScanFromStep(ks, remainingText, keyIndex, acc, m, result);
        keyIndex := keyIndex + 1;
        remainingText := remainingText[m.index + |keyword|..];
      } else {
        ScanFromLast(ks, remainingText, keyIndex, result);
        result := result + [Plain(remainingText)];
        break;
      }
    }
  }

  /** `highlightKeywords(text)`, over `HIGHLIGHT_KEYWORDS`. */
  method HighlightKeywords(text: string) returns (result: seq<Segment>)
    ensures ValidKeywords(Keywords) && result == Scan(Keywords, text, 0)
  {
    KeywordsValid();
    result := HighlightWith(Keywords, text);
  }

  // Properties of the segments, stated for every remaining text and key.

  /** Each keyword occurrence in `rest` starts no earlier than the chosen match. */
  lemma {:induction false} NothingBeforeMatch(ks: seq<string>, rest: string, m: Match, j: nat, p: int)
    requires Earliest(ks, rest) == Some(m) && j < |ks| && OccursAt(rest, ks[j], p)
    ensures m.index <= p
    ensures m.index == p ==> m.keywordIndex <= j
  {
    EarliestSpec(ks, rest);
    var r := IndexOf(rest, ks[j]);
    if r == -1 || p < r {
      IndexOfFirst(rest, ks[j], p);
    }
  }

  /** With no match, no keyword occurs anywhere in `rest`. */
  lemma {:induction false} NoMatchNoOccurrence(ks: seq<string>, rest: string, j: nat, p: int)
    requires Earliest(ks, rest) == None && j < |ks|
    ensures !OccursAt(rest, ks[j], p)
  {
    EarliestSpec(ks, rest);
    if 0 <= p {
      IndexOfFirst(rest, ks[j], p);
    }
  }

  /** The match is an occurrence of its keyword. */
  lemma MatchOccurs(ks: seq<string>, rest: string, m: Match)
    requires Earliest(ks, rest) == Some(m)
    ensures m.keywordIndex < |ks| && OccursAt(rest, ks[m.keywordIndex], m.index)
  {
    EarliestSpec(ks, rest);
    IndexOfFound(rest, ks[m.keywordIndex]);
  }

  /** The matched keyword splits the remaining text into the part before it,
      the keyword and the part after it. */
  lemma {:induction false} SplitAtMatch(ks: seq<string>, rest: string, m: Match)
    requires Earliest(ks, rest) == Some(m)
    ensures m.keywordIndex < |ks| && m.index + |ks[m.keywordIndex]| <= |rest|
    ensures rest == rest[..m.index] + ks[m.keywordIndex] + rest[m.index + |ks[m.keywordIndex]|..]
  {
    var w := ks[m.keywordIndex];
    MatchOccurs(ks, rest, m);
    assert rest[m.index..m.index + |w|] == w;
    assert rest == rest[..m.index] + rest[m.index..m.index + |w|] + rest[m.index + |w|..];
  }

  lemma ConcatSingle(seg: Segment)
    ensures Concat([seg]) == Shown(seg)
  {
    assert Concat([seg]) == Shown(seg) + Concat([]);
  }

  /** What one turn shows: the plain run, then the keyword. */
  lemma ConcatStep(before: string, key: nat, w: string)
    ensures Concat(Step(before, key, w)) == before + w
  {
    ConcatAppend(PlainBefore(before), [Highlight(key, w)]);
    ConcatSingle(Highlight(key, w));
    if |before| > 0 {
      ConcatSingle(Plain(before));
    } else {
      assert before == "";
    }
  }

  /** Round trip: the segments, concatenated in order, give back the text. */
  lemma {:induction false} ScanConcat(ks: seq<string>, rest: string, key: nat)
    requires ValidKeywords(ks)
    ensures Concat(Scan(ks, rest, key)) == rest
    decreases |rest|
  {
    if |rest| > 0 {
      var e := Earliest(ks, rest);
      if e.None? {
        ScanLast(ks, rest, key);
        ConcatSingle(Plain(rest));
      } else {
        var m := e.value;
        ScanMatch(ks, rest, key, m);
        SplitAtMatch(ks, rest, m);
        var w := ks[m.keywordIndex];
        var after := rest[m.index + |w|..];
        ScanConcat(ks, after, key + 1);
        ConcatStep(rest[..m.index], key, w);
        ConcatAppend(Step(rest[..m.index], key, w), Scan(ks, after, key + 1));
      }
    }
  }

  /** The numbers the highlighted segments carry as React keys, in order. */
  function Keys(segs: seq<Segment>): seq<nat> {
    if |segs| == 0 then []
    else (if segs[0].Highlight? then [segs[0].key] else []) + Keys(segs[1..])
  }

  lemma {:induction false} KeysAppend(a: seq<Segment>, b: seq<Segment>)
    ensures Keys(a + b) == Keys(a) + Keys(b)
  {
    if a == [] {
      assert a + b == b;
    } else {
      assert (a + b)[1..] == a[1..] + b;
      KeysAppend(a[1..], b);
    }
  }

  /** The `n` numbers `from`, `from + 1`, ..., `from + n - 1`. */
  function Range(from: nat, n: nat): (r: seq<nat>)
    ensures |r| == n
    ensures forall i :: 0 <= i < n ==> r[i] == from + i
    decreases n
  {
    if n == 0 then [] else [from] + Range(from + 1, n - 1)
  }

  /** The highlights of `segs` are keyed `key`, `key + 1`, ... in order. */
  predicate KeyedFrom(segs: seq<Segment>, key: nat) {
    Keys(segs) == Range(key, |Keys(segs)|)
  }

  /** The highlighted keywords are keyed `key`, `key + 1`, ... in order, so
      the React keys of one line are distinct. */
  lemma {:induction false} ScanKeys(ks: seq<string>, rest: string, key: nat)
    requires ValidKeywords(ks)
    ensures KeyedFrom(Scan(ks, rest, key), key)
    decreases |rest|
  {
    var e := Earliest(ks, rest);
    if |rest| == 0 || e.None? {
      assert Keys(Scan(ks, rest, key)) == [] by {
        if |rest| > 0 {
          ScanLast(ks, rest, key);
          assert Keys([Plain(rest)]) == [] + Keys([]);
        }
      }
    } else {
      var m := e.value;
      ScanMatch(ks, rest, key, m);
      var w := ks[m.keywordIndex];
      var tail := Scan(ks, rest[m.index + |w|..], key + 1);
      ScanKeys(ks, rest[m.index + |w|..], key + 1);
      KeysStep(rest[..m.index], key, w, tail);
    }
  }

  /** What one found keyword contributes to the keys. */
  lemma KeysStep(before: string, key: nat, w: string, tail: seq<Segment>)
    requires KeyedFrom(tail, key + 1)
    ensures KeyedFrom(Step(before, key, w) + tail, key)
  {
    KeysAppend(Step(before, key, w), tail);
    KeysAppend(PlainBefore(before), [Highlight(key, w)]);
    if |before| > 0 {
      assert Keys(PlainBefore(before)) == [] + Keys([]);
    }
    assert Keys([Highlight(key, w)]) == [key] + Keys([]);
  }

  /** A segment the scan may emit: a plain run is never empty and a highlight
      shows a keyword of the list. */
  predicate SegmentOk(ks: seq<string>, seg: Segment) {
    match seg
    case Plain(t) => |t| > 0
    case Highlight(_, w) => w in ks
  }

  predicate SegmentsOk(ks: seq<string>, segs: seq<Segment>) {
    forall i :: 0 <= i < |segs| ==> SegmentOk(ks, segs[i])
  }

  /** Every emitted segment is well formed: no empty plain run is emitted
      before a keyword, and every highlight is an entry of the list. */
  lemma {:induction false} ScanSegmentsOk(ks: seq<string>, rest: string, key: nat)
    requires ValidKeywords(ks)
    ensures SegmentsOk(ks, Scan(ks, rest, key))
    decreases |rest|
  {
    if |rest| > 0 {
      var e := Earliest(ks, rest);
      if e.Some? {
        var m := e.value;
        ScanMatch(ks, rest, key, m);
        var w := ks[m.keywordIndex];
        var tail := Scan(ks, rest[m.index + |w|..], key + 1);
        ScanSegmentsOk(ks, rest[m.index + |w|..], key + 1);
        SegmentsOkStep(ks, rest[..m.index], key, m.keywordIndex, tail);
      } else {
        ScanLast(ks, rest, key);
      }
    }
  }

  lemma SegmentsOkStep(ks: seq<string>, before: string, key: nat, k: nat, tail: seq<Segment>)
    requires k < |ks| && SegmentsOk(ks, tail)
    ensures SegmentsOk(ks, Step(before, key, ks[k]) + tail)
  {
    var head := Step(before, key, ks[k]);
    var segs := head + tail;
    forall i | 0 <= i < |segs|
      ensures SegmentOk(ks, segs[i])
    {
      if i >= |head| {
        assert segs[i] == tail[i - |head|];
      } else if i == |head| - 1 {
        assert segs[i] == Highlight(key, ks[k]);
      } else {
        assert segs[i] == Plain(before);
      }
    }
  }

  /** No keyword of `ks` starts at position `p` of `s`. */
  predicate NoKeywordAt(ks: seq<string>, s: string, p: int) {
    forall j :: 0 <= j < |ks| ==> !OccursAt(s, ks[j], p)
  }

  /** `w` starts at position `p` of `s`, and no keyword listed before it does. */
  predicate FirstKeywordAt(ks: seq<string>, s: string, w: string, p: int) {
    exists k :: 0 <= k < |ks| && ks[k] == w && OccursAt(s, w, p)
      && forall j :: 0 <= j < k ==> !OccursAt(s, ks[j], p)
  }

  lemma OccursShift(s: string, a: nat, w: string, q: nat)
    requires a <= |s|
    ensures OccursAt(s[a..], w, q) <==> OccursAt(s, w, a + q)
  {
    if a + q + |w| <= |s| {
      assert s[a..][q..q + |w|] == s[a + q..a + q + |w|];
    }
  }

  lemma NoKeywordShift(ks: seq<string>, s: string, a: nat, q: nat)
    requires a <= |s| && NoKeywordAt(ks, s[a..], q)
    ensures NoKeywordAt(ks, s, a + q)
  {
    forall j | 0 <= j < |ks|
      ensures !OccursAt(s, ks[j], a + q)
    {
      OccursShift(s, a, ks[j], q);
    }
  }

  lemma FirstKeywordShift(ks: seq<string>, s: string, w: string, a: nat, q: nat)
    requires a <= |s| && FirstKeywordAt(ks, s[a..], w, q)
    ensures FirstKeywordAt(ks, s, w, a + q)
  {
    var k :| 0 <= k < |ks| && ks[k] == w && OccursAt(s[a..], w, q)
      && forall j :: 0 <= j < k ==> !OccursAt(s[a..], ks[j], q);
    OccursShift(s, a, w, q);
    forall j | 0 <= j < k
      ensures !OccursAt(s, ks[j], a + q)
    {
      OccursShift(s, a, ks[j], q);
    }
  }

  /** Where a segment starting at offset `o` of `rest` sits: a plain run covers
      no position at which a keyword starts, and a highlight sits where its
      keyword starts, the first of the list to start there (the strict `<` of
      the inner loop keeps the earlier keyword on a tie). */
  predicate SegmentAt(ks: seq<string>, rest: string, seg: Segment, o: nat) {
    match seg
    case Plain(t) => forall p :: o <= p < o + |t| ==> NoKeywordAt(ks, rest, p)
    case Highlight(_, w) => FirstKeywordAt(ks, rest, w, o)
  }

  /** Each segment, placed at the offset the segments before it show, sits
      where `SegmentAt` says: no keyword starts inside a plain run, and each
      highlight is the first listed keyword starting at its place. */
  lemma {:induction false} ScanSegmentAt(ks: seq<string>, rest: string, key: nat, i: nat)
    requires ValidKeywords(ks) && i < |Scan(ks, rest, key)|
    ensures SegmentAt(ks, rest, Scan(ks, rest, key)[i], |Concat(Scan(ks, rest, key)[..i])|)
    decreases |rest|
  {
    var e := Earliest(ks, rest);
    if e.None? {
      ScanSegmentNoMatch(ks, rest, key, i);
    } else {
      var m := e.value;
      ScanMatch(ks, rest, key, m);
      var w := ks[m.keywordIndex];
      var head := Step(rest[..m.index], key, w);
      if i < |head| {
        ScanSegmentHead(ks, rest, key, m, i);
      } else {
        var a := m.index + |w|;
        ConcatStep(rest[..m.index], key, w);
        ScanSegmentAt(ks, rest[a..], key + 1, i - |head|);
        TailSegment(ks, rest, a, rest[a..], head, Scan(ks, rest[a..], key + 1), Scan(ks, rest, key), i - |head|);
      }
    }
  }

  lemma ScanSegmentNoMatch(ks: seq<string>, rest: string, key: nat, i: nat)
    requires ValidKeywords(ks) && |rest| > 0 && Earliest(ks, rest) == None
    requires i < |Scan(ks, rest, key)|
    ensures SegmentAt(ks, rest, Scan(ks, rest, key)[i], |Concat(Scan(ks, rest, key)[..i])|)
  {
    ScanLast(ks, rest, key);
    NoMatchSegment(ks, rest);
    assert i == 0 && Scan(ks, rest, key)[..i] == [];
  }

  lemma ScanSegmentHead(ks: seq<string>, rest: string, key: nat, m: Match, i: nat)
    requires ValidKeywords(ks) && |rest| > 0 && Earliest(ks, rest) == Some(m)
    requires i < |Step(rest[..m.index], key, ks[m.keywordIndex])|
    ensures i < |Scan(ks, rest, key)|
    ensures SegmentAt(ks, rest, Scan(ks, rest, key)[i], |Concat(Scan(ks, rest, key)[..i])|)
  {
    ScanMatch(ks, rest, key, m);
    PlainBeforeMatch(ks, rest, m);
    HighlightAtMatch(ks, rest, m);
    HeadSegments(ks, rest, m, key, Scan(ks, rest[m.index + |ks[m.keywordIndex]|..], key + 1), i);
  }

  /** With no match, the single plain run covers no keyword start. */
  lemma NoMatchSegment(ks: seq<string>, rest: string)
    requires Earliest(ks, rest) == None
    ensures SegmentAt(ks, rest, Plain(rest), 0)
  {
    forall p, j | 0 <= p < |rest| && 0 <= j < |ks|
      ensures !OccursAt(rest, ks[j], p)
    {
      NoMatchNoOccurrence(ks, rest, j, p);
    }
  }

  /** The text before the match holds no keyword start. */
  lemma PlainBeforeMatch(ks: seq<string>, rest: string, m: Match)
    requires Earliest(ks, rest) == Some(m)
    ensures forall p :: 0 <= p < m.index ==> NoKeywordAt(ks, rest, p)
  {
    forall p, j | 0 <= p < m.index && 0 <= j < |ks|
      ensures !OccursAt(rest, ks[j], p)
    {
      if OccursAt(rest, ks[j], p) {
        NothingBeforeMatch(ks, rest, m, j, p);
      }
    }
  }

  /** The matched keyword is the first of the list to start at the match. */
  lemma HighlightAtMatch(ks: seq<string>, rest: string, m: Match)
    requires Earliest(ks, rest) == Some(m)
    ensures m.keywordIndex < |ks| && FirstKeywordAt(ks, rest, ks[m.keywordIndex], m.index)
  {
    var k := m.keywordIndex;
    MatchOccurs(ks, rest, m);
    forall j | 0 <= j < k
      ensures !OccursAt(rest, ks[j], m.index)
    {
      if OccursAt(rest, ks[j], m.index) {
        NothingBeforeMatch(ks, rest, m, j, m.index);
      }
    }
  }

  /** The plain run before a match and the match itself sit where they should. */
  lemma HeadSegments(ks: seq<string>, rest: string, m: Match, key: nat, tail: seq<Segment>, i: nat)
    requires m.keywordIndex < |ks| && m.index <= |rest|
    requires forall p :: 0 <= p < m.index ==> NoKeywordAt(ks, rest, p)
    requires FirstKeywordAt(ks, rest, ks[m.keywordIndex], m.index)
    requires i < |Step(rest[..m.index], key, ks[m.keywordIndex])|
    ensures SegmentAt(ks, rest, (Step(rest[..m.index], key, ks[m.keywordIndex]) + tail)[i],
      |Concat((Step(rest[..m.index], key, ks[m.keywordIndex]) + tail)[..i])|)
  {
    var before := rest[..m.index];
    var head := Step(before, key, ks[m.keywordIndex]);
    var segs := head + tail;
    if i < |head| - 1 {
      assert |before| > 0 && segs[i] == Plain(before) && segs[..i] == [];
    } else {
      assert segs[i] == Highlight(key, ks[m.keywordIndex]) && segs[..i] == PlainBefore(before);
      if |before| > 0 {
        ConcatSingle(Plain(before));
      }
    }
  }

  /** A segment after the match sits, in `rest`, past the match by as much as
      it sits into the text after the match. */
  lemma TailSegment(ks: seq<string>, rest: string, a: nat, after: string,
                    head: seq<Segment>, tail: seq<Segment>, segs: seq<Segment>, j: nat)
    requires a <= |rest| && after == rest[a..] && segs == head + tail
    requires |Concat(head)| == a && j < |tail|
    requires SegmentAt(ks, after, tail[j], |Concat(tail[..j])|)
    ensures SegmentAt(ks, rest, segs[|head| + j], |Concat(segs[..|head| + j])|)
  {
    assert segs[|head| + j] == tail[j];
    assert segs[..|head| + j] == head + tail[..j];
    ConcatAppend(head, tail[..j]);
    ShiftSegment(ks, rest, a, tail[j], |Concat(tail[..j])|);
  }

  /** A segment placed in a suffix keeps its meaning in the whole text. */
  lemma ShiftSegment(ks: seq<string>, rest: string, a: nat, seg: Segment, o: nat)
    requires a <= |rest| && SegmentAt(ks, rest[a..], seg, o)
    ensures SegmentAt(ks, rest, seg, a + o)
  {
    match seg
    case Plain(t) =>
      forall p | a + o <= p < a + o + |t|
        ensures NoKeywordAt(ks, rest, p)
      {
        NoKeywordShift(ks, rest, a, p - a);
      }
    case Highlight(_, w) =>
      FirstKeywordShift(ks, rest, w, a, o);
  }
}
