/** The text handling of the graph orchestrator's analysis step: the keyword
    heuristics, the conversation-context header, the markdown-fence stripping,
    the `{...}` extraction used when a reply does not decode, and the
    capitalised-word guess of a location used when analysis fails. */
module QueryAnalysis {
  import opened Wrappers
  import opened Text
  import opened Chat

  // ---------------------------------------------------------------------
  // Keyword heuristics.
  // ---------------------------------------------------------------------

  const PlacesKeywords: seq<string> :=
    ["place", "attraction", "visit", "spot", "thing", "see", "do", "tourist", "sights", "landmark"]

  const ComplexKeywords: seq<string> :=
    ["plan", "trip", "weekend", "itinerary", "schedule", "visit for", "days in", "day in", "spend",
     "vacation", "travel to"]

  const DurationKeywords: seq<string> := ["days", "day", "weekend", "week"]

  /** `any(keyword in text for keyword in keywords)`: a substring test, so a
      keyword matches inside a longer word. */
  predicate MentionsAny(text: string, keywords: seq<string>) {
    exists k :: 0 <= k < |keywords| && Contains(text, keywords[k])
  }

  /** `sub` occurs in `s` at a known position. */
  lemma ContainsAt(s: string, sub: string, i: nat)
    requires i + |sub| <= |s| && s[i..i + |sub|] == sub
    ensures Contains(s, sub)
  {
    assert OccursAt(s, sub, i);
  }

  /** The keyword tests are substring tests: `"do"` is found in "london" and
      `"day"` in "today", so a weather question about London today counts as
      asking for places and as naming a duration. */
  lemma KeywordsMatchInsideWords()
    ensures MentionsAny(Lower("London"), PlacesKeywords)
    ensures MentionsAny(Lower("today"), DurationKeywords)
  {
    assert Lower("London") == "london";
    ContainsAt("london", "do", 3);
    assert PlacesKeywords[6] == "do";
    assert Lower("today") == "today";
    ContainsAt("today", "day", 2);
    assert DurationKeywords[1] == "day";
  }

  // ---------------------------------------------------------------------
  // Conversation context for the analysis prompt.
  // ---------------------------------------------------------------------

  const HistoryHeader: string := "\n\nPrevious conversation context:\n"

  /** `xs[-n:]` for `n > 0`. */
  function LastN<T>(xs: seq<T>, n: nat): (r: seq<T>)
    ensures |r| == if |xs| <= n then |xs| else n
    ensures r == xs[|xs| - |r|..]
  {
    if |xs| <= n then xs else xs[|xs| - n..]
  }

  function HistoryLine(m: Message): string {
    m.role + ": " + m.content + "\n"
  }

  /** One `role: content` line per message, in order. */
  function HistoryLines(messages: seq<Message>): string {
    if |messages| == 0 then ""
    else HistoryLines(messages[..|messages| - 1]) + HistoryLine(messages[|messages| - 1])
  }

  /** The context string: empty without history, otherwise a header followed by
      the last four messages. */
  function HistoryContext(history: seq<Message>): string {
    if |history| == 0 then "" else HistoryHeader + HistoryLines(LastN(history, 4))
  }

  /** The loop that extends the context string with `+=`. */
  method BuildHistoryContext(history: seq<Message>) returns (context: string)
    ensures context == HistoryContext(history)
  {
    context := "";
    if |history| > 0 {
      context := HistoryHeader;
      var recent := LastN(history, 4);
      var i := 0;
      while i < |recent|
        invariant 0 <= i <= |recent|
        invariant context == HistoryHeader + HistoryLines(recent[..i])
      {
        var msg := recent[i];
        assert recent[..i + 1][..i] == recent[..i];
        context := context + (msg.role + ": " + msg.content + "\n");
        i := i + 1;
      }
      assert recent[..i] == recent;
    }
  }

  /** The lines of several messages are the lines of each, in order. */
  lemma {:induction false} HistoryLinesAppend(a: seq<Message>, b: seq<Message>)
    ensures HistoryLines(a + b) == HistoryLines(a) + HistoryLines(b)
  {
    if |b| == 0 {
      assert a + b == a;
    } else {
      var b' := b[..|b| - 1];
      assert (a + b)[..|a + b| - 1] == a + b';
      HistoryLinesAppend(a, b');
    }
  }

  /** Only the last four messages reach the prompt: anything said before them
      makes no difference. */
  lemma HistoryContextUsesLastFour(earlier: seq<Message>, recent: seq<Message>)
    requires |recent| >= 4
    ensures HistoryContext(earlier + recent) == HistoryContext(recent)
    ensures HistoryContext(recent) == HistoryHeader + HistoryLines(recent[|recent| - 4..])
  {
    var all := earlier + recent;
    assert LastN(all, 4) == all[|all| - 4..];
    assert LastN(recent, 4) == recent[|recent| - 4..];
    assert all[|all| - 4..] == recent[|recent| - 4..];
  }

  /** The context is empty exactly when there is no history; otherwise it is
      the header and one line for each of the last (at most four) messages. */
  lemma HistoryContextShape(history: seq<Message>)
    ensures HistoryContext(history) == "" <==> |history| == 0
    ensures |history| > 0 ==> StartsWith(HistoryContext(history), HistoryHeader)
    ensures 0 < |history| <= 4 ==> HistoryContext(history) == HistoryHeader + HistoryLines(history)
  {
    if |history| > 0 {
      var c := HistoryContext(history);
      assert c[..|HistoryHeader|] == HistoryHeader;
      assert |c| >= |HistoryHeader| > 0;
    }
  }

  // ---------------------------------------------------------------------
  // Markdown fences.
  // ---------------------------------------------------------------------

  const Fence: string := "```"

  predicate NotFenceLine(line: string) {
    !StartsWith(line, Fence)
  }

  /** The comprehension that drops the fence lines. */
  method DropFenceLines(lines: seq<string>) returns (kept: seq<string>)
    ensures kept == Filter(lines, NotFenceLine)
  {
    kept := [];
    var i := |lines|;
    while i > 0
      invariant 0 <= i <= |lines|
      invariant kept == Filter(lines[i..], NotFenceLine)
    {
      i := i - 1;
      assert lines[i..][1..] == lines[i + 1..];
      if !StartsWith(lines[i], Fence) {
        kept := [lines[i]] + kept;
      }
    }
  }

  /** The reply cleaned of a markdown code block: it is stripped, and when it
      then starts with a fence every line starting with a fence is removed. */
  function StripFences(reply: string): string {
    var stripped := PyStrip(reply);
    if StartsWith(stripped, Fence) then Join(Filter(Split(stripped, '\n'), NotFenceLine), "\n")
    else stripped
  }

  /** When the stripped reply starts with a fence, the lines of the cleaned
      text are exactly the non-fence lines of the reply in their original
      order (or one empty line when every line was a fence), so none starts
      with a fence. Otherwise the reply is only stripped. */
  lemma StripFencesLines(reply: string)
    ensures var stripped := PyStrip(reply);
      var kept := Filter(Split(stripped, '\n'), NotFenceLine);
      StartsWith(stripped, Fence) ==>
        Split(StripFences(reply), '\n') == (if |kept| == 0 then [""] else kept) &&
        forall k :: 0 <= k < |Split(StripFences(reply), '\n')| ==> NotFenceLine(Split(StripFences(reply), '\n')[k])
    ensures !StartsWith(PyStrip(reply), Fence) ==> StripFences(reply) == PyStrip(reply)
  {
    var stripped := PyStrip(reply);
    if StartsWith(stripped, Fence) {
      var lines := Split(stripped, '\n');
      var kept := Filter(lines, NotFenceLine);
      SplitFieldsLackSeparator(stripped, '\n');
      if |kept| == 0 {
        assert Split("", '\n') == [""];
      } else {
        assert forall k :: 0 <= k < |kept| ==> '\n' !in kept[k];
        SplitJoin(kept, '\n');
      }
    }
  }

  // ---------------------------------------------------------------------
  // The `{...}` fallback: the first match of the pattern that is a `{`, one
  // or more characters other than `}`, then a `}`.
  // ---------------------------------------------------------------------

  /** `s[i..j + 1]` is a match of the pattern. */
  predicate SpanMatches(s: string, i: int, j: int) {
    0 <= i && i + 2 <= j < |s| && s[i] == '{' && s[j] == '}' && forall k :: i < k < j ==> s[k] != '}'
  }

  /** The index of the first `}` at or after `from`. */
  function NextClose(s: string, from: nat): (r: Option<nat>)
    requires from <= |s|
    ensures r.Some? ==>
      from <= r.value < |s| && s[r.value] == '}' && forall k :: from <= k < r.value ==> s[k] != '}'
    ensures r.None? ==> forall k :: from <= k < |s| ==> s[k] != '}'
    decreases |s| - from
  {
    if from == |s| then None else if s[from] == '}' then Some(from) else NextClose(s, from + 1)
  }

  /** The match starting at `i`, if there is one. */
  function MatchAt(s: string, i: nat): Option<string>
    requires i < |s|
  {
    if s[i] != '{' then None
    else
      match NextClose(s, i + 1)
      case None => None
      case Some(j) => if j >= i + 2 then Some(s[i..j + 1]) else None
  }

  /** `re.search` for the pattern: the leftmost match at or after `from`. */
  function FirstBraceBlock(s: string, from: nat): Option<string>
    decreases |s| - from
  {
    if from >= |s| then None
    else
      match MatchAt(s, from)
      case Some(block) => Some(block)
      case None => FirstBraceBlock(s, from + 1)
  }

  /** A match starts at `i` exactly when `MatchAt` finds one there. */
  lemma MatchAtSpec(s: string, i: nat)
    requires i < |s|
    ensures MatchAt(s, i).None? <==> forall j :: !SpanMatches(s, i, j)
    ensures MatchAt(s, i).Some? ==> exists j :: SpanMatches(s, i, j) && MatchAt(s, i).value == s[i..j + 1]
  {
    if s[i] == '{' {
      var next := NextClose(s, i + 1);
      if next.Some? && next.value >= i + 2 {
        assert SpanMatches(s, i, next.value);
      } else {
        assert forall j :: !SpanMatches(s, i, j);
      }
    }
  }

  /** The extracted block is the leftmost match of the pattern; without one
      nothing is extracted. */
  lemma {:induction false} FirstBraceBlockSpec(s: string, from: nat)
    ensures FirstBraceBlock(s, from).None? ==> forall i, j :: from <= i && SpanMatches(s, i, j) ==> false
    ensures FirstBraceBlock(s, from).Some? ==> exists i, j ::
      from <= i && SpanMatches(s, i, j) && FirstBraceBlock(s, from).value == s[i..j + 1] &&
      forall i', j' :: from <= i' < i ==> !SpanMatches(s, i', j')
    decreases |s| - from
  {
    if from < |s| {
      MatchAtSpec(s, from);
      FirstBraceBlockSpec(s, from + 1);
      if MatchAt(s, from).None? {
        if FirstBraceBlock(s, from).Some? {
          var i, j :| from + 1 <= i && SpanMatches(s, i, j) && FirstBraceBlock(s, from).value == s[i..j + 1] &&
            forall i', j' :: from + 1 <= i' < i ==> !SpanMatches(s, i', j');
          assert forall i', j' :: from <= i' < i ==> !SpanMatches(s, i', j');
        }
      } else {
        var j :| SpanMatches(s, from, j) && MatchAt(s, from).value == s[from..j + 1];
      }
    }
  }

  // ---------------------------------------------------------------------
  // The fallback location guess.
  // ---------------------------------------------------------------------

  predicate IsLocationWord(word: string) {
    |word| > 3 && IsUpper(word[0])
  }

  predicate IsTrailingPunctuation(c: char) {
    c == '?' || c == ',' || c == '.'
  }

  /** The first word longer than three characters that starts with a capital,
      with trailing `?`, `,` and `.` removed. */
  function FallbackLocation(words: seq<string>): Option<string> {
    if |words| == 0 then None
    else if IsLocationWord(words[0]) then Some(TrimEnd(words[0], IsTrailingPunctuation))
    else FallbackLocation(words[1..])
  }

  /** The loop over the words of the query, leaving at the first match. */
  method FindFallbackLocation(query: string) returns (location: Option<string>)
    ensures location == FallbackLocation(Words(query))
  {
    var words := Words(query);
    location := None;
    var i := 0;
    while i < |words|
      invariant 0 <= i <= |words|
      invariant FallbackLocation(words) == FallbackLocation(words[i..])
    {
      var word := words[i];
      assert words[i..][1..] == words[i + 1..];
      if |word| > 3 && IsUpper(word[0]) {
        location := Some(TrimEnd(word, IsTrailingPunctuation));
        return;
      }
      i := i + 1;
    }
  }

  /** The guess is the first qualifying word, stripped of trailing
      punctuation; it keeps the capital it starts with, so it is never empty.
      There is no guess exactly when no word qualifies. */
  lemma {:induction false} FallbackLocationSpec(words: seq<string>)
    ensures FallbackLocation(words).None? <==> forall k :: 0 <= k < |words| ==> !IsLocationWord(words[k])
    ensures FallbackLocation(words).Some? ==>
      exists k :: 0 <= k < |words| && IsLocationWord(words[k]) &&
        (forall j :: 0 <= j < k ==> !IsLocationWord(words[j])) &&
        FallbackLocation(words).value == TrimEnd(words[k], IsTrailingPunctuation)
    ensures FallbackLocation(words).Some? ==>
      |FallbackLocation(words).value| > 0 && IsUpper(FallbackLocation(words).value[0])
  {
    if |words| > 0 {
      FallbackLocationSpec(words[1..]);
      if IsLocationWord(words[0]) {
        var t := TrimEnd(words[0], IsTrailingPunctuation);
        assert !IsTrailingPunctuation(words[0][0]);
        assert |t| > 0;
        assert t[0] == words[0][0];
      } else if FallbackLocation(words[1..]).Some? {
        var k :| 0 <= k < |words[1..]| && IsLocationWord(words[1..][k]) &&
          (forall j :: 0 <= j < k ==> !IsLocationWord(words[1..][j])) &&
          FallbackLocation(words[1..]).value == TrimEnd(words[1..][k], IsTrailingPunctuation);
        assert words[k + 1] == words[1..][k];
        assert forall j :: 1 <= j < k + 1 ==> words[j] == words[1..][j - 1];
      } else {
        assert forall k :: 1 <= k < |words| ==> words[k] == words[1..][k - 1];
      }
    }
  }
}
