/** The text a chat bubble shows. A user's message is shown as typed; an
    assistant's reply is cleaned first: markdown emphasis markers are removed,
    and so is every line that repeats the weather or location summary or starts
    a numbered list item. */
module MessageBubble {
  import opened Text

  // The first `replace` of the reply, whose pattern is a global `**`: it
  // removes the non-overlapping occurrences of `**`, scanning from the left.
  function RemoveBold(s: string): string
    decreases |s|
  {
    if |s| >= 2 && s[0] == '*' && s[1] == '*' then RemoveBold(s[2..])
    else if |s| == 0 then ""
    else [s[0]] + RemoveBold(s[1..])
  }

  // The second `replace`, whose pattern is a global `*`: it removes every `*`.
  function RemoveStars(s: string): (r: string)
    ensures '*' !in r
  {
    if |s| == 0 then ""
    else (if s[0] == '*' then "" else [s[0]]) + RemoveStars(s[1..])
  }

  predicate IsDigit(c: char) {
    '0' <= c <= '9'
  }

  /** The length of the leading run of ASCII digits. */
  function LeadingDigits(s: string): (n: nat)
    ensures n <= |s| && (forall i :: 0 <= i < n ==> IsDigit(s[i]))
    ensures n == |s| || !IsDigit(s[n])
  {
    if |s| > 0 && IsDigit(s[0]) then 1 + LeadingDigits(s[1..]) else 0
  }

  // The `match` of the filter succeeds: the line starts with one or more
  // ASCII digits followed by a full stop.
  predicate NumberedItem(s: string) {
    var n := LeadingDigits(s);
    1 <= n < |s| && s[n] == '.'
  }

  /** The test of the `filter` callback. */
  predicate KeepLine(line: string) {
    !Contains(line, "Weather:") && !Contains(line, "Location:") && !NumberedItem(JsTrim(line))
  }

  /** The lines of a reply that survive the filter, in order. */
  function KeptLines(content: string): seq<string> {
    Filter(Split(RemoveStars(RemoveBold(content)), '\n'), KeepLine)
  }

  /** The cleaning applied to a reply before it is shown. */
  function CleanReply(content: string): string {
    JsTrim(Join(KeptLines(content), "\n"))
  }

  /** The text of the bubble for a message with `role` and `content`. */
  function DisplayedText(role: string, content: string): string {
    if role == "user" then content else CleanReply(content)
  }

  // ---------------------------------------------------------------------
  // Properties of the cleaning.
  // ---------------------------------------------------------------------

  /** Removing `**` first and then `*` removes exactly every `*`. */
  lemma {:induction false} StarRemovalsCombine(s: string)
    ensures RemoveStars(RemoveBold(s)) == RemoveStars(s)
    decreases |s|
  {
    if |s| >= 2 && s[0] == '*' && s[1] == '*' {
      StarRemovalsCombine(s[2..]);
      assert s[1..][1..] == s[2..];
    } else if |s| > 0 {
      StarRemovalsCombine(s[1..]);
      assert ([s[0]] + RemoveBold(s[1..]))[1..] == RemoveBold(s[1..]);
    }
  }

  /** Removing `*` distributes over concatenation. */
  lemma {:induction false} RemoveStarsAppend(a: string, b: string)
    ensures RemoveStars(a + b) == RemoveStars(a) + RemoveStars(b)
  {
    if |a| == 0 {
      assert a + b == b;
    } else {
      var c := a[0];
      var head := if c == '*' then "" else [c];
      assert (a + b)[0] == c;
      assert (a + b)[1..] == a[1..] + b;
      RemoveStarsAppend(a[1..], b);
      assert RemoveStars(a + b) == head + RemoveStars(a[1..] + b);
      assert RemoveStars(a) == head + RemoveStars(a[1..]);
    }
  }

  /** A text without `*` passes both removals unchanged. */
  lemma {:induction false} StarFreeUnchanged(s: string)
    requires '*' !in s
    ensures RemoveBold(s) == s && RemoveStars(s) == s
  {
    if |s| > 0 {
      StarFreeUnchanged(s[1..]);
      assert [s[0]] + s[1..] == s;
    }
  }

  /** Each line is judged on its own: the kept lines of two texts joined by a
      line break are the kept lines of the first followed by those of the
      second. */
  lemma LinesFilteredIndependently(a: string, b: string)
    ensures KeptLines(a + "\n" + b) == KeptLines(a) + KeptLines(b)
  {
    StarRemovalsCombine(a + "\n" + b);
    StarRemovalsCombine(a);
    StarRemovalsCombine(b);
    RemoveStarsAppend(a + "\n", b);
    RemoveStarsAppend(a, "\n");
    assert RemoveStars("\n") == "\n";
    SplitConcat(RemoveStars(a), RemoveStars(b), '\n');
    FilterAppend(Split(RemoveStars(a), '\n'), Split(RemoveStars(b), '\n'), KeepLine);
  }

  /** A line the cleaned text may consist of. */
  predicate CleanLine(line: string) {
    KeepLine(line) && '\n' !in line && '*' !in line
  }

  predicate AllClean(lines: seq<string>) {
    All(lines, CleanLine)
  }

  /** A blank line and the line break after it vanish under `TrimStart`, for
      any notion of space that covers the line break. */
  lemma SkipBlankHead(first: string, rest: string, space: char -> bool)
    requires space('\n') && TrimStart(first, space) == []
    ensures TrimStart(first + ("\n" + rest), space) == TrimStart(rest, space)
  {
    var head := first + "\n";
    forall i | 0 <= i < |head|
      ensures space(head[i])
    {
      if i < |first| {
        assert head[i] == first[i];
      }
    }
    assert first + ("\n" + rest) == head + rest;
    TrimStartSkips(head, rest, space);
  }

  /** A blank line and the line break before it vanish under `TrimEnd`, for
      any notion of space that covers the line break. */
  lemma SkipBlankTail(init: string, last: string, space: char -> bool)
    requires space('\n') && TrimEnd(last, space) == []
    ensures TrimEnd(init + ("\n" + last), space) == TrimEnd(init, space)
  {
    var tail := "\n" + last;
    forall i | 0 <= i < |tail|
      ensures space(tail[i])
    {
      if i > 0 {
        assert tail[i] == last[i - 1];
      }
    }
    TrimEndSkips(init, tail, space);
  }

  /** A last line that is not blank is the only one `TrimEnd` touches. */
  lemma StopAtTail(init: string, last: string, space: char -> bool)
    requires TrimEnd(last, space) != []
    ensures TrimEnd(init + ("\n" + last), space) == init + ("\n" + TrimEnd(last, space))
  {
    TrimEndStops("\n", last, space);
    TrimEndStops(init, "\n" + last, space);
  }

  /** Joining a first line with further lines. */
  lemma JoinFirst(first: string, rest: seq<string>)
    requires |rest| >= 1
    ensures Join([first] + rest, "\n") == first + ("\n" + Join(rest, "\n"))
  {
    assert ([first] + rest)[1..] == rest;
    JoinCons([first] + rest, "\n");
  }

  /** Removing leading spaces from a clean line leaves a clean line. */
  lemma TrimStartKeepsClean(line: string)
    requires CleanLine(line)
    ensures CleanLine(TrimStart(line, IsJsSpace))
  {
    var t := TrimStart(line, IsJsSpace);
    var lo := |line| - |t|;
    assert t == line[lo..|line|];
    if Contains(t, "Weather:") {
      ContainsInSlice(line, lo, |line|, "Weather:");
      assert false;
    }
    if Contains(t, "Location:") {
      ContainsInSlice(line, lo, |line|, "Location:");
      assert false;
    }
    TrimAfterTrimStart(line, IsJsSpace);
  }

  /** Removing trailing spaces from a clean line leaves a clean line. */
  lemma TrimEndKeepsClean(line: string)
    requires CleanLine(line)
    ensures CleanLine(TrimEnd(line, IsJsSpace))
  {
    var t := TrimEnd(line, IsJsSpace);
    assert t == line[0..|t|];
    if Contains(t, "Weather:") {
      ContainsInSlice(line, 0, |t|, "Weather:");
      assert false;
    }
    if Contains(t, "Location:") {
      ContainsInSlice(line, 0, |t|, "Location:");
      assert false;
    }
    TrimAfterTrimEnd(line, IsJsSpace);
  }

  /** Trimming the start of joined lines trims its first lines: the result is
      the join of lines each of which is one of the given lines with its start
      trimmed or untouched, so any property of lines that survives `TrimStart`
      survives. */
  lemma {:induction false} TrimStartLines(lines: seq<string>, space: char -> bool, keep: string -> bool)
      returns (trimmed: seq<string>)
    requires space('\n') && forall x :: keep(x) ==> keep(TrimStart(x, space))
    requires |lines| >= 1 && All(lines, keep)
    ensures |trimmed| >= 1 && All(trimmed, keep)
    ensures Join(trimmed, "\n") == TrimStart(Join(lines, "\n"), space)
  {
    var first := lines[0];
    var t := TrimStart(first, space);
    assert keep(t);
    if |lines| == 1 {
      trimmed := [t];
      assert All(trimmed, keep);
    } else {
      var rest := lines[1..];
      assert All(rest, keep) by {
        AllSlice(lines, 1, |lines|, keep);
        assert lines[1..|lines|] == rest;
      }
      assert Join(lines, "\n") == first + ("\n" + Join(rest, "\n")) by {
        assert lines == [first] + rest;
        JoinFirst(first, rest);
      }
      if t == [] {
        SkipBlankHead(first, Join(rest, "\n"), space);
        trimmed := TrimStartLines(rest, space, keep);
      } else {
        trimmed := [t] + rest;
        assert All(trimmed, keep) by {
          assert All([t], keep);
          AllAppend([t], rest, keep);
        }
        assert Join(trimmed, "\n") == TrimStart(Join(lines, "\n"), space) by {
          TrimStartStops(first, "\n" + Join(rest, "\n"), space);
          JoinFirst(t, rest);
        }
      }
    }
  }

  /** Trimming the end of joined lines trims its last lines, in the same way. */
  lemma {:induction false} TrimEndLines(lines: seq<string>, space: char -> bool, keep: string -> bool)
      returns (trimmed: seq<string>)
    requires space('\n') && forall x :: keep(x) ==> keep(TrimEnd(x, space))
    requires |lines| >= 1 && All(lines, keep)
    ensures |trimmed| >= 1 && All(trimmed, keep)
    ensures Join(trimmed, "\n") == TrimEnd(Join(lines, "\n"), space)
  {
    var last := lines[|lines| - 1];
    var t := TrimEnd(last, space);
    assert keep(t);
    if |lines| == 1 {
      trimmed := [t];
      assert All(trimmed, keep);
    } else {
      var init := lines[..|lines| - 1];
      assert All(init, keep) by {
        AllSlice(lines, 0, |lines| - 1, keep);
        assert lines[0..|lines| - 1] == init;
      }
      assert Join(lines, "\n") == Join(init, "\n") + ("\n" + last) by {
        assert lines == init + [last];
        JoinSnoc(init, last, "\n");
      }
      if t == [] {
        SkipBlankTail(Join(init, "\n"), last, space);
        trimmed := TrimEndLines(init, space, keep);
      } else {
        trimmed := init + [t];
        assert All(trimmed, keep) by {
          assert All([t], keep);
          AllAppend(init, [t], keep);
        }
        assert Join(trimmed, "\n") == TrimEnd(Join(lines, "\n"), space) by {
          StopAtTail(Join(init, "\n"), last, space);
          JoinSnoc(init, t, "\n");
        }
      }
    }
  }

  /** The empty line is clean. */
  lemma EmptyLineClean()
    ensures CleanLine("")
  {
    assert !OccursAt("", "Weather:", 0);
    assert !OccursAt("", "Location:", 0);
    assert JsTrim("") == "";
  }

  /** A cleaned reply is made of clean lines joined by line breaks. */
  lemma CleanedLines(content: string) returns (lines: seq<string>)
    ensures |lines| >= 1 && AllClean(lines)
    ensures Join(lines, "\n") == CleanReply(content)
  {
    var stripped := RemoveStars(RemoveBold(content));
    var fields := Split(stripped, '\n');
    SplitFieldsLackSeparator(stripped, '\n');
    SplitFieldsWithin(stripped, '\n');
    var kept := KeptLines(content);
    assert AllClean(kept);
    var start := kept;
    if |kept| == 0 {
      EmptyLineClean();
      start := [""];
    }
    assert Join(start, "\n") == Join(kept, "\n");
    forall x | CleanLine(x)
      ensures CleanLine(TrimStart(x, IsJsSpace)) && CleanLine(TrimEnd(x, IsJsSpace))
    {
      TrimStartKeepsClean(x);
      TrimEndKeepsClean(x);
    }
    assert IsJsSpace('\n');
    var front := TrimStartLines(start, IsJsSpace, CleanLine);
    lines := TrimEndLines(front, IsJsSpace, CleanLine);
  }

  /** Every line of a cleaned reply passes the filter again and holds no `*`:
      no line mentions `Weather:` or `Location:` and none, trimmed, starts
      like a numbered list item. */
  lemma CleanReplyLines(content: string)
    ensures var lines := Split(CleanReply(content), '\n');
      forall i :: 0 <= i < |lines| ==> KeepLine(lines[i]) && '*' !in lines[i]
  {
    var lines := CleanedLines(content);
    SplitJoin(lines, '\n');
  }

  /** A cleaned reply holds no `*` and mentions neither label anywhere. */
  lemma CleanReplyHasNoMarkers(content: string)
    ensures '*' !in CleanReply(content)
    ensures !Contains(CleanReply(content), "Weather:")
    ensures !Contains(CleanReply(content), "Location:")
  {
    var lines := CleanedLines(content);
    JoinAvoids(lines, "\n", '*');
    LinesAvoidLabels(lines);
  }

  /** Joined clean lines mention neither label. */
  lemma LinesAvoidLabels(lines: seq<string>)
    requires AllClean(lines)
    ensures !Contains(Join(lines, "\n"), "Weather:")
    ensures !Contains(Join(lines, "\n"), "Location:")
  {
    forall k | 0 <= k < |lines|
      ensures !Contains(lines[k], "Weather:") && !Contains(lines[k], "Location:")
    {
      assert CleanLine(lines[k]);
    }
    JoinAvoidsSubstring(lines, '\n', "Weather:");
    JoinAvoidsSubstring(lines, '\n', "Location:");
  }

  /** A cleaned reply has no leading or trailing whitespace. */
  lemma CleanReplyTrimmed(content: string)
    ensures JsTrim(CleanReply(content)) == CleanReply(content)
  {
    TrimTwice(Join(KeptLines(content), "\n"), IsJsSpace);
  }

  /** Cleaning a cleaned reply changes nothing. */
  lemma CleanReplyIdempotent(content: string)
    ensures CleanReply(CleanReply(content)) == CleanReply(content)
  {
    var r := CleanReply(content);
    var lines := CleanedLines(content);
    JoinAvoids(lines, "\n", '*');
    StarFreeUnchanged(r);
    SplitJoin(lines, '\n');
    FilterAllKept(lines, KeepLine);
    assert KeptLines(r) == lines;
    CleanReplyTrimmed(content);
  }

  /** A user's message is shown exactly as typed; any other role sees the
      cleaned text, whatever its content. */
  lemma DisplayedTextByRole(role: string, content: string)
    ensures role == "user" ==> DisplayedText(role, content) == content
    ensures role != "user" ==>
      DisplayedText(role, content) == CleanReply(content) && '*' !in DisplayedText(role, content)
  {
    if role != "user" {
      CleanReplyHasNoMarkers(content);
    }
  }

  /** Concrete readings of the numbered-item test: a digit run followed by a
      full stop starts an item, a digit run without one or a word before the
      digits does not. */
  lemma NumberedItemExamples()
    ensures NumberedItem("12. Louvre")
    ensures !NumberedItem("Day 1. Louvre")
    ensures !NumberedItem("1 Louvre")
  {
    assert LeadingDigits("12. Louvre") == 2 by {
      assert "12. Louvre"[1..] == "2. Louvre";
      assert "2. Louvre"[1..] == ". Louvre";
    }
    assert LeadingDigits("1 Louvre") == 1 by {
      assert "1 Louvre"[1..] == " Louvre";
    }
  }

  /** A numbered line is dropped even when indented. */
  lemma IndentedItemDropped()
    ensures !KeepLine("  3. Eiffel")
  {
    var line := "  3. Eiffel";
    var item := "3. Eiffel";
    assert JsTrim(line) == item by {
      assert IsJsSpace(line[0]) && IsJsSpace(line[1]) && !IsJsSpace(line[2]);
      assert line[2..] == item;
      TrimStartAt(line, IsJsSpace, 2);
      assert !IsJsSpace(item[|item| - 1]);
      TrimEndAt(item, IsJsSpace, |item|);
      assert item[..|item|] == item;
    }
    assert NumberedItem(item) by {
      assert item[1..] == ". Eiffel";
      assert LeadingDigits(". Eiffel") == 0;
      assert LeadingDigits(item) == 1;
    }
  }
}
