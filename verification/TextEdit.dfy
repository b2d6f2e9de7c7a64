/**
 Line insertion and unique replacement in a memory file. Lines end at line feeds; the other characters at
 which Python also splits a line are not part of this model.
*/
module TextEdit {
  import opened Wrappers

  // ---------- Lines ----------

  /** Where the first line ends: past its line feed, or at the end of the text. */
  function LineEnd(text: string): (end: nat)
    ensures end <= |text| && (text != "" ==> end >= 1)
  {
    if text == "" then 0 else if text[0] == '\n' then 1 else LineEnd(text[1..]) + 1
  }

  /** The only line feed of a first line is its last character. */
  lemma {:induction false} LineEndFeed(text: string)
    requires text != ""
    ensures '\n' !in text[..LineEnd(text) - 1]
    ensures LineEnd(text) < |text| ==> text[LineEnd(text) - 1] == '\n'
  {
    if text[0] != '\n' && |text| > 1 {
      LineEndFeed(text[1..]);
      var rest := LineEnd(text[1..]);
      assert text[..rest] == [text[0]] + text[1..][..rest - 1];
    }
  }

  /** `splitlines(keepends=True)`. */
  function KeptLines(text: string): seq<string>
    decreases |text|
  {
    if text == "" then [] else [text[..LineEnd(text)]] + KeptLines(text[LineEnd(text)..])
  }

  predicate Terminated(text: string) {
    text != "" && text[|text| - 1] == '\n'
  }

  /** A line without its line feed. */
  function Content(line: string): string {
    if Terminated(line) then line[..|line| - 1] else line
  }

  /** `splitlines()`. */
  function Lines(text: string): seq<string>
    decreases |text|
  {
    if text == "" then [] else [Content(text[..LineEnd(text)])] + Lines(text[LineEnd(text)..])
  }

  function Concat(lines: seq<string>): string {
    if lines == [] then "" else lines[0] + Concat(lines[1..])
  }

  lemma {:induction false} LinesAreContents(text: string)
    ensures |Lines(text)| == |KeptLines(text)|
    decreases |text|
  {
    if text != "" {
      LinesAreContents(text[LineEnd(text)..]);
    }
  }

  lemma LinesOf(text: string)
    requires text != ""
    ensures var end := LineEnd(text);
      && Lines(text) == [Content(text[..end])] + Lines(text[end..])
      && KeptLines(text) == [text[..end]] + KeptLines(text[end..])
      && text == text[..end] + text[end..]
  {
    hide LineEnd, Content;
  }

  /** The first `k` kept lines are a prefix of the text, whole lines unless it is all of it. */
  lemma {:induction false} PrefixLines(text: string, k: nat)
    requires k <= |KeptLines(text)|
    ensures |Lines(text)| == |KeptLines(text)|
    ensures var prefix := Concat(KeptLines(text)[..k]);
      && |prefix| <= |text| && text[..|prefix|] == prefix
      && Lines(prefix) == Lines(text)[..k]
      && Lines(text[|prefix|..]) == Lines(text)[k..]
      && (k > 0 <==> prefix != "")
      && (prefix != "" && !Terminated(prefix) ==> prefix == text)
    decreases |text|
  {
    hide Lines, KeptLines, LineEnd, Content, Terminated;
    LinesAreContents(text);
    NoLines();
    if k == 0 {
      assert KeptLines(text)[..0] == [];
      assert text[..0] == "" && text[0..] == text;
    } else {
      NoKeptLines();
      var end := LineEnd(text);
      LinesOf(text);
      PrefixLines(text[end..], k - 1);
      assert KeptLines(text)[..k][1..] == KeptLines(text[end..])[..k - 1];
      var tail := Concat(KeptLines(text[end..])[..k - 1]);
      LongerPrefix(text, tail);
      assert Concat(KeptLines(text)[..k]) == text[..end] + tail;
      assert Lines(text)[..k] == [Content(text[..end])] + Lines(text[end..])[..k - 1];
    }
  }

  lemma NoLines()
    ensures Lines("") == []
  {
  }

  lemma NoKeptLines()
    ensures KeptLines("") == []
  {
  }

  /** One more line in front of a prefix of the rest. */
  lemma LongerPrefix(text: string, tail: string)
    requires text != ""
    requires var rest := text[LineEnd(text)..];
      |tail| <= |rest| && rest[..|tail|] == tail && (tail != "" && !Terminated(tail) ==> tail == rest)
    ensures var first, rest := text[..LineEnd(text)], text[LineEnd(text)..];
      var prefix := first + tail;
      && prefix != "" && |prefix| <= |text| && text[..|prefix|] == prefix
      && Lines(prefix) == [Content(first)] + Lines(tail)
      && text[|prefix|..] == rest[|tail|..]
      && (!Terminated(prefix) ==> prefix == text)
  {
    hide Lines, LineEnd, Content;
    var first, rest := text[..LineEnd(text)], text[LineEnd(text)..];
    assert text == first + rest;
    FirstLine(first, rest, tail);
    assert (first + tail) == text[..|first + tail|];
    if tail == "" {
      assert first + tail == first;
      if rest != "" {
        LineEndTerminates(text);
      }
    } else {
      assert (first + tail)[|first + tail| - 1] == tail[|tail| - 1];
    }
  }

  lemma LineEndTerminates(text: string)
    requires LineEnd(text) < |text|
    ensures Terminated(text[..LineEnd(text)])
  {
    LineEndFeed(text);
  }

  /** A first line stays the first line in front of less text. */
  lemma FirstLine(first: string, rest: string, tail: string)
    requires first != "" && first == (first + rest)[..LineEnd(first + rest)]
    requires |tail| <= |rest| && rest[..|tail|] == tail
    ensures LineEnd(first + tail) == |first|
    ensures Lines(first + tail) == [Content(first)] + Lines(tail)
  {
    var text := first + rest;
    LineEndFeed(text);
    assert LineEnd(text) == |first|;
    if rest != "" {
      assert text[|first| - 1] == '\n';
      LineEndAt(first + tail, |first|);
    } else {
      assert tail == "" && first + tail == first == text;
    }
    assert (first + tail)[..|first|] == first && (first + tail)[|first|..] == tail;
  }

  lemma {:induction false} LineEndAt(text: string, end: nat)
    requires 0 < end <= |text| && text[end - 1] == '\n' && '\n' !in text[..end - 1]
    ensures LineEnd(text) == end
  {
    if end > 1 {
      assert text[..end - 1][0] != '\n';
      assert text[1..][..end - 2] == text[..end - 1][1..];
      LineEndAt(text[1..], end - 1);
    }
  }

  lemma {:induction false} NoLineFeed(text: string)
    requires text != "" && '\n' !in text
    ensures LineEnd(text) == |text| && Lines(text) == [text]
  {
    if |text| > 1 {
      assert '\n' !in text[1..];
      NoLineFeed(text[1..]);
    }
    assert text[..|text|] == text && text[|text|..] == "";
  }

  /** Splitting after whole lines splits the list of lines. */
  lemma {:induction false} LinesConcat(a: string, b: string)
    requires a == "" || Terminated(a)
    ensures Lines(a + b) == Lines(a) + Lines(b)
    decreases |a|
  {
    hide Lines, LineEnd, Content;
    NoLines();
    if a == "" {
      assert "" + b == b;
    } else {
      var end := LineEnd(a);
      TerminatedLine(a);
      LineEndFeed(a);
      LinesOf(a);
      LineEndAt(a + b, end) by {
        assert (a + b)[..end - 1] == a[..end - 1];
      }
      LinesOf(a + b);
      assert (a + b)[..end] == a[..end] && (a + b)[end..] == a[end..] + b;
      LinesConcat(a[end..], b);
    }
  }

  lemma TerminatedLine(a: string)
    requires Terminated(a)
    ensures a[LineEnd(a) - 1] == '\n'
    ensures a[LineEnd(a)..] == "" || Terminated(a[LineEnd(a)..])
  {
    LineEndFeed(a);
  }

  /** A line feed at the end of an unterminated text adds no line. */
  lemma {:induction false} LinesTerminate(a: string)
    requires a != "" && !Terminated(a)
    ensures Lines(a + "\n") == Lines(a) && |Lines(a)| > 0
    decreases |a|
  {
    var end := LineEnd(a);
    if end == |a| {
      LastLineTerminates(a);
    } else {
      LineEndTerminates(a);
      var first, rest := a[..end], a[end..];
      LinesOf(a);
      LinesTerminate(rest);
      hide Lines, LineEnd, Content;
      assert a == first + rest;
      assert first + (rest + "\n") == a + "\n";
      LinesConcat(first, rest);
      LinesConcat(first, rest + "\n");
    }
  }

  lemma LastLineTerminates(a: string)
    requires a != "" && !Terminated(a) && LineEnd(a) == |a|
    ensures Lines(a + "\n") == Lines(a) && |Lines(a)| > 0
  {
    LineEndFeed(a);
    assert '\n' !in a by {
      assert a == a[..|a| - 1] + [a[|a| - 1]];
    }
    NoLineFeed(a);
    LineEndAt(a + "\n", |a| + 1) by {
      assert (a + "\n")[..|a|] == a;
    }
    assert (a + "\n")[..|a| + 1] == a + "\n" && (a + "\n")[|a| + 1..] == "";
    assert Content(a + "\n") == a;
  }

  lemma LinesJoined(a: string, b: string)
    requires a != "" && !Terminated(a)
    ensures Lines(a + "\n" + b) == Lines(a) + Lines(b)
  {
    LinesTerminate(a);
    LinesConcat(a + "\n", b);
  }

  // ---------- Inserting after a line ----------

  function OpensBreak(s: string): bool {
    s != "" && (s[0] == '\n' || s[0] == '\r')
  }

  function ClosesBreak(s: string): bool {
    s != "" && (s[|s| - 1] == '\n' || s[|s| - 1] == '\r')
  }

  /** What `_insert_after_line` puts between the two halves. */
  function Payload(prefix: string, inserted: string, suffix: string, line: nat): string {
    var fronted :=
      if line > 0 && prefix != "" && !ClosesBreak(prefix) && inserted != "" && !OpensBreak(inserted) then "\n" + inserted
      else inserted;
    if suffix != "" && fronted != "" && !ClosesBreak(fronted) && !OpensBreak(suffix) then fronted + "\n" else fronted
  }

  /** The length of the first `count` kept lines. */
  method LinesLength(lines: seq<string>, count: nat) returns (total: nat)
    requires count <= |lines|
    ensures total == |Concat(lines[..count])|
  {
    total := 0;
    for i := 0 to count
      invariant total == |Concat(lines[..i])|
    {
      ConcatSnoc(lines[..i], lines[i]);
      assert lines[..i + 1] == lines[..i] + [lines[i]];
      total := total + |lines[i]|;
    }
  }

  lemma {:induction false} ConcatSnoc(lines: seq<string>, line: string)
    ensures Concat(lines + [line]) == Concat(lines) + line
  {
    if lines == [] {
      assert [] + [line] == [line];
      assert Concat([line]) == line + Concat([line][1..]);
    } else {
      ConcatSnoc(lines[1..], line);
      assert (lines + [line])[1..] == lines[1..] + [line];
    }
  }

  /** `_insert_after_line`, with the span it inserted. */
  method InsertAfterLine(text: string, line: nat, inserted: string) returns (changed: string, at: nat, ghost length: nat)
    requires line <= |KeptLines(text)|
    ensures at == |Concat(KeptLines(text)[..line])| <= |text|
    ensures changed == text[..at] + Payload(text[..at], inserted, text[at..], line) + text[at..]
    ensures length == |Payload(text[..at], inserted, text[at..], line)|
    // Cutting the inserted span out again always gives the text back.
    ensures at + length <= |changed| && changed[..at] + changed[at + length..] == text
  {
    PrefixLines(text, line);
    at := LinesLength(KeptLines(text), line);
    var payload, prefix, suffix := inserted, text[..at], text[at..];
    if line > 0 && prefix != "" && !ClosesBreak(prefix) && payload != "" && !OpensBreak(payload) {
      payload := "\n" + payload;
    }
    if suffix != "" && payload != "" && !ClosesBreak(payload) && !OpensBreak(suffix) {
      payload := payload + "\n";
    }
    changed, length := prefix + payload + suffix, |payload|;
    assert changed[at + length..] == suffix && changed[..at] == prefix;
  }

  /** A line feed at a join ends the line before it instead of being a line of its own. */
  predicate Absorbs(prefix: string, inserted: string, suffix: string) {
    && inserted != ""
    && ((prefix != "" && !Terminated(prefix) && inserted[0] == '\n')
        || (suffix != "" && !Terminated(inserted) && suffix[0] == '\n'))
  }

  predicate Plain(text: string) {
    '\r' !in text
  }

  /** In terms of lines: the text after an insertion between whole lines. */
  lemma InsertedLines(prefix: string, inserted: string, suffix: string, line: nat)
    requires Plain(prefix) && Plain(inserted) && Plain(suffix) && (prefix != "" ==> line > 0)
    requires prefix != "" && !Terminated(prefix) ==> suffix == ""
    ensures Lines(prefix + Payload(prefix, inserted, suffix, line) + suffix)
              == Lines(prefix) + Lines(inserted) + Lines(suffix)
      <==> !Absorbs(prefix, inserted, suffix)
  {
    hide Lines;
    NoLines();
    var payload := Payload(prefix, inserted, suffix, line);
    var all := prefix + payload + suffix;
    assert prefix != "" ==> (ClosesBreak(prefix) <==> Terminated(prefix));
    assert inserted != "" ==> (ClosesBreak(inserted) <==> Terminated(inserted)) && (OpensBreak(inserted) <==> inserted[0] == '\n');
    assert suffix != "" ==> (OpensBreak(suffix) <==> suffix[0] == '\n');
    if inserted == "" {
      assert payload == "" && all == prefix + suffix;
      assert Lines(prefix) + Lines("") == Lines(prefix);
      if suffix == "" {
        assert all == prefix;
      } else {
        LinesConcat(prefix, suffix);
      }
    } else if prefix != "" && !Terminated(prefix) {
      assert all == prefix + payload;
      InsertAtEnd(prefix, inserted);
    } else {
      InsertBetween(prefix, inserted, suffix);
      assert payload == if suffix != "" && !Terminated(inserted) && suffix[0] != '\n' then inserted + "\n" else inserted;
    }
  }

  lemma InsertAtEnd(prefix: string, inserted: string)
    requires prefix != "" && !Terminated(prefix) && inserted != ""
    ensures inserted[0] != '\n' ==> Lines(prefix + ("\n" + inserted)) == Lines(prefix) + Lines(inserted) + Lines("")
    ensures inserted[0] == '\n' ==> Lines(prefix + inserted) != Lines(prefix) + Lines(inserted) + Lines("")
  {
    hide Lines;
    NoLines();
    assert Lines(prefix) + Lines(inserted) + Lines("") == Lines(prefix) + Lines(inserted);
    if inserted[0] != '\n' {
      LinesJoined(prefix, inserted);
      assert prefix + ("\n" + inserted) == prefix + "\n" + inserted;
    } else {
      var rest := inserted[1..];
      LinesJoined(prefix, rest);
      assert prefix + inserted == prefix + "\n" + rest;
      LeadingFeed(rest);
      assert inserted == "\n" + rest;
    }
  }

  /** A leading line feed is a line of its own. */
  lemma LeadingFeed(rest: string)
    ensures Lines("\n" + rest) == [""] + Lines(rest)
  {
    LinesConcat("\n", rest);
    LineEndAt("\n", 1);
    assert "\n"[..1] == "\n" && "\n"[1..] == "";
    assert Lines("\n") == [""];
  }

  lemma InsertBetween(prefix: string, inserted: string, suffix: string)
    requires prefix == "" || Terminated(prefix)
    requires inserted != ""
    ensures var payload := if suffix != "" && !Terminated(inserted) && suffix[0] != '\n' then inserted + "\n" else inserted;
      Lines(prefix + payload + suffix) == Lines(prefix) + Lines(inserted) + Lines(suffix) <==>
      !(suffix != "" && !Terminated(inserted) && suffix[0] == '\n')
  {
    hide Lines;
    NoLines();
    var payload := if suffix != "" && !Terminated(inserted) && suffix[0] != '\n' then inserted + "\n" else inserted;
    assert prefix + payload + suffix == prefix + (payload + suffix);
    LinesConcat(prefix, payload + suffix);
    assert Lines(prefix) + Lines(inserted) + Lines(suffix) == Lines(prefix) + (Lines(inserted) + Lines(suffix));
    if suffix == "" {
      assert payload + suffix == inserted;
      assert Lines(inserted) + Lines("") == Lines(inserted);
    } else if Terminated(inserted) {
      LinesConcat(inserted, suffix);
    } else if suffix[0] != '\n' {
      LinesJoined(inserted, suffix);
    } else {
      var rest := suffix[1..];
      assert suffix == "\n" + rest;
      LinesJoined(inserted, rest);
      assert inserted + suffix == inserted + "\n" + rest;
      LeadingFeed(rest);
      assert |Lines(prefix + payload + suffix)| < |Lines(prefix) + Lines(inserted) + Lines(suffix)|;
    }
  }

  /**
   Inserting after line `k` gives the first `k` lines, the inserted lines and the rest, exactly when no
   line feed at a join is absorbed.
  */
  lemma InsertGivesLines(text: string, line: nat, inserted: string)
    requires Plain(text) && Plain(inserted) && line <= |Lines(text)|
    ensures line <= |KeptLines(text)|
    ensures var at := |Concat(KeptLines(text)[..line])|;
      at <= |text| &&
      (Lines(text[..at] + Payload(text[..at], inserted, text[at..], line) + text[at..])
         == Lines(text)[..line] + Lines(inserted) + Lines(text)[line..]
       <==> !Absorbs(text[..at], inserted, text[at..]))
  {
    LinesAreContents(text);
    PrefixLines(text, line);
    var at := |Concat(KeptLines(text)[..line])|;
    assert line == 0 ==> KeptLines(text)[..line] == [];
    InsertedLines(text[..at], inserted, text[at..], line);
  }

  // ---------- Occurrences ----------

  predicate MatchAt(text: string, needle: string, i: nat) {
    i + |needle| <= |text| && text[i..i + |needle|] == needle
  }

  /** `find` from a position. */
  function Find(text: string, needle: string, start: nat): (r: Option<nat>)
    ensures r.Some? ==> start <= r.value && MatchAt(text, needle, r.value)
    ensures forall i :: start <= i < (if r.Some? then r.value else |text| + 1) ==> !MatchAt(text, needle, i)
    decreases |text| + 1 - start
  {
    if start + |needle| > |text| then None
    else if MatchAt(text, needle, start) then Some(start)
    else Find(text, needle, start + 1)
  }

  /** Left to right, each occurrence is the first one after the end of the one before it, and none is left. */
  ghost predicate Leftmost(text: string, needle: string, from: nat, found: seq<nat>)
    decreases |found|
  {
    if found == [] then forall i :: from <= i ==> !MatchAt(text, needle, i)
    else
      && from <= found[0] && MatchAt(text, needle, found[0])
      && (forall i :: from <= i < found[0] ==> !MatchAt(text, needle, i))
      && Leftmost(text, needle, found[0] + |needle|, found[1..])
  }

  /** That describes one list only: the occurrences `count` counts. */
  lemma {:induction false} LeftmostIsUnique(text: string, needle: string, from: nat, a: seq<nat>, b: seq<nat>)
    requires Leftmost(text, needle, from, a) && Leftmost(text, needle, from, b)
    ensures a == b
    decreases |a|
  {
    if a != [] && b != [] {
      LeftmostIsUnique(text, needle, a[0] + |needle|, a[1..], b[1..]);
      assert a == [a[0]] + a[1..] && b == [b[0]] + b[1..];
    }
  }

  /** The scan from a position. */
  ghost function Scan(text: string, needle: string, from: nat): seq<nat>
    requires needle != ""
    decreases |text| + 1 - from
  {
    match Find(text, needle, from)
    case None => []
    case Some(i) => [i] + Scan(text, needle, i + |needle|)
  }

  lemma {:induction false} ScanIsLeftmost(text: string, needle: string, from: nat)
    requires needle != ""
    ensures Leftmost(text, needle, from, Scan(text, needle, from))
    decreases |text| + 1 - from
  {
    var r := Find(text, needle, from);
    if r.Some? {
      ScanIsLeftmost(text, needle, r.value + |needle|);
      assert Scan(text, needle, from)[1..] == Scan(text, needle, r.value + |needle|);
    }
  }

  /** The positions of the occurrences `count` counts. */
  ghost function Occurrences(text: string, needle: string): (found: seq<nat>)
    requires needle != ""
    ensures Leftmost(text, needle, 0, found)
    ensures forall k :: 0 <= k < |found| ==> found[k] + |needle| <= |text|
  {
    ScanIsLeftmost(text, needle, 0);
    LeftmostFits(text, needle, 0, Scan(text, needle, 0));
    Scan(text, needle, 0)
  }

  lemma {:induction false} LeftmostFits(text: string, needle: string, from: nat, found: seq<nat>)
    requires Leftmost(text, needle, from, found)
    ensures forall k :: 0 <= k < |found| ==> found[k] + |needle| <= |text|
    decreases |found|
  {
    if found != [] {
      LeftmostFits(text, needle, found[0] + |needle|, found[1..]);
      forall k | 0 < k < |found|
        ensures found[k] + |needle| <= |text|
      {
        assert found[k] == found[1..][k - 1];
      }
    }
  }

  lemma ScanStep(text: string, needle: string, from: nat, before: seq<nat>)
    requires needle != ""
    ensures var r := Find(text, needle, from);
      before + Scan(text, needle, from)
        == if r.None? then before else before + [r.value] + Scan(text, needle, r.value + |needle|)
  {
    hide Find, MatchAt;
    var r := Find(text, needle, from);
    if r.None? {
      assert before + [] == before;
    } else {
      assert before + ([r.value] + Scan(text, needle, r.value + |needle|))
        == before + [r.value] + Scan(text, needle, r.value + |needle|);
    }
  }

  /** `text.count`. */
  method Count(text: string, needle: string) returns (count: nat)
    requires needle != ""
    ensures count == |Occurrences(text, needle)|
  {
    hide Find, Leftmost, Scan;
    ghost var found: seq<nat> := [];
    count := 0;
    assert found + Scan(text, needle, 0) == Scan(text, needle, 0);
    var start := 0;
    while true
      invariant start <= |text| && count == |found|
      invariant found + Scan(text, needle, start) == Scan(text, needle, 0)
      decreases |text| - start
    {
      var idx := Find(text, needle, start);
      ScanStep(text, needle, start, found);
      if idx.None? {
        return;
      }
      count, found := count + 1, found + [idx.value];
      start := idx.value + |needle|;
    }
  }

  /** One more than the line feeds before a position. */
  function LineOf(text: string, i: nat): nat
    requires i <= |text|
  {
    multiset(text[..i])['\n'] + 1
  }

  /** The number of the line an occurrence starts on, in terms of the lines before it. */
  lemma {:induction false} FeedsAreLines(text: string)
    ensures multiset(text)['\n'] == |Lines(text)| - if text == "" || Terminated(text) then 0 else 1
    decreases |text|
  {
    hide Lines, LineEnd, Content;
    NoLines();
    if text != "" {
      var end := LineEnd(text);
      var first, rest := text[..end], text[end..];
      LinesOf(text);
      FeedsAreLines(rest);
      FeedsInLine(text);
      assert multiset(text) == multiset(first) + multiset(rest);
      if rest != "" {
        LineEndTerminates(text);
        assert Terminated(text) <==> Terminated(rest);
      } else {
        assert first == text;
      }
    }
  }

  lemma FeedsInLine(text: string)
    requires text != ""
    ensures var first := text[..LineEnd(text)]; multiset(first)['\n'] == if Terminated(first) then 1 else 0
  {
    LineEndFeed(text);
    var first := text[..LineEnd(text)];
    var body := first[..|first| - 1];
    assert first == body + [first[|first| - 1]];
    assert body == text[..LineEnd(text) - 1];
    assert '\n' !in multiset(body);
  }

  /** That number is the one of the line the position is in: the lines before it end at or before it, with it they end behind. */
  lemma {:induction false} LineOfIsItsLine(text: string, i: nat)
    requires i < |text|
    ensures var line := LineOf(text, i);
      && 1 <= line <= |KeptLines(text)|
      && |Concat(KeptLines(text)[..line - 1])| <= i < |Concat(KeptLines(text)[..line])|
    decreases |text|
  {
    hide Lines, Content, LineEnd, KeptLines;
    var end := LineEnd(text);
    var first, rest := text[..end], text[end..];
    LinesOf(text);
    LineEndFeed(text);
    FeedsInLine(text);
    if i < end {
      assert text[..i] == text[..end - 1][..i];
      assert '\n' !in multiset(text[..i]);
      assert KeptLines(text)[..0] == [] && KeptLines(text)[..1] == [first];
      assert Concat([first]) == first + Concat([first][1..]);
    } else {
      LineOfIsItsLine(rest, i - end);
      var line := LineOf(rest, i - end);
      assert text[..i] == first + rest[..i - end];
      LineEndTerminates(text);
      assert LineOf(text, i) == line + 1;
      assert KeptLines(text)[..line + 1] == [first] + KeptLines(rest)[..line];
      assert KeptLines(text)[..line] == [first] + KeptLines(rest)[..line - 1];
      ConcatCons(first, KeptLines(rest)[..line]);
      ConcatCons(first, KeptLines(rest)[..line - 1]);
    }
  }

  lemma ConcatCons(line: string, lines: seq<string>)
    ensures Concat([line] + lines) == line + Concat(lines)
  {
    assert ([line] + lines)[1..] == lines;
  }

  /** `_occurrence_lines`: one line number for each occurrence that `count` counts, in order. */
  method OccurrenceLines(text: string, needle: string) returns (lines: seq<nat>)
    requires needle != ""
    ensures AreLinesOf(text, Occurrences(text, needle), lines)
  {
    hide Find, LineOf, Leftmost, Scan;
    ghost var found: seq<nat> := [];
    lines := [];
    assert found + Scan(text, needle, 0) == Scan(text, needle, 0);
    var start := 0;
    while true
      invariant start <= |text| && AreLinesOf(text, found, lines)
      invariant found + Scan(text, needle, start) == Scan(text, needle, 0)
      decreases |text| - start
    {
      var idx := Find(text, needle, start);
      ScanStep(text, needle, start, found);
      if idx.None? {
        return;
      }
      lines, found := lines + [LineOf(text, idx.value)], found + [idx.value];
      start := idx.value + |needle|;
    }
  }

  /** The k-th line is the one the k-th position is on. */
  ghost predicate AreLinesOf(text: string, found: seq<nat>, lines: seq<nat>) {
    |lines| == |found| && forall k :: 0 <= k < |found| ==> found[k] <= |text| && lines[k] == LineOf(text, found[k])
  }

  // ---------- The file ----------

  datatype EditResult = Edited | EmptyNeedle | NotFound | Ambiguous(lines: seq<nat>) | BadLine(count: nat)

  class MemoryFile {
    var text: string

    constructor (text: string)
      ensures this.text == text
    {
      this.text := text;
    }

    /** `str_replace`: edits exactly when there is one occurrence, and then only that one. */
    method StrReplace(needle: string, replacement: string) returns (r: EditResult)
      modifies this
      ensures r.EmptyNeedle? <==> needle == ""
      ensures needle != "" ==> (r.NotFound? <==> Occurrences(old(text), needle) == [])
      ensures needle != "" ==> (r.Edited? <==> |Occurrences(old(text), needle)| == 1)
      ensures needle != "" ==> (r.Ambiguous? <==> |Occurrences(old(text), needle)| > 1)
      ensures r.Ambiguous? ==> needle != "" && AreLinesOf(old(text), Occurrences(old(text), needle), r.lines)
      ensures !r.Edited? ==> text == old(text)
      ensures r.Edited? && needle != "" ==>
        var at := Occurrences(old(text), needle)[0];
        text == old(text)[..at] + replacement + old(text)[at + |needle|..]
    {
      hide Scan, LineOf;
      if needle == "" {
        return EmptyNeedle;
      }
      var count := Count(text, needle);
      if count == 0 {
        return NotFound;
      }
      if count > 1 {
        var lines := OccurrenceLines(text, needle);
        return Ambiguous(lines);
      }
      var at := Find(text, needle, 0).value;
      assert at == Occurrences(text, needle)[0];
      text := text[..at] + replacement + text[at + |needle|..];
      return Edited;
    }

    /** `insert`: the whole new text, the span that undoes it, and when its lines are the expected ones. */
    method Insert(line: int, inserted: string) returns (r: EditResult, ghost at: nat, ghost length: nat)
      modifies this
      ensures r.Edited? <==> 0 <= line <= |Lines(old(text))|
      ensures !r.Edited? ==> r == BadLine(|Lines(old(text))|) && text == old(text)
      ensures r.Edited? ==>
        && line <= |KeptLines(old(text))| && at == |Concat(KeptLines(old(text))[..line])| <= |old(text)|
        && text == old(text)[..at] + Payload(old(text)[..at], inserted, old(text)[at..], line) + old(text)[at..]
      ensures r.Edited? ==> at + length <= |text| && text[..at] + text[at + length..] == old(text)
      ensures r.Edited? && Plain(old(text)) && Plain(inserted) ==>
        && at <= |old(text)|
        && (Lines(text) == Lines(old(text))[..line] + Lines(inserted) + Lines(old(text))[line..] <==>
            !Absorbs(old(text)[..at], inserted, old(text)[at..]))
    {
      hide Lines, KeptLines, Payload, Concat, Absorbs;
      at, length := 0, 0;
      LinesAreContents(text);
      var count := |Lines(text)|;
      if line < 0 || line > count {
        return BadLine(count), at, length;
      }
      ghost var before := text;
      var changed, offset;
      changed, offset, length := InsertAfterLine(text, line, inserted);
      at := offset;
      if Plain(before) && Plain(inserted) {
        InsertGivesLines(before, line, inserted);
      }
      text := changed;
      return Edited, at, length;
    }
  }
}
