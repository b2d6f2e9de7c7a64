/**
 The path-pattern codec: one canonical spelling, three readers (configuration, marked JSON, retained
 artifacts), one writer with its marker, and policies built from them.

 The glob engine is a parameter: whether a line compiles, whether a retained line is still a legal
 `PurePath` pattern, and which paths a single line matches.
*/
module Policy {
  import opened Wrappers

  datatype Engine = Engine(compiles: string -> bool, retains: string -> bool, space: char -> bool,
                           glob: (string, string) -> bool, pure: (string, string) -> bool)

  /** An internal pattern; `Legacy` is the private marker of a retained pre-v0.20 line. */
  datatype Pattern = Current(text: string) | Legacy(text: string)

  // ---------- Strings ----------

  predicate StartsWith(s: string, prefix: string) {
    |prefix| <= |s| && s[..|prefix|] == prefix
  }

  function Split(s: string): (segments: seq<string>)
    ensures segments != []
  {
    if s == "" then [""]
    else
      var rest := Split(s[1..]);
      if s[0] == '/' then [""] + rest else [[s[0]] + rest[0]] + rest[1..]
  }

  function Join(segments: seq<string>): string
    requires segments != []
  {
    if |segments| == 1 then segments[0] else segments[0] + "/" + Join(segments[1..])
  }

  lemma {:induction false} JoinSplit(s: string)
    ensures Join(Split(s)) == s
  {
    if s == "" {
    } else {
      JoinSplit(s[1..]);
      assert s == [s[0]] + s[1..];
      JoinFirst(s[0], Split(s[1..]));
    }
  }

  /** One more character, or one more separator, in front. */
  lemma JoinFirst(c: char, rest: seq<string>)
    requires rest != []
    ensures Join([[c] + rest[0]] + rest[1..]) == [c] + Join(rest)
    ensures Join([""] + rest) == "/" + Join(rest)
  {
    hide Join;
    var longer, split := [[c] + rest[0]] + rest[1..], [""] + rest;
    assert longer[1..] == rest[1..] && longer[0] == [c] + rest[0] && |longer| == |rest|;
    assert split[1..] == rest && split[0] == "" && |split| > 1;
    JoinStep(longer);
    JoinStep(split);
    JoinStep(rest);
    if |rest| > 1 {
      var tail := Join(rest[1..]);
      assert [c] + rest[0] + "/" + tail == [c] + (rest[0] + "/" + tail);
    }
    assert "" + "/" + Join(rest) == "/" + Join(rest);
  }

  lemma JoinStep(segments: seq<string>)
    requires segments != []
    ensures Join(segments) == if |segments| == 1 then segments[0] else segments[0] + "/" + Join(segments[1..])
  {
  }

  lemma {:induction false} SplitTrailing(s: string)
    ensures Split(s + "/") == Split(s) + [""]
  {
    if s == "" {
      assert Split("/") == [""] + Split("");
    } else {
      SplitTrailing(s[1..]);
      assert (s + "/")[1..] == s[1..] + "/";
    }
  }

  predicate Drive(s: string) {
    |s| >= 2 && ('a' <= s[0] <= 'z' || 'A' <= s[0] <= 'Z') && s[1] == ':'
  }

  predicate RootOnly(s: string) {
    StartsWith(s, "/") && forall i :: 0 <= i < |s| ==> s[i] == '/' || s[i] == ' ' || s[i] == '\t'
  }

  predicate Control(s: string) {
    exists i :: 0 <= i < |s| && (s[i] as int < 32 || s[i] as int == 127)
  }

  predicate Blank(e: Engine, s: string) {
    forall i :: 0 <= i < |s| ==> e.space(s[i])
  }

  predicate GoodSegments(segments: seq<string>) {
    segments != [] && forall i :: 0 <= i < |segments| ==> segments[i] != "" && segments[i] != "." && segments[i] != ".."
  }

  // ---------- The canonical spelling ----------

  /** A backslash is allowed only as the unanchored literal-bang spelling. */
  predicate BadBackslash(anchored: bool, body: string) {
    var wire := !anchored && StartsWith(body, "\\!");
    (StartsWith(body, "\\") && !wire) || '\\' in (if wire then body[2..] else body)
  }

  /** `_canonical_pattern`. */
  function Canonical(pattern: string): Option<string> {
    if StartsWith(pattern, "//") || StartsWith(pattern, "\\\\") then None
    else
      var anchored := StartsWith(pattern, "/");
      var stripped := if anchored then pattern[1..] else pattern;
      var body := if !anchored && StartsWith(stripped, "./") then stripped[2..] else stripped;
      if BadBackslash(anchored, body) || Drive(body) then None
      else
        var all := Split(body);
        var segments := if all[|all| - 1] == "" then all[..|all| - 1] else all;
        if !GoodSegments(segments) then None
        else
          var joined := if anchored then "/" + Join(segments) else Join(segments);
          if RootOnly(joined) then None else Some(joined)
  }

  /** What is left of a body once its one trailing directory marker is gone. */
  function Trimmed(body: string): string {
    if body != "" && body[|body| - 1] == '/' then body[..|body| - 1] else body
  }

  lemma {:induction false} LastSegment(s: string)
    ensures Split(s)[|Split(s)| - 1] == "" <==> s == "" || s[|s| - 1] == '/'
    ensures |Split(s)| == 1 ==> Split(s)[0] == s
  {
    if s != "" {
      LastSegment(s[1..]);
      var rest := Split(s[1..]);
      assert s == [s[0]] + s[1..];
    }
  }

  /** Popping the empty last segment and joining again is trimming. */
  lemma SegmentsOfTrimmed(body: string)
    ensures var all := Split(body);
      var segments := if all[|all| - 1] == "" then all[..|all| - 1] else all;
      GoodSegments(segments) ==> segments == Split(Trimmed(body)) && Join(segments) == Trimmed(body)
  {
    hide Split, Join, GoodSegments;
    LastSegment(body);
    EmptyIsBad();
    NoSegments();
    var t := Trimmed(body);
    JoinSplit(t);
    if body != "" && body[|body| - 1] == '/' {
      SplitTrailing(t);
      assert body == t + "/";
      assert (Split(t) + [""])[..|Split(t)|] == Split(t);
    }
  }

  /** The body a pattern is judged by. */
  function Body(pattern: string): string {
    if StartsWith(pattern, "/") then pattern[1..]
    else if StartsWith(pattern, "./") then pattern[2..] else pattern
  }

  predicate Acceptable(anchored: bool, body: string) {
    !BadBackslash(anchored, body) && !Drive(body) && GoodSegments(Split(Trimmed(body)))
  }

  /** In one line: a pattern is canonicalised to its trimmed body, anchored as it was. */
  lemma CanonicalForm(pattern: string)
    ensures var anchored := StartsWith(pattern, "/");
      var form := if anchored then "/" + Trimmed(Body(pattern)) else Trimmed(Body(pattern));
      Canonical(pattern) ==
        if StartsWith(pattern, "//") || StartsWith(pattern, "\\\\") || !Acceptable(anchored, Body(pattern)) || RootOnly(form)
        then None else Some(form)
  {
    hide Split, Join, BadBackslash, Drive, RootOnly, GoodSegments, Trimmed;
    var body := Body(pattern);
    SegmentsOfTrimmed(body);
    if GoodSegments(Split(Trimmed(body))) {
      TrimmedSegments(body);
    }
    DotFirst(pattern);
  }

  lemma DotFirst(pattern: string)
    ensures StartsWith(pattern, "./") ==> !StartsWith(pattern, "/")
  {
    if StartsWith(pattern, "./") {
      assert pattern[..2][0] == '.';
    }
  }

  lemma NoSegments()
    ensures !GoodSegments([]) && Split("") == [""]
  {
  }

  lemma EmptyIsBad()
    ensures !GoodSegments(Split(""))
  {
    assert Split("")[0] == "";
  }

  lemma TrimmedSegments(body: string)
    requires GoodSegments(Split(Trimmed(body)))
    ensures var all := Split(body);
      var segments := if all[|all| - 1] == "" then all[..|all| - 1] else all;
      GoodSegments(segments)
  {
    hide Split, GoodSegments;
    var t := Trimmed(body);
    LastSegment(body);
    EmptyIsBad();
    if body != "" && body[|body| - 1] == '/' {
      SplitTrailing(t);
      assert body == t + "/";
      assert (Split(t) + [""])[..|Split(t)|] == Split(t);
    }
  }

  /** The first characters of a body with good segments. */
  lemma GoodStart(body: string)
    requires GoodSegments(Split(Trimmed(body)))
    ensures Trimmed(body) != "" && Trimmed(body)[0] != '/' && !StartsWith(Trimmed(body), "./") && Trimmed(body) != "."
    ensures Trimmed(body)[|Trimmed(body)| - 1] != '/'
    ensures !StartsWith(body, "/") && !StartsWith(body, "./") && body != "."
  {
    var t := Trimmed(body);
    LastSegment(t);
    assert Split(t)[0] != "" && Split(t)[0] != ".";
    if t != "" && t[0] != '/' && |t| >= 2 {
      assert Split(t) == [[t[0]] + Split(t[1..])[0]] + Split(t[1..])[1..];
    }
  }

  /** Canonicalising is idempotent. */
  lemma CanonicalIsIdempotent(pattern: string)
    requires Canonical(pattern).Some?
    ensures Canonical(Canonical(pattern).value) == Canonical(pattern)
  {
    hide Canonical, Split, Join, RootOnly, Drive, BadBackslash, GoodSegments, Trimmed;
    CanonicalForm(pattern);
    var anchored, body := StartsWith(pattern, "/"), Body(pattern);
    var form := Canonical(pattern).value;
    GoodStart(body);
    PrefixStaysAcceptable(anchored, body);
    BackslashStart(anchored, Trimmed(body));
    FormIsItsOwnBody(anchored, Trimmed(body));
    TrimmedTwice(body);
    hide StartsWith, Body;
    CanonicalForm(form);
  }

  lemma FormIsItsOwnBody(anchored: bool, t: string)
    requires t != "" && t[0] != '/' && !StartsWith(t, "./") && !StartsWith(t, "\\\\")
    ensures var form := if anchored then "/" + t else t;
      Body(form) == t && StartsWith(form, "/") == anchored && !StartsWith(form, "//") && !StartsWith(form, "\\\\")
  {
    var form := if anchored then "/" + t else t;
    if anchored {
      assert form[1..] == t && form[0] == '/' && form[1] == t[0];
      assert form[..2][1] == t[0] && form[..2][0] == '/';
    } else if |t| >= 2 {
      assert form[..2][0] == t[0];
    }
  }

  lemma TrimmedTwice(body: string)
    requires Trimmed(body) != "" && Trimmed(body)[|Trimmed(body)| - 1] != '/'
    ensures Trimmed(Trimmed(body)) == Trimmed(body)
  {
  }

  lemma PrefixStaysAcceptable(anchored: bool, body: string)
    requires !BadBackslash(anchored, body) && !Drive(body)
    ensures !BadBackslash(anchored, Trimmed(body)) && !Drive(Trimmed(body))
  {
    var t := Trimmed(body);
    assert forall i :: 0 <= i < |t| ==> t[i] == body[i];
  }

  lemma BackslashStart(anchored: bool, t: string)
    requires !BadBackslash(anchored, t)
    ensures !StartsWith(t, "\\\\")
  {
  }

  // ---------- Leading markers ----------

  function RunEnd(s: string, i: nat): (end: nat)
    requires i <= |s|
    ensures i <= end <= |s|
    ensures i < |s| && s[i] != '/' ==> i < end
    decreases |s| - i
  {
    if i == |s| || s[i] == '/' then i else RunEnd(s, i + 1)
  }

  function OffsetFrom(s: string, i: nat): (offset: nat)
    requires i <= |s|
    ensures i <= offset <= |s|
    decreases |s| - i
  {
    if i == |s| then i
    else if s[i] == '/' then OffsetFrom(s, i + 1)
    else if s[i..RunEnd(s, i)] == "." then OffsetFrom(s, RunEnd(s, i)) else i
  }

  /** `_first_pattern_segment_offset`. */
  function Offset(s: string): (offset: nat)
    ensures offset <= |s|
  {
    OffsetFrom(s, 0)
  }

  /** The first real segment of an unanchored pattern begins with this marker. */
  predicate Leads(s: string, marker: string) {
    (s[..Offset(s)] == "" || s[..Offset(s)] == "./") && StartsWith(s[Offset(s)..], marker)
  }

  function Escaped(s: string): string {
    s[..Offset(s)] + "\\" + s[Offset(s)..]
  }

  /** The text without the character at its first segment's start. */
  function Unescaped(s: string): string
    requires Offset(s) < |s|
  {
    s[..Offset(s)] + s[Offset(s) + 1..]
  }

  /** A run that starts with something other than a lone dot is the first segment. */
  lemma OffsetAt(s: string, i: nat)
    requires i < |s| && s[i] != '/' && s[i] != '.'
    ensures OffsetFrom(s, i) == i
  {
    assert s[i..RunEnd(s, i)][0] == s[i];
  }

  lemma OffsetPastDot(s: string)
    requires StartsWith(s, "./")
    ensures Offset(s) == OffsetFrom(s, 2)
  {
    assert s[0] == '.' && s[1] == '/';
    assert RunEnd(s, 0) == RunEnd(s, 1) == 1;
    assert s[0..1] == ".";
    assert OffsetFrom(s, 0) == OffsetFrom(s, 1) == OffsetFrom(s, 2);
  }

  lemma LeadsStarts(s: string, marker: string)
    requires Leads(s, marker)
    ensures StartsWith(s, marker) || StartsWith(s, "./" + marker)
  {
    var m := Offset(s);
    assert s == s[..m] + s[m..];
    if s[..m] == "./" {
      assert s[..|marker| + 2] == s[..m] + s[m..][..|marker|];
    } else {
      assert s[m..] == s;
    }
  }

  /** Where a marker is, in terms of the text alone. */
  lemma LeadsIff(s: string, marker: string)
    requires marker != "" && marker[0] != '/' && marker[0] != '.'
    ensures Leads(s, marker) <==> StartsWith(s, marker) || StartsWith(s, "./" + marker)
    ensures StartsWith(s, marker) ==> Offset(s) == 0
    ensures StartsWith(s, "./" + marker) ==> Offset(s) == 2
  {
    if StartsWith(s, marker) {
      assert s[0] == marker[0];
      OffsetAt(s, 0);
    } else if StartsWith(s, "./" + marker) {
      assert s[2] == marker[0] by {
        assert s[..|marker| + 2][2] == marker[0];
      }
      assert StartsWith(s, "./") by {
        assert s[0] == s[..|marker| + 2][0] && s[1] == s[..|marker| + 2][1];
      }
      OffsetPastDot(s);
      OffsetAt(s, 2);
      assert s[2..][..|marker|] == s[..|marker| + 2][2..];
    } else if Leads(s, marker) {
      LeadsStarts(s, marker);
    }
  }

  // ---------- Readers ----------

  datatype Reader = FromConfig | FromMarked | FromDurable

  /** One line through `validate_internal_path_patterns`. */
  function ValidateOne(e: Engine, p: Pattern): Option<Pattern> {
    if Blank(e, p.text) then None
    else if p.Legacy? then Some(p)
    else if Control(p.text) || Canonical(p.text).None? || StartsWith(Canonical(p.text).value, "\\!") || !e.compiles(p.text) then None
    else Some(p)
  }

  /** One configured line, with the literal-bang escape removed. */
  function Strip(e: Engine, source: string): Option<string> {
    if Blank(e, source) || Control(source) || Canonical(source).None? then None
    else if StartsWith(Canonical(source).value, "\\!") then
      if Offset(source) < |source| then Some(Unescaped(source)) else None
    else if StartsWith(Canonical(source).value, "!") then None
    else Some(source)
  }

  function ParseOne(e: Engine, source: string): Option<Pattern> {
    match Strip(e, source)
    case None => None
    case Some(text) => ValidateOne(e, Current(text))
  }

  function ParseMarkedOne(e: Engine, source: string): Option<Pattern> {
    if Blank(e, source) || Leads(source, "\\!") then None
    else ParseOne(e, if Leads(source, "!") then Escaped(source) else source)
  }

  function Retain(e: Engine, source: string): Option<Pattern> {
    if e.retains(source) then Some(Legacy(source)) else None
  }

  function ParseDurableOne(e: Engine, source: string): Option<Pattern> {
    if Blank(e, source) then None
    else if Leads(source, "\\!") then Retain(e, source)
    else match ParseOne(e, if Leads(source, "!") then Escaped(source) else source)
      case Some(p) => Some(p)
      case None => Retain(e, source)
  }

  function ReadOne(e: Engine, reader: Reader, source: string): Option<Pattern> {
    match reader
    case FromConfig => ParseOne(e, source)
    case FromMarked => ParseMarkedOne(e, source)
    case FromDurable => ParseDurableOne(e, source)
  }

  /** A list is read when every line is; there is no partial result. */
  function ReadAll(e: Engine, reader: Reader, raw: seq<string>): Option<seq<Pattern>> {
    if raw == [] then Some([])
    else
      var init, last := ReadAll(e, reader, raw[..|raw| - 1]), ReadOne(e, reader, raw[|raw| - 1]);
      if init.Some? && last.Some? then Some(init.value + [last.value]) else None
  }

  function ValidateAll(e: Engine, patterns: seq<Pattern>): Option<seq<Pattern>> {
    if forall i :: 0 <= i < |patterns| ==> ValidateOne(e, patterns[i]).Some? then Some(patterns) else None
  }

  /** Line by line. */
  lemma {:induction false} ReadAllExact(e: Engine, reader: Reader, raw: seq<string>)
    ensures var r := ReadAll(e, reader, raw);
      && (r.Some? <==> forall i :: 0 <= i < |raw| ==> ReadOne(e, reader, raw[i]).Some?)
      && (r.Some? ==> |r.value| == |raw| && forall i :: 0 <= i < |raw| ==> Some(r.value[i]) == ReadOne(e, reader, raw[i]))
  {
    hide ReadOne;
    if raw != [] {
      ReadAllExact(e, reader, raw[..|raw| - 1]);
      assert ReadOne(e, reader, raw[|raw| - 1]).Some? || ReadOne(e, reader, raw[|raw| - 1]).None?;
    }
  }

  /** Two lists of lines that read alike, line by line, read alike. */
  lemma ReadAlike(e: Engine, a: Reader, raw: seq<string>, b: Reader, other: seq<string>)
    requires |raw| == |other| && forall i :: 0 <= i < |raw| ==> ReadOne(e, a, raw[i]) == ReadOne(e, b, other[i])
    ensures ReadAll(e, a, raw) == ReadAll(e, b, other)
  {
    hide ReadOne;
    ReadAllExact(e, a, raw);
    ReadAllExact(e, b, other);
    hide ReadAll;
    var x, y := ReadAll(e, a, raw), ReadAll(e, b, other);
    if forall i :: 0 <= i < |raw| ==> ReadOne(e, a, raw[i]).Some? {
      forall i | 0 <= i < |raw|
        ensures x.value[i] == y.value[i]
      {
        assert Some(x.value[i]) == ReadOne(e, a, raw[i]) == ReadOne(e, b, other[i]) == Some(y.value[i]);
      }
      assert x.value == y.value;
    } else {
      var i :| 0 <= i < |raw| && ReadOne(e, a, raw[i]).None?;
      assert ReadOne(e, b, other[i]).None?;
    }
  }

  lemma ReadPrefix(e: Engine, reader: Reader, raw: seq<string>, count: nat)
    requires count < |raw|
    ensures var here := ReadOne(e, reader, raw[count]);
      ReadAll(e, reader, raw[..count + 1]) ==
        if ReadAll(e, reader, raw[..count]).Some? && here.Some?
        then Some(ReadAll(e, reader, raw[..count]).value + [here.value]) else None
    ensures ReadOne(e, reader, raw[count]).None? ==> ReadAll(e, reader, raw).None?
  {
    hide ReadOne;
    assert raw[..count + 1][..count] == raw[..count];
    assert raw[..count + 1][count] == raw[count];
    ReadAllExact(e, reader, raw);
  }

  /** `validate_internal_path_patterns`. */
  method ValidateInternalPathPatterns(e: Engine, patterns: seq<Pattern>) returns (r: Option<seq<Pattern>>)
    ensures r == ValidateAll(e, patterns)
    ensures r.Some? <==> forall i :: 0 <= i < |patterns| ==>
      if patterns[i].Legacy? then !Blank(e, patterns[i].text) else Plain(e, patterns[i].text)
  {
    ValidateAllReads(e, patterns);
    hide Blank, Control, Canonical, StartsWith, Plain;
    var validated: seq<Pattern> := [];
    for i := 0 to |patterns|
      invariant validated == patterns[..i]
      invariant forall k :: 0 <= k < i ==> ValidateOne(e, patterns[k]).Some?
    {
      var source := patterns[i];
      if Blank(e, source.text) {
        return None;
      }
      if source.Current? {
        if Control(source.text) {
          return None;
        }
        var canonical := Canonical(source.text);
        if canonical.None? || StartsWith(canonical.value, "\\!") || !e.compiles(source.text) {
          return None;
        }
      }
      validated := validated + [source];
    }
    assert validated == patterns;
    return Some(validated);
  }

  /** `parse_path_patterns`: strip every line, then validate the whole list. */
  method ParsePathPatterns(e: Engine, raw: seq<string>) returns (r: Option<seq<Pattern>>)
    ensures r == ReadAll(e, FromConfig, raw)
    ensures r.Some? <==> forall i :: 0 <= i < |raw| ==> !Bang(raw[i]) && Plain(e, Literal(raw[i]))
    ensures r.Some? ==> |r.value| == |raw| && forall i :: 0 <= i < |raw| ==> r.value[i] == Current(Literal(raw[i]))
  {
    ConfigurationListReads(e, raw);
    hide Strip, ValidateOne, ReadAll, Plain, Bang, Literal;
    var parsed: seq<Pattern> := [];
    ReadAllExact(e, FromConfig, raw);
    for i := 0 to |raw|
      invariant |parsed| == i
      invariant forall k :: 0 <= k < i ==> Strip(e, raw[k]).Some? && parsed[k] == Current(Strip(e, raw[k]).value)
    {
      var stripped := Strip(e, raw[i]);
      if stripped.None? {
        assert ReadOne(e, FromConfig, raw[i]).None?;
        return None;
      }
      parsed := parsed + [Current(stripped.value)];
    }
    forall k | 0 <= k < |raw|
      ensures ReadOne(e, FromConfig, raw[k]) == ValidateOne(e, parsed[k])
      ensures ReadOne(e, FromConfig, raw[k]).Some? ==> ReadOne(e, FromConfig, raw[k]) == Some(parsed[k])
    {
      ValidatesUnchanged(e, parsed[k]);
    }
    r := ValidateInternalPathPatterns(e, parsed);
    ghost var all := ReadAll(e, FromConfig, raw);
    if all.Some? {
      assert forall k :: 0 <= k < |parsed| ==> ReadOne(e, FromConfig, raw[k]).Some?;
      assert all.value == parsed;
    } else {
      ghost var k :| 0 <= k < |raw| && ReadOne(e, FromConfig, raw[k]).None?;
      assert ValidateOne(e, parsed[k]).None?;
    }
  }

  lemma ValidatesUnchanged(e: Engine, p: Pattern)
    ensures ValidateOne(e, p).Some? ==> ValidateOne(e, p) == Some(p)
  {
  }

  /** `parse_serialized_path_patterns` under the marker. */
  method ParseMarkedPathPatterns(e: Engine, raw: seq<string>) returns (r: Option<seq<Pattern>>)
    ensures r == ReadAll(e, FromMarked, raw)
    ensures r.Some? <==> forall i :: 0 <= i < |raw| ==> Plain(e, raw[i])
    ensures r.Some? ==> |r.value| == |raw| && forall i :: 0 <= i < |raw| ==> r.value[i] == Current(raw[i])
  {
    MarkedListReads(e, raw);
    hide Plain, Bang, Literal;
    hide Blank, Leads, Escaped, ParseOne, ReadAll;
    var marked: seq<string> := [];
    for i := 0 to |raw|
      invariant |marked| == i
      invariant forall k :: 0 <= k < i ==>
        && !Blank(e, raw[k]) && !Leads(raw[k], "\\!")
        && marked[k] == if Leads(raw[k], "!") then Escaped(raw[k]) else raw[k]
    {
      var source := raw[i];
      if Blank(e, source) || Leads(source, "\\!") {
        ReadAllExact(e, FromMarked, raw);
        assert ReadOne(e, FromMarked, raw[i]).None?;
        return None;
      }
      if Leads(source, "!") {
        source := Escaped(source);
      }
      marked := marked + [source];
    }
    r := ParsePathPatterns(e, marked);
    ReadAlike(e, FromMarked, raw, FromConfig, marked);
  }

  /** `parse_durable_path_patterns`: line by line, keeping what only the old grammar accepts. */
  method ParseDurablePathPatterns(e: Engine, raw: seq<string>) returns (r: Option<seq<Pattern>>)
    ensures r == ReadAll(e, FromDurable, raw)
    ensures r.Some? <==> forall i :: 0 <= i < |raw| ==> !Blank(e, raw[i]) && (Plain(e, raw[i]) || e.retains(raw[i]))
    ensures r.Some? ==> |r.value| == |raw| && forall i :: 0 <= i < |raw| ==>
      r.value[i] == if Plain(e, raw[i]) then Current(raw[i]) else Legacy(raw[i])
  {
    DurableListReads(e, raw);
    hide Plain;
    hide Blank, Leads, Escaped, ParseOne, ReadAll;
    var migrated: seq<Pattern> := [];
    ReadAllExact(e, FromDurable, []);
    for i := 0 to |raw|
      invariant Some(migrated) == ReadAll(e, FromDurable, raw[..i])
    {
      ReadPrefix(e, FromDurable, raw, i);
      var one := MigratePattern(e, raw[i]);
      if one.None? {
        return None;
      }
      migrated := migrated + [one.value];
    }
    assert raw[..|raw|] == raw;
    return Some(migrated);
  }

  method MigratePattern(e: Engine, source: string) returns (r: Option<Pattern>)
    ensures r == ReadOne(e, FromDurable, source)
  {
    hide Blank, Leads, Escaped, ParseOne;
    if Blank(e, source) {
      return None;
    }
    if !Leads(source, "\\!") {
      var wire := if Leads(source, "!") then Escaped(source) else source;
      var one := ParsePathPatterns(e, [wire]);
      ReadAllExact(e, FromConfig, [wire]);
      assert one.Some? <==> ReadOne(e, FromConfig, [wire][0]).Some?;
      if one.Some? {
        return Some(one.value[0]);
      }
    }
    return if e.retains(source) then Some(Legacy(source)) else None;
  }

  // ---------- What the readers agree on ----------

  predicate ValidCurrent(e: Engine, s: string) {
    ValidateOne(e, Current(s)).Some?
  }

  /** The start of a canonical spelling, in terms of the source. */
  lemma CanonicalStart(s: string, marker: string)
    requires Canonical(s).Some? && marker != "" && marker[0] != '/' && marker[0] != '.'
    requires forall i :: 0 <= i < |marker| ==> marker[i] != '/'
    ensures StartsWith(Canonical(s).value, marker) <==> Leads(s, marker)
  {
    CanonicalForm(s);
    var body := Body(s);
    var t := Trimmed(body);
    GoodStart(body);
    LeadsIff(s, marker);
    TrimmedStart(body, marker);
    hide Split, BadBackslash, Drive, RootOnly, Leads;
    if StartsWith(s, "/") {
      assert ("/" + t)[0] == '/';
      assert !StartsWith(s, marker) && !StartsWith(s, "./" + marker) by {
        assert s[0] == '/';
        assert ("./" + marker)[0] == '.';
      }
      assert !StartsWith("/" + t, marker);
    } else if StartsWith(s, "./") {
      assert s[0] == '.';
      assert StartsWith(s, "./" + marker) <==> StartsWith(s[2..], marker) by {
        PrefixTail(s, marker);
      }
    } else {
      LongerPrefix(s, marker);
    }
  }

  lemma LongerPrefix(s: string, marker: string)
    ensures StartsWith(s, "./" + marker) ==> StartsWith(s, "./")
  {
    if StartsWith(s, "./" + marker) {
      assert s[..2] == s[..|marker| + 2][..2];
    }
  }

  lemma PrefixTail(s: string, marker: string)
    requires StartsWith(s, "./")
    ensures StartsWith(s, "./" + marker) <==> StartsWith(s[2..], marker)
  {
    if |marker| + 2 <= |s| {
      assert s[..|marker| + 2] == s[..2] + s[2..][..|marker|];
      assert s[2..][..|marker|] == s[..|marker| + 2][2..];
    }
  }

  /** Trimming a directory marker does not touch how a body starts. */
  lemma TrimmedStart(body: string, marker: string)
    requires marker != "" && forall i :: 0 <= i < |marker| ==> marker[i] != '/'
    ensures StartsWith(Trimmed(body), marker) <==> StartsWith(body, marker)
  {
    var t := Trimmed(body);
    if StartsWith(body, marker) && |t| < |body| {
      assert body[..|marker|][|marker| - 1] == marker[|marker| - 1];
      assert t[..|marker|] == body[..|marker|];
    } else if StartsWith(t, marker) {
      assert t[..|marker|] == body[..|marker|];
    }
  }

  /** Escaping a leading bang puts one backslash in front of the canonical spelling. */
  lemma EscapedCanonical(s: string)
    requires Canonical(s).Some? && Leads(s, "!")
    ensures Canonical(Escaped(s)) == Some("\\" + Canonical(s).value)
    ensures Leads(Escaped(s), "\\!") && Offset(Escaped(s)) == Offset(s)
  {
    hide *;
    EscapedLeads(s);
    CanonicalForm(s);
    EscapedBody(s);
    CanonicalForm(Escaped(s));
    EscapedStarts(Escaped(s));
    EscapedStarts(s);
    EscapedAcceptable(Body(s));
    NotRootOnly("\\" + Trimmed(Body(s)));
  }

  lemma EscapedLeads(s: string)
    requires Leads(s, "!")
    ensures Leads(Escaped(s), "\\!") && Offset(Escaped(s)) == Offset(s)
  {
    OffsetsAgree(s);
    EscapedBody(s);
    LeadsIff(Escaped(s), "\\!");
    hide Leads, Offset, Escaped;
  }

  lemma EscapedStarts(x: string)
    ensures StartsWith(x, "//") ==> StartsWith(x, "/")
  {
    if StartsWith(x, "//") {
      assert x[..2][0] == x[0];
    }
  }

  lemma EscapedAcceptable(body: string)
    requires StartsWith(body, "!") && Acceptable(false, body)
    ensures Acceptable(false, "\\" + body) && Trimmed("\\" + body) == "\\" + Trimmed(body)
  {
    hide Split, GoodSegments, BadBackslash, Drive;
    EscapedBackslash(body);
    EscapedSegments(body);
  }

  lemma NotRootOnly(s: string)
    requires s != "" && s[0] != '/'
    ensures !RootOnly(s)
  {
  }

  lemma EscapedBody(s: string)
    requires Leads(s, "!")
    ensures var x := Escaped(s);
      && Body(x) == "\\" + Body(s) && StartsWith(Body(s), "!")
      && (StartsWith(x, "\\!") || StartsWith(x, "./\\!"))
      && !StartsWith(s, "/") && !StartsWith(x, "/") && !StartsWith(x, "\\\\")
  {
    hide Leads, Offset;
    LeadsIff(s, "!");
    var x := Escaped(s);
    if StartsWith(s, "!") {
      assert x == "\\" + s;
      assert s[0] == '!' && x[0] == '\\' && x[1] == '!';
      assert x[..2] == "\\!";
    } else {
      assert s[..3] == "./!";
      assert s[0] == '.' && s[1] == '/' && s[2] == '!';
      assert s[..2] == "./";
      assert x == "./" + ("\\" + s[2..]);
      assert x[..2] == "./" && x[2..] == "\\" + s[2..];
      assert x[..4] == "./\\!";
    }
  }

  lemma EscapedBackslash(body: string)
    requires StartsWith(body, "!") && !BadBackslash(false, body)
    ensures !BadBackslash(false, "\\" + body) && !Drive("\\" + body)
  {
    var x := "\\" + body;
    assert body[0] == '!';
    assert x[..2] == "\\!";
    assert x[2..] == body[1..];
  }

  lemma EscapedSegments(body: string)
    requires StartsWith(body, "!") && GoodSegments(Split(Trimmed(body)))
    ensures GoodSegments(Split("\\" + Trimmed(body))) && Trimmed("\\" + body) == "\\" + Trimmed(body)
  {
    SplitPrepend('\\', Trimmed(body));
    hide Split;
    assert body[..1] == "!";
    assert ("\\" + body)[|body|] == body[|body| - 1];
    var segments := Split(Trimmed(body));
    assert ("\\" + segments[0])[0] == '\\';
  }

  lemma SplitPrepend(c: char, s: string)
    requires c != '/'
    ensures Split([c] + s) == [[c] + Split(s)[0]] + Split(s)[1..]
  {
    assert ([c] + s)[0] == c && ([c] + s)[1..] == s;
  }

  lemma EscapedPlain(e: Engine, s: string)
    ensures Control(Escaped(s)) == Control(s)
    ensures Blank(e, Escaped(s)) ==> Blank(e, s)
  {
    hide Offset;
    var m, x := Offset(s), Escaped(s);
    forall i | 0 <= i < |s|
      ensures s[i] == x[if i < m then i else i + 1]
    {
    }
    if Control(x) {
      var i :| 0 <= i < |x| && (x[i] as int < 32 || x[i] as int == 127);
      assert i != m;
      assert s[if i < m then i else i - 1] == x[i];
    }
    if Control(s) {
      var i :| 0 <= i < |s| && (s[i] as int < 32 || s[i] as int == 127);
      assert x[if i < m then i else i + 1] == s[i];
    }
    if Blank(e, x) {
      forall i | 0 <= i < |s|
        ensures e.space(s[i])
      {
        assert e.space(x[if i < m then i else i + 1]);
      }
    }
  }

  /** The wire spelling: a leading bang is escaped, everything else is as it is. */
  function Wire(s: string): string {
    if Leads(s, "!") then Escaped(s) else s
  }

  /** Every valid internal text survives its wire spelling. */
  lemma WireRoundTrip(e: Engine, s: string)
    requires ValidCurrent(e, s)
    ensures ParseOne(e, Wire(s)) == Some(Current(s))
    ensures !Leads(s, "\\!")
  {
    hide Canonical, Blank, Control, StartsWith, Leads, Escaped;
    CanonicalStart(s, "!");
    CanonicalStart(s, "\\!");
    if Leads(s, "!") {
      StripsEscape(e, s);
    }
  }

  lemma StripsEscape(e: Engine, s: string)
    requires Canonical(s).Some? && Leads(s, "!") && !Blank(e, s) && !Control(s)
    ensures Strip(e, Escaped(s)) == Some(s)
  {
    hide Canonical, Blank, Control, Leads, Escaped, Offset, StartsWith;
    EscapedCanonical(s);
    EscapedPlain(e, s);
    CanonicalStart(s, "!");
    BangStart(Canonical(s).value);
    UnescapesEscape(s);
  }

  lemma BangStart(c: string)
    requires StartsWith(c, "!")
    ensures StartsWith("\\" + c, "\\!")
  {
    assert c[..1] == "!";
  }

  lemma UnescapesEscape(s: string)
    requires Offset(Escaped(s)) == Offset(s)
    ensures Offset(s) < |Escaped(s)| && Unescaped(Escaped(s)) == s
  {
    hide Offset;
    var m, x := Offset(s), Escaped(s);
    assert x[..m] == s[..m] && x[m + 1..] == s[m..];
    assert s[..m] + s[m..] == s;
  }

  /** Whatever a reader makes of a line, the text it keeps is the line. */
  lemma ParseKeepsText(e: Engine, s: string)
    requires !Leads(s, "\\!") && ParseOne(e, Wire(s)).Some?
    ensures ParseOne(e, Wire(s)) == Some(Current(s))
  {
    hide Canonical, Blank, Control, StartsWith, Leads, Escaped;
    if Leads(s, "!") {
      StripKeepsText(e, s);
    } else {
      CanonicalStart(s, "\\!");
    }
  }

  lemma StripKeepsText(e: Engine, s: string)
    requires Leads(s, "!") && Strip(e, Escaped(s)).Some?
    ensures Strip(e, Escaped(s)) == Some(s)
  {
    hide Canonical, Blank, Control, Leads, Escaped, StartsWith, Offset, Unescaped, Body;
    var x := Escaped(s);
    EscapedBody(s);
    LeadsIff(x, "\\!");
    CanonicalStart(x, "\\!");
    OffsetsAgree(s);
    UnescapesEscape(s);
    assert "./" + "\\!" == "./\\!";
  }

  lemma OffsetsAgree(s: string)
    requires Leads(s, "!")
    ensures Offset(Escaped(s)) == Offset(s)
  {
    EscapedBody(s);
    LeadsIff(s, "!");
    LeadsIff(Escaped(s), "\\!");
    if StartsWith(s, "!") {
      assert s[..1] == "!" && Escaped(s)[0] == '\\';
    } else {
      assert s[..3] == "./!" && Escaped(s)[0] == '.';
    }
    hide Offset, Leads, Escaped;
  }

  /** A line is retained as legacy only if it is no valid current text. */
  lemma LegacyIsNotCurrent(e: Engine, s: string)
    requires ParseDurableOne(e, s) == Some(Legacy(s))
    ensures !ValidCurrent(e, s)
  {
    if ValidCurrent(e, s) {
      WireRoundTrip(e, s);
      hide ParseOne, Leads, Escaped, Canonical;
      assert false;
    }
  }

  // ---------- What the readers make of a raw line ----------

  predicate Bang(s: string) {
    StartsWith(s, "!") || StartsWith(s, "./!")
  }

  predicate EscapedBang(s: string) {
    StartsWith(s, "\\!") || StartsWith(s, "./\\!")
  }

  /** The text an escaped bang stands for. */
  function Literal(s: string): string {
    if StartsWith(s, "\\!") then s[1..]
    else if StartsWith(s, "./\\!") then "./" + s[3..]
    else s
  }

  /** A relative or once-anchored path, without a drive, a stray backslash, an empty or a dotted segment. */
  predicate NamesAPath(s: string) {
    var anchored, t := StartsWith(s, "/"), Trimmed(Body(s));
    && !StartsWith(s, "//") && !StartsWith(s, "\\\\") && Acceptable(anchored, Body(s))
    && !RootOnly(if anchored then "/" + t else t)
  }

  lemma {:induction false} SplitJoins(a: string, b: string)
    ensures Split(a + "/" + b) == Split(a) + Split(b)
  {
    hide Split;
    if a == "" {
      SplitStep("/" + b);
      assert ("/" + b)[1..] == b && a + "/" + b == "/" + b;
      SplitStep("");
    } else {
      SplitJoins(a[1..], b);
      SplitStep(a);
      SplitStep(a + "/" + b);
      assert (a + "/" + b)[1..] == a[1..] + "/" + b;
      var rest := Split(a[1..]);
      assert (rest + Split(b))[0] == rest[0] && (rest + Split(b))[1..] == rest[1..] + Split(b);
    }
  }

  lemma SplitStep(s: string)
    ensures Split(s) ==
      if s == "" then [""]
      else
        var rest := Split(s[1..]);
        if s[0] == '/' then [""] + rest else [[s[0]] + rest[0]] + rest[1..]
  {
  }

  lemma {:induction false} SplitName(part: string)
    requires '/' !in part
    ensures Split(part) == [part]
  {
    if part != "" {
      SplitName(part[1..]);
      assert part == [part[0]] + part[1..];
    }
  }

  /** Once the anchor, a leading `./` and one trailing slash are gone, a path has no empty, `.` or `..` segment anywhere. */
  lemma DottedSegmentsAreRefused(s: string, front: string, part: string, back: string)
    requires part in {"", ".", ".."}
    requires var t := Trimmed(Body(s));
      t == part || t == part + "/" + back || t == front + "/" + part || t == front + "/" + part + "/" + back
    ensures !NamesAPath(s)
  {
    hide Split, Trimmed, Body;
    var t := Trimmed(Body(s));
    SplitName(part);
    SplitJoins(part, back);
    SplitJoins(front, part);
    SplitJoins(front + "/" + part, back);
    assert part in Split(t);
  }

  /** What a current text must be. */
  predicate Plain(e: Engine, s: string) {
    !Blank(e, s) && !Control(s) && NamesAPath(s) && !EscapedBang(s) && e.compiles(s)
  }

  lemma NamesIffCanonical(s: string)
    ensures NamesAPath(s) <==> Canonical(s).Some?
  {
    CanonicalForm(s);
    hide Canonical, Acceptable, Body, Trimmed, RootOnly, StartsWith;
  }

  lemma EscapeLeads(s: string)
    requires Canonical(s).Some?
    ensures StartsWith(Canonical(s).value, "\\!") <==> EscapedBang(s)
    ensures StartsWith(Canonical(s).value, "!") <==> Bang(s)
  {
    CanonicalStart(s, "\\!");
    CanonicalStart(s, "!");
    LeadsIff(s, "\\!");
    LeadsIff(s, "!");
    assert "./" + "!" == "./!" && "./" + "\\!" == "./\\!";
    hide Canonical, Leads, StartsWith;
  }

  lemma ValidIffPlain(e: Engine, s: string)
    ensures ValidCurrent(e, s) <==> Plain(e, s)
  {
    NamesIffCanonical(s);
    if Canonical(s).Some? {
      EscapeLeads(s);
    }
    hide Canonical, NamesAPath, EscapedBang, Blank, Control, StartsWith;
  }

  /** An escaped bang is the escape of the text it stands for, and of no other. */
  lemma LiteralOfEscape(s: string)
    requires EscapedBang(s)
    ensures Bang(Literal(s)) && Leads(Literal(s), "!") && Escaped(Literal(s)) == s && !Bang(s)
  {
    var t := Literal(s);
    if StartsWith(s, "\\!") {
      assert s[..2] == "\\!" && s[0] == '\\' && s[1] == '!';
      assert t[..1] == "!";
      LeadsIff(t, "!");
      assert "\\" + t == s;
    } else {
      assert s[..4] == "./\\!" && s[0] == '.' && s[1] == '/' && s[2] == '\\' && s[3] == '!';
      assert t[..3] == "./!" && "./" + "!" == "./!";
      LeadsIff(t, "!");
      assert t[..2] == "./" && t[2..] == s[3..];
      assert s == "./" + "\\" + s[3..];
      assert !StartsWith(s, "./!") by {
        assert s[..3][2] == '\\';
      }
    }
  }

  /**
   The configuration reader: a negated line is refused, an escaped bang is read as the literal it stands for,
   and any other line is taken as it is, each if the text is one that names a path and compiles.
  */
  lemma ConfigurationReads(e: Engine, s: string)
    ensures ParseOne(e, s) == if !Bang(s) && Plain(e, Literal(s)) then Some(Current(Literal(s))) else None
  {
    var t := Literal(s);
    ValidIffPlain(e, t);
    if EscapedBang(s) {
      LiteralOfEscape(s);
      hide Canonical, Blank, Control, Leads, Escaped, StartsWith, Plain, EscapedBang, Literal;
      if ValidCurrent(e, t) {
        StripsEscape(e, t);
      } else if Strip(e, Escaped(t)).Some? {
        StripKeepsText(e, t);
      }
    } else {
      assert t == s;
      if Canonical(s).Some? {
        EscapeLeads(s);
      }
      NamesIffCanonical(s);
      hide Canonical, Blank, Control, StartsWith, NamesAPath, EscapedBang, Bang, Literal;
    }
  }

  /** The marked reader: every line is its own text, a leading bang included, and the escape is refused. */
  lemma MarkedReads(e: Engine, s: string)
    ensures ParseMarkedOne(e, s) == if Plain(e, s) then Some(Current(s)) else None
  {
    hide Canonical, Control, Offset;
    LeadsEither(s);
    ValidIffPlain(e, s);
    if ValidCurrent(e, s) {
      WireRoundTrip(e, s);
    } else if !Leads(s, "\\!") && ParseOne(e, Wire(s)).Some? {
      ParseKeepsText(e, s);
      ParsedIsValid(e, Wire(s));
    }
    hide ParseOne, Leads, Escaped, StartsWith, NamesAPath, Plain;
  }

  lemma LeadsEither(s: string)
    ensures Leads(s, "\\!") <==> EscapedBang(s)
    ensures Leads(s, "!") <==> Bang(s)
  {
    LeadsIff(s, "\\!");
    LeadsIff(s, "!");
    assert "./" + "!" == "./!" && "./" + "\\!" == "./\\!";
  }

  /** The durable reader: what the marked one takes it takes, and any other line it keeps with the legacy mark. */
  lemma DurableReads(e: Engine, s: string)
    ensures ParseDurableOne(e, s)
      == if Blank(e, s) then None
         else if Plain(e, s) then Some(Current(s))
         else if e.retains(s) then Some(Legacy(s)) else None
  {
    LeadsEither(s);
    MarkedReads(e, s);
    hide ParseOne, Leads, Escaped, StartsWith, NamesAPath, Control;
  }

  lemma ValidateAllReads(e: Engine, patterns: seq<Pattern>)
    ensures ValidateAll(e, patterns).Some? <==> forall i :: 0 <= i < |patterns| ==>
      if patterns[i].Legacy? then !Blank(e, patterns[i].text) else Plain(e, patterns[i].text)
  {
    forall i | 0 <= i < |patterns|
      ensures ValidateOne(e, patterns[i]).Some?
        <==> if patterns[i].Legacy? then !Blank(e, patterns[i].text) else Plain(e, patterns[i].text)
    {
      ValidIffPlain(e, patterns[i].text);
      hide Plain, Blank, Control, Canonical, StartsWith;
    }
    hide ValidateOne, Plain, Blank;
  }

  lemma ConfigurationListReads(e: Engine, raw: seq<string>)
    ensures var r := ReadAll(e, FromConfig, raw);
      && (r.Some? <==> forall i :: 0 <= i < |raw| ==> !Bang(raw[i]) && Plain(e, Literal(raw[i])))
      && (r.Some? ==> |r.value| == |raw| && forall i :: 0 <= i < |raw| ==> r.value[i] == Current(Literal(raw[i])))
  {
    hide ReadAll, ParseOne, Plain, Bang, Literal;
    ReadAllExact(e, FromConfig, raw);
    forall i | 0 <= i < |raw|
      ensures ReadOne(e, FromConfig, raw[i])
        == if !Bang(raw[i]) && Plain(e, Literal(raw[i])) then Some(Current(Literal(raw[i]))) else None
    {
      ConfigurationReads(e, raw[i]);
    }
    hide ReadOne;
  }

  lemma MarkedListReads(e: Engine, raw: seq<string>)
    ensures var r := ReadAll(e, FromMarked, raw);
      && (r.Some? <==> forall i :: 0 <= i < |raw| ==> Plain(e, raw[i]))
      && (r.Some? ==> |r.value| == |raw| && forall i :: 0 <= i < |raw| ==> r.value[i] == Current(raw[i]))
  {
    hide ReadAll, ParseMarkedOne, Plain;
    ReadAllExact(e, FromMarked, raw);
    forall i | 0 <= i < |raw|
      ensures ReadOne(e, FromMarked, raw[i]) == if Plain(e, raw[i]) then Some(Current(raw[i])) else None
    {
      MarkedReads(e, raw[i]);
    }
    hide ReadOne;
  }

  lemma DurableListReads(e: Engine, raw: seq<string>)
    ensures var r := ReadAll(e, FromDurable, raw);
      && (r.Some? <==> forall i :: 0 <= i < |raw| ==> !Blank(e, raw[i]) && (Plain(e, raw[i]) || e.retains(raw[i])))
      && (r.Some? ==> |r.value| == |raw| && forall i :: 0 <= i < |raw| ==>
            r.value[i] == if Plain(e, raw[i]) then Current(raw[i]) else Legacy(raw[i]))
  {
    hide ReadAll, ParseDurableOne, Plain, Blank;
    ReadAllExact(e, FromDurable, raw);
    forall i | 0 <= i < |raw|
      ensures ReadOne(e, FromDurable, raw[i])
        == if Blank(e, raw[i]) then None
           else if Plain(e, raw[i]) then Some(Current(raw[i]))
           else if e.retains(raw[i]) then Some(Legacy(raw[i])) else None
    {
      DurableReads(e, raw[i]);
    }
    hide ReadOne;
    var r := ReadAll(e, FromDurable, raw);
    if r.Some? {
      forall i | 0 <= i < |raw|
        ensures !Blank(e, raw[i]) && (Plain(e, raw[i]) || e.retains(raw[i]))
        ensures r.value[i] == if Plain(e, raw[i]) then Current(raw[i]) else Legacy(raw[i])
      {
        assert Some(r.value[i]) == ReadOne(e, FromDurable, raw[i]);
      }
    } else {
      var i :| 0 <= i < |raw| && ReadOne(e, FromDurable, raw[i]).None?;
      assert Blank(e, raw[i]) || !(Plain(e, raw[i]) || e.retains(raw[i]));
    }
  }

  // ---------- Policies ----------

  /** A frozen `PermissionPolicy`; its constructor validates both lists. */
  datatype PermissionPolicy = PermissionPolicy(deny: seq<Pattern>, redact: seq<Pattern>)

  datatype Encoding = Unmarked | LiteralBang | OtherMarker

  datatype Json = Json(deny: seq<string>, redact: seq<string>, encoding: Encoding)

  function Construct(e: Engine, deny: seq<Pattern>, redact: seq<Pattern>): Option<PermissionPolicy> {
    if ValidateAll(e, deny).Some? && ValidateAll(e, redact).Some? then Some(PermissionPolicy(deny, redact)) else None
  }

  predicate Constructed(e: Engine, p: PermissionPolicy) {
    ValidateAll(e, p.deny).Some? && ValidateAll(e, p.redact).Some?
  }

  function Build(e: Engine, deny: Option<seq<Pattern>>, redact: Option<seq<Pattern>>): Option<PermissionPolicy> {
    if deny.Some? && redact.Some? then Construct(e, deny.value, redact.value) else None
  }

  /** `from_json`. */
  function FromJson(e: Engine, json: Json): Option<PermissionPolicy> {
    match json.encoding
    case OtherMarker => None
    case Unmarked => Build(e, ReadAll(e, FromConfig, json.deny), ReadAll(e, FromConfig, json.redact))
    case LiteralBang => Build(e, ReadAll(e, FromMarked, json.deny), ReadAll(e, FromMarked, json.redact))
  }

  /** `from_durable_json`; the marker is checked and otherwise ignored. */
  function FromDurableJson(e: Engine, json: Json): Option<PermissionPolicy> {
    if json.encoding.OtherMarker? then None
    else Build(e, ReadAll(e, FromDurable, json.deny), ReadAll(e, FromDurable, json.redact))
  }

  function Texts(patterns: seq<Pattern>): seq<string> {
    seq(|patterns|, i requires 0 <= i < |patterns| => patterns[i].text)
  }

  predicate Serializable(patterns: seq<Pattern>) {
    forall i :: 0 <= i < |patterns| ==> patterns[i].Legacy? || Canonical(patterns[i].text).Some?
  }

  /** `serialize_path_patterns`. */
  method SerializePathPatterns(patterns: seq<Pattern>) returns (r: Option<seq<string>>)
    ensures r == if Serializable(patterns) then Some(Texts(patterns)) else None
  {
    hide Canonical;
    var serialized: seq<string> := [];
    for i := 0 to |patterns|
      invariant serialized == Texts(patterns[..i]) && Serializable(patterns[..i])
    {
      if patterns[i].Current? && Canonical(patterns[i].text).None? {
        return None;
      }
      serialized := serialized + [patterns[i].text];
    }
    assert patterns[..|patterns|] == patterns;
    return Some(serialized);
  }

  /** The one pattern that makes the marker necessary. */
  predicate NeedsMarker(p: Pattern) {
    if p.Legacy? then Leads(p.text, "\\!")
    else Canonical(p.text).Some? && StartsWith(Canonical(p.text).value, "!")
  }

  /** `path_patterns_need_encoding_marker`. */
  method NeedEncodingMarker(groups: seq<seq<Pattern>>) returns (needed: bool)
    ensures needed <==> exists i, j :: 0 <= i < |groups| && 0 <= j < |groups[i]| && NeedsMarker(groups[i][j])
  {
    hide NeedsMarker;
    for i := 0 to |groups|
      invariant forall k, j :: 0 <= k < i && 0 <= j < |groups[k]| ==> !NeedsMarker(groups[k][j])
    {
      for j := 0 to |groups[i]|
        invariant forall k :: 0 <= k < j ==> !NeedsMarker(groups[i][k])
      {
        if NeedsMarker(groups[i][j]) {
          return true;
        }
      }
    }
    return false;
  }

  /** A text needs the marker exactly when the configuration reader would not give it back. */
  lemma MarkerIsNeededIff(e: Engine, s: string)
    ensures Plain(e, s) ==> (NeedsMarker(Current(s)) <==> ParseOne(e, s) != Some(Current(s)))
    ensures NeedsMarker(Current(s)) <==> NamesAPath(s) && Bang(s)
    ensures NeedsMarker(Legacy(s)) <==> EscapedBang(s)
  {
    NamesIffCanonical(s);
    ConfigurationReads(e, s);
    LeadsEither(s);
    if Canonical(s).Some? {
      EscapeLeads(s);
    }
    hide Canonical, ParseOne, StartsWith, NamesAPath, Leads;
  }

  predicate AnyNeedsMarker(patterns: seq<Pattern>) {
    exists i :: 0 <= i < |patterns| && NeedsMarker(patterns[i])
  }

  /** `to_json`. */
  function ToJson(p: PermissionPolicy): Option<Json> {
    if Serializable(p.deny) && Serializable(p.redact) then
      Some(Json(Texts(p.deny), Texts(p.redact),
                if AnyNeedsMarker(p.deny) || AnyNeedsMarker(p.redact) then LiteralBang else Unmarked))
    else None
  }

  predicate AllCurrent(patterns: seq<Pattern>) {
    forall i :: 0 <= i < |patterns| ==> patterns[i].Current?
  }

  /** The reader that matches how a policy is written gives every current pattern back. */
  lemma TextsReadBack(e: Engine, patterns: seq<Pattern>, marked: bool)
    requires AllCurrent(patterns) && ValidateAll(e, patterns).Some?
    requires !marked ==> !AnyNeedsMarker(patterns)
    ensures Serializable(patterns)
    ensures ReadAll(e, if marked then FromMarked else FromConfig, Texts(patterns)) == Some(patterns)
  {
    var reader := if marked then FromMarked else FromConfig;
    forall i | 0 <= i < |patterns|
      ensures ReadOne(e, reader, Texts(patterns)[i]) == Some(patterns[i]) && Canonical(patterns[i].text).Some?
    {
      assert ValidateOne(e, patterns[i]).Some?;
      CurrentReadsBack(e, patterns[i], marked);
    }
    ReadAllExact(e, reader, Texts(patterns));
    hide ReadOne, ReadAll, Canonical;
    assert ReadAll(e, reader, Texts(patterns)).value == patterns;
  }

  lemma CurrentReadsBack(e: Engine, p: Pattern, marked: bool)
    requires p.Current? && ValidateOne(e, p).Some? && (!marked ==> !NeedsMarker(p))
    ensures ReadOne(e, if marked then FromMarked else FromConfig, p.text) == Some(p)
    ensures Canonical(p.text).Some?
  {
    WireRoundTrip(e, p.text);
    CanonicalStart(p.text, "!");
    hide Canonical, Blank, Control, StartsWith, Leads, Escaped, ParseOne;
  }

  /** `from_json(to_json(p)) == p` for every policy of current patterns. */
  lemma JsonRoundTrip(e: Engine, p: PermissionPolicy)
    requires Constructed(e, p) && AllCurrent(p.deny) && AllCurrent(p.redact)
    ensures ToJson(p).Some? && FromJson(e, ToJson(p).value) == Some(p)
  {
    var marked := AnyNeedsMarker(p.deny) || AnyNeedsMarker(p.redact);
    TextsReadBack(e, p.deny, marked);
    TextsReadBack(e, p.redact, marked);
    hide ReadAll, ValidateAll, Serializable, AnyNeedsMarker, AllCurrent, Texts;
  }

  /** A line read durably is read the same way from what it is written as. */
  lemma DurableReadsBack(e: Engine, s: string)
    requires ParseDurableOne(e, s).Some?
    ensures ParseDurableOne(e, s).value.text == s
    ensures ParseDurableOne(e, s).value.Legacy? || Canonical(s).Some?
  {
    if !Leads(s, "\\!") && ParseOne(e, Wire(s)).Some? {
      ParseKeepsText(e, s);
      ParsedIsValid(e, Wire(s));
    }
    hide Canonical, Blank, Leads, Escaped, ParseOne;
  }

  lemma ParsedIsValid(e: Engine, s: string)
    ensures ParseOne(e, s).Some? ==> ValidateOne(e, ParseOne(e, s).value).Some?
    ensures ParseOne(e, s).Some? && ParseOne(e, s).value.Current? ==> Canonical(ParseOne(e, s).value.text).Some?
  {
    hide Strip, Canonical, Blank, Control, StartsWith;
  }

  lemma DurableTexts(e: Engine, raw: seq<string>)
    requires ReadAll(e, FromDurable, raw).Some?
    ensures var patterns := ReadAll(e, FromDurable, raw).value; Texts(patterns) == raw && Serializable(patterns)
  {
    ReadAllExact(e, FromDurable, raw);
    var patterns := ReadAll(e, FromDurable, raw).value;
    forall i | 0 <= i < |raw|
      ensures patterns[i].text == raw[i] && (patterns[i].Legacy? || Canonical(patterns[i].text).Some?)
    {
      assert Some(patterns[i]) == ReadOne(e, FromDurable, raw[i]);
      DurableReadsBack(e, raw[i]);
    }
    hide ReadAll, ReadOne, Canonical;
    assert Texts(patterns) == raw;
  }

  /** `from_durable_json(to_json(p)) == p`, legacy marks included, for every policy read durably. */
  lemma DurableRoundTrip(e: Engine, json: Json)
    requires FromDurableJson(e, json).Some?
    ensures var p := FromDurableJson(e, json).value;
      ToJson(p).Some? && FromDurableJson(e, ToJson(p).value) == Some(p)
  {
    DurableTexts(e, json.deny);
    DurableTexts(e, json.redact);
    hide ReadAll, Serializable, Texts, AnyNeedsMarker, ValidateAll;
  }

  // ---------- Matching and merging ----------

  predicate MatchesOne(e: Engine, path: string, p: Pattern) {
    if p.Legacy? then e.pure(p.text, path) else e.glob(p.text, path)
  }

  /** `matches_path_patterns` on a normalised path: the synthetic root matches nothing. */
  predicate Matches(e: Engine, path: string, patterns: seq<Pattern>) {
    path != "." && exists i :: 0 <= i < |patterns| && MatchesOne(e, path, patterns[i])
  }

  /** Order-preserving de-duplication by text, as a marked string equals a plain one. */
  function Dedupe(patterns: seq<Pattern>): seq<Pattern> {
    if patterns == [] then []
    else
      var init, last := Dedupe(patterns[..|patterns| - 1]), patterns[|patterns| - 1];
      if exists i :: 0 <= i < |init| && init[i].text == last.text then init else init + [last]
  }

  /** `merged`; the incoming lists are configuration. */
  function Merged(e: Engine, p: PermissionPolicy, deny: seq<string>, redact: seq<string>): Option<PermissionPolicy> {
    var newDeny, newRedact := ReadAll(e, FromConfig, deny), ReadAll(e, FromConfig, redact);
    if newDeny.Some? && newRedact.Some? then
      Construct(e, Dedupe(p.deny + newDeny.value), Dedupe(p.redact + newRedact.value))
    else None
  }

  /** Legacy marks sit only on texts the current grammar refuses, as every reader leaves them. */
  ghost predicate Separated(e: Engine, patterns: seq<Pattern>) {
    forall i :: 0 <= i < |patterns| && patterns[i].Legacy? ==> !ValidCurrent(e, patterns[i].text)
  }

  /** Equal texts mean equal patterns. */
  ghost predicate TextDecides(patterns: seq<Pattern>) {
    forall i, j :: 0 <= i < |patterns| && 0 <= j < |patterns| && patterns[i].text == patterns[j].text ==>
      patterns[i] == patterns[j]
  }

  lemma {:induction false} DedupeKeepsMembers(patterns: seq<Pattern>)
    requires TextDecides(patterns)
    ensures forall p :: p in Dedupe(patterns) <==> p in patterns
    ensures forall i, j :: 0 <= i < j < |Dedupe(patterns)| ==> Dedupe(patterns)[i] != Dedupe(patterns)[j]
  {
    if patterns != [] {
      var before := patterns[..|patterns| - 1];
      DedupeKeepsMembers(before);
      DedupeOneMore(patterns, Dedupe(before));
    }
  }

  /** The last pattern is kept unless its text is there already, and then it is there itself. */
  lemma DedupeOneMore(patterns: seq<Pattern>, init: seq<Pattern>)
    requires patterns != [] && TextDecides(patterns)
    requires forall p :: p in init <==> p in patterns[..|patterns| - 1]
    ensures var last := patterns[|patterns| - 1];
      var r := if exists i :: 0 <= i < |init| && init[i].text == last.text then init else init + [last];
      && (forall p :: p in r <==> p in patterns)
      && (r != init ==> r == init + [last] && last !in init)
  {
    var before, last := patterns[..|patterns| - 1], patterns[|patterns| - 1];
    assert patterns == before + [last];
    if i :| 0 <= i < |init| && init[i].text == last.text {
      assert init[i] in init;
      var j :| 0 <= j < |before| && before[j] == init[i];
      assert patterns[j] == before[j] && patterns[|before|] == last;
      assert patterns[j].text == patterns[|before|].text;
    } else {
      assert last !in init;
    }
  }

  lemma SeparationDecides(e: Engine, patterns: seq<Pattern>)
    requires Separated(e, patterns) && ValidateAll(e, patterns).Some?
    ensures TextDecides(patterns)
  {
    hide Blank, Control, Canonical, StartsWith;
    forall i, j | 0 <= i < |patterns| && 0 <= j < |patterns| && patterns[i].text == patterns[j].text
      ensures patterns[i] == patterns[j]
    {
      assert ValidateOne(e, patterns[i]).Some? && ValidateOne(e, patterns[j]).Some?;
    }
  }

  lemma {:induction false} ReadIsValid(e: Engine, reader: Reader, raw: seq<string>)
    requires ReadAll(e, reader, raw).Some?
    ensures ValidateAll(e, ReadAll(e, reader, raw).value).Some?
    ensures Separated(e, ReadAll(e, reader, raw).value)
  {
    ReadAllExact(e, reader, raw);
    var patterns := ReadAll(e, reader, raw).value;
    hide ReadAll;
    forall i | 0 <= i < |patterns|
      ensures ValidateOne(e, patterns[i]).Some?
      ensures patterns[i].Legacy? ==> !ValidCurrent(e, patterns[i].text)
    {
      assert Some(patterns[i]) == ReadOne(e, reader, raw[i]);
      ReadOneIsValid(e, reader, raw[i]);
    }
    hide ReadOne, ValidateOne;
  }

  lemma ReadOneIsValid(e: Engine, reader: Reader, s: string)
    requires ReadOne(e, reader, s).Some?
    ensures var p := ReadOne(e, reader, s).value;
      ValidateOne(e, p).Some? && (p.Legacy? ==> !ValidCurrent(e, p.text))
  {
    ParsedIsValid(e, s);
    ParsedIsValid(e, Wire(s));
    ParsedIsCurrent(e, s);
    ParsedIsCurrent(e, Wire(s));
    if reader.FromDurable? {
      DurableReadsBack(e, s);
      if ReadOne(e, reader, s).value.Legacy? {
        LegacyIsNotCurrent(e, s);
      }
    }
    hide ParseOne, Leads, Escaped, Canonical, Control, StartsWith;
  }

  lemma ParsedIsCurrent(e: Engine, s: string)
    ensures ParseOne(e, s).Some? ==> ParseOne(e, s).value.Current?
  {
    hide Strip, Canonical, Blank, Control, StartsWith;
  }

  /**
   A merged policy matches a path exactly when one of its parts does, for every policy whose legacy marks
   come from a reader; the merge is such a policy again.
  */
  lemma MergedMatchesEitherPart(e: Engine, p: PermissionPolicy, deny: seq<string>, redact: seq<string>, path: string)
    requires Constructed(e, p) && Separated(e, p.deny) && Separated(e, p.redact)
    requires Merged(e, p, deny, redact).Some?
    ensures var m := Merged(e, p, deny, redact).value;
      && Constructed(e, m) && Separated(e, m.deny) && Separated(e, m.redact)
      && (Matches(e, path, m.deny) <==>
            Matches(e, path, p.deny) || Matches(e, path, ReadAll(e, FromConfig, deny).value))
      && (Matches(e, path, m.redact) <==>
            Matches(e, path, p.redact) || Matches(e, path, ReadAll(e, FromConfig, redact).value))
  {
    ReadIsValid(e, FromConfig, deny);
    ReadIsValid(e, FromConfig, redact);
    hide ReadAll;
    MergedList(e, p.deny, ReadAll(e, FromConfig, deny).value, path);
    MergedList(e, p.redact, ReadAll(e, FromConfig, redact).value, path);
    hide ValidateAll, Separated, Matches, Dedupe;
  }

  lemma MergedList(e: Engine, old_: seq<Pattern>, new_: seq<Pattern>, path: string)
    requires ValidateAll(e, old_).Some? && ValidateAll(e, new_).Some? && Separated(e, old_) && Separated(e, new_)
    ensures var merged := Dedupe(old_ + new_);
      && Separated(e, merged)
      && (Matches(e, path, merged) <==> Matches(e, path, old_) || Matches(e, path, new_))
  {
    var all := old_ + new_;
    hide ValidateOne, ValidCurrent, MatchesOne;
    assert ValidateAll(e, all).Some? && Separated(e, all);
    SeparationDecides(e, all);
    DedupeKeepsMembers(all);
    var merged := Dedupe(all);
    forall i | 0 <= i < |merged|
      ensures merged[i] in old_ || merged[i] in new_
    {
      assert merged[i] in all;
    }
    forall p | p in old_ || p in new_
      ensures p in merged
    {
      assert p in all;
    }
    MatchesByMembership(e, path, merged);
    MatchesByMembership(e, path, old_);
    MatchesByMembership(e, path, new_);
    hide Matches;
  }

  lemma MatchesByMembership(e: Engine, path: string, patterns: seq<Pattern>)
    ensures Matches(e, path, patterns) <==> path != "." && exists p :: p in patterns && MatchesOne(e, path, p)
  {
    hide MatchesOne;
  }

  /** Everything read durably may be merged. */
  lemma DurablePoliciesAreSeparated(e: Engine, json: Json)
    requires FromDurableJson(e, json).Some? || FromJson(e, json).Some?
    ensures FromDurableJson(e, json).Some? ==>
      var p := FromDurableJson(e, json).value; Constructed(e, p) && Separated(e, p.deny) && Separated(e, p.redact)
    ensures FromJson(e, json).Some? ==>
      var p := FromJson(e, json).value; Constructed(e, p) && Separated(e, p.deny) && Separated(e, p.redact)
  {
    hide ReadAll, ValidateAll, Separated;
    if FromDurableJson(e, json).Some? {
      ReadIsValid(e, FromDurable, json.deny);
      ReadIsValid(e, FromDurable, json.redact);
    }
    if FromJson(e, json).Some? {
      var reader := if json.encoding.LiteralBang? then FromMarked else FromConfig;
      ReadIsValid(e, reader, json.deny);
      ReadIsValid(e, reader, json.redact);
    }
  }
}
