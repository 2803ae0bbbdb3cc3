/**
 * `parseInterpretation` of the result screen: the regular expressions that
 * split an enriched interpretation back into its main text, the two titled
 * sections and the closing awareness line. Each regular expression is
 * written out as the search its backtracking engine performs; characters
 * are code points, so the surrogate pairs of `💫` and `🌟` are one
 * character each.
 */
module ResultScreen {
  import opened Wrappers
  import opened Text
  import opened JsValue
  import opened AiProvider

  const InnerHeaderEn: string := "✨ Your Inner Journey"
  const PracticeHeaderEn: string := "🌟 Today's Guidance"

  datatype Sections = Sections(main: string, innerJourney: string, spiritualPractice: string, awareness: string)

  /** What ends a section body: the lookahead `(?=━|💫|$)`. */
  predicate IsStop(c: char) {
    c == '━' || c == '💫'
  }

  /** `/^([\s\S]*?)(?=━|$)/`: everything before the first divider character. */
  function UntilRule(s: string): (r: string)
    ensures StartsWith(s, r)
    ensures '━' !in r
    ensures |r| < |s| ==> s[|r|] == '━'
  {
    if s == [] || s[0] == '━' then [] else [s[0]] + UntilRule(s[1..])
  }

  /** `([\s\S]*?)(?=━|💫|$)`: everything before the first divider or awareness marker. */
  function UntilStop(s: string): (r: string)
    ensures StartsWith(s, r)
    ensures '━' !in r && '💫' !in r
  {
    if s == [] || IsStop(s[0]) then [] else [s[0]] + UntilStop(s[1..])
  }

  /** `━+` matched greedily at the front of `s`: what follows the run. */
  function DropRules(s: string): (r: string)
    ensures |r| <= |s| && r == s[|s| - |r|..]
    ensures r == [] || r[0] != '━'
  {
    if s != [] && s[0] == '━' then DropRules(s[1..]) else s
  }

  /** `\n?` matched greedily. */
  function DropNewline(s: string): string {
    if s != [] && s[0] == '\n' then s[1..] else s
  }

  /** `\n*` matched greedily. */
  function DropNewlines(s: string): string {
    if s != [] && s[0] == '\n' then DropNewlines(s[1..]) else s
  }

  /**
   * `\n?H\n?━+` matched right after a run of dividers; `t` does not start
   * with a divider. `H` starts with neither a newline nor a divider, so
   * neither optional newline has a second way to match.
   */
  predicate HeaderAfterRun(t: string, h: string) {
    var u := DropNewline(t);
    StartsWith(u, h) && var v := DropNewline(u[|h|..]); v != [] && v[0] == '━'
  }

  /** The capture group: after the closing dividers and newlines, up to `━`, `💫` or the end. */
  function CaptureAfterRun(t: string, h: string): string
    requires HeaderAfterRun(t, h)
  {
    var v := DropNewline(DropNewline(t)[|h|..]);
    UntilStop(DropNewlines(DropRules(v)))
  }

  predicate HeaderHere(s: string, h: string) {
    s != [] && s[0] == '━' && HeaderAfterRun(DropRules(s), h)
  }

  /** `s.match(/━+\n?H\n?━+\n*([\s\S]*?)(?=━|💫|$)/)`: the capture of the leftmost match. */
  function SectionSearch(s: string, h: string): (r: Option<string>)
    ensures r.Some? ==> '━' !in r.value && '💫' !in r.value
    ensures '━' !in s ==> r.None?
    decreases |s|
  {
    if s == [] then None
    else if HeaderHere(s, h) then Some(CaptureAfterRun(DropRules(s), h))
    else SectionSearch(s[1..], h)
  }

  /**
   * `/💫\s*"?([^"]*)"?\s*$/` tried right after one `💫`: the capture, if the
   * rest of the text can be read as blanks, an optional quote, a quote-free
   * capture, an optional quote and blanks. The alternatives are tried in
   * the engine's order, the longest leading blank run first.
   */
  function AwarenessCapture(r: string): (c: Option<string>)
    ensures c.Some? ==> '"' !in c.value
  {
    var parts := Split(r, '"');
    if |parts| == 1 then
      TrimExcludes(r, '"');
      Some(TrimStart(r))
    else if |parts| == 2 then
      if AllSpace(parts[0]) then Some(parts[1])
      else if AllSpace(parts[1]) then
        TrimExcludes(parts[0], '"');
        Some(TrimStart(parts[0]))
      else None
    else if |parts| == 3 && AllSpace(parts[0]) && AllSpace(parts[2]) then Some(parts[1])
    else None
  }

  /** `s.match(/💫\s*"?([^"]*)"?\s*$/)`: the leftmost `💫` from which the pattern matches. */
  function AwarenessSearch(s: string): (r: Option<string>)
    ensures r.Some? ==> '"' !in r.value
    ensures '💫' !in s ==> r.None?
    decreases |s|
  {
    if s == [] then None
    else if s[0] == '💫' && AwarenessCapture(s[1..]).Some? then AwarenessCapture(s[1..])
    else AwarenessSearch(s[1..])
  }

  /** A section from the Turkish header, else from the English one, trimmed; `''` when neither matches. */
  function SectionText(s: string, header: string, headerEn: string): (r: string)
    ensures Trimmed(r)
    ensures '━' !in s ==> r == ""
  {
    match SectionSearch(s, header)
    case Some(c) => Trim(c)
    case None =>
      match SectionSearch(s, headerEn)
      case Some(c) => Trim(c)
      case None => ""
  }

  function ParseInterpretation(text: string): (r: Sections)
    ensures Trimmed(r.main) && Trimmed(r.innerJourney) && Trimmed(r.spiritualPractice) && Trimmed(r.awareness)
    ensures '━' !in r.main
    ensures '━' !in text ==> r.main == Trim(text) && r.innerJourney == "" && r.spiritualPractice == ""
    ensures '"' !in r.awareness
    ensures '💫' !in text ==> r.awareness == ""
  {
    var before := UntilRule(text);
    var main := Trim(before);
    TrimExcludes(before, '━');
    UntilRuleWhole(text);
    var awareness := (match AwarenessSearch(text)
      case Some(c) => TrimExcludes(c, '"'); Trim(c)
      case None => "");
    Sections(main,
      SectionText(text, InnerHeader, InnerHeaderEn),
      SectionText(text, PracticeHeader, PracticeHeaderEn),
      awareness)
  }

  /** A character absent from a string is absent from its trimmed forms. */
  lemma TrimExcludes(s: string, c: char)
    requires c !in s
    ensures c !in TrimStart(s) && c !in Trim(s)
  {
    var t := TrimStart(s);
    assert t == s[|s| - |t|..];
    assert TrimEnd(t) == t[..|TrimEnd(t)|];
  }

  /** Without a divider the main text is the whole text. */
  lemma UntilRuleWhole(s: string)
    ensures '━' !in s ==> UntilRule(s) == s
  {
    var r := UntilRule(s);
    if |r| < |s| {
      assert s[|r|] in s;
    }
  }

  // ---------------------------------------------------------------------
  // Scanning over the pieces of an enriched text.

  predicate Plain(s: string) {
    '━' !in s && '💫' !in s
  }

  predicate AllRule(s: string) {
    forall i :: 0 <= i < |s| ==> s[i] == '━'
  }

  lemma {:induction false} UntilRulePlain(a: string, b: string)
    requires '━' !in a
    ensures UntilRule(a + b) == a + UntilRule(b)
    decreases |a|
  {
    if a == [] {
      assert a + b == b;
    } else {
      assert (a + b)[0] == a[0];
      assert (a + b)[1..] == a[1..] + b;
      UntilRulePlain(a[1..], b);
      assert a == [a[0]] + a[1..];
    }
  }

  lemma {:induction false} UntilStopPlain(a: string, b: string)
    requires Plain(a)
    ensures UntilStop(a + b) == a + UntilStop(b)
    decreases |a|
  {
    if a == [] {
      assert a + b == b;
    } else {
      assert (a + b)[0] == a[0];
      assert (a + b)[1..] == a[1..] + b;
      UntilStopPlain(a[1..], b);
      assert a == [a[0]] + a[1..];
    }
  }

  lemma {:induction false} DropRulesAll(r: string, t: string)
    requires AllRule(r)
    requires t == [] || t[0] != '━'
    ensures DropRules(r + t) == t
    decreases |r|
  {
    if r == [] {
      assert r + t == t;
    } else {
      assert (r + t)[1..] == r[1..] + t;
      DropRulesAll(r[1..], t);
    }
  }

  lemma UntilStopCons(c: char, s: string)
    requires !IsStop(c)
    ensures UntilStop([c] + s) == [c] + UntilStop(s)
  {
    assert ([c] + s)[1..] == s;
  }

  lemma UntilRuleCons(c: char, s: string)
    requires c != '━'
    ensures UntilRule([c] + s) == [c] + UntilRule(s)
  {
    assert ([c] + s)[1..] == s;
  }

  /** The newlines `\n*` skips are blanks, and no divider or marker. */
  lemma {:induction false} NewlinesPrefix(s: string) returns (p: string)
    ensures AllSpace(p) && Plain(p) && s == p + DropNewlines(s)
    decreases |s|
  {
    if s != [] && s[0] == '\n' {
      var q := NewlinesPrefix(s[1..]);
      p := "\n" + q;
      assert s == [s[0]] + s[1..];
    } else {
      p := "";
      assert s == p + s;
    }
  }

  lemma {:induction false} SectionSkipPlain(a: string, b: string, h: string)
    requires '━' !in a
    ensures SectionSearch(a + b, h) == SectionSearch(b, h)
    decreases |a|
  {
    if a == [] {
      assert a + b == b;
    } else {
      assert (a + b)[0] == a[0];
      assert (a + b)[1..] == a[1..] + b;
      SectionSkipPlain(a[1..], b, h);
    }
  }

  /** No position inside a divider run starts a match when the header does not follow the run. */
  lemma {:induction false} SectionSkipRun(r: string, t: string, h: string)
    requires AllRule(r)
    requires t == [] || t[0] != '━'
    requires !HeaderAfterRun(t, h)
    ensures SectionSearch(r + t, h) == SectionSearch(t, h)
    decreases |r|
  {
    if r == [] {
      assert r + t == t;
    } else {
      DropRulesAll(r, t);
      assert (r + t)[1..] == r[1..] + t;
      SectionSkipRun(r[1..], t, h);
    }
  }

  lemma SectionHitRun(r: string, t: string, h: string)
    requires r != [] && AllRule(r)
    requires t == [] || t[0] != '━'
    requires HeaderAfterRun(t, h)
    ensures SectionSearch(r + t, h) == Some(CaptureAfterRun(t, h))
  {
    DropRulesAll(r, t);
    assert (r + t)[0] == r[0];
  }

  lemma BarFacts()
    ensures |Bar| > 0 && AllRule(Bar) && '💫' !in Bar
  {
  }

  predicate HeaderShape(h: string) {
    h != [] && h[0] != '\n' && '━' !in h && '💫' !in h
  }

  lemma InnerHeaderShapes()
    ensures HeaderShape(InnerHeader) && HeaderShape(InnerHeaderEn)
    ensures InnerHeader[0] == '✨' && InnerHeaderEn[0] == '✨'
  {
    assert HeaderShape(InnerHeader);
  }

  lemma PracticeHeaderShapes()
    ensures HeaderShape(PracticeHeader) && HeaderShape(PracticeHeaderEn)
    ensures PracticeHeader[0] == '🌟' && PracticeHeaderEn[0] == '🌟'
  {
    assert HeaderShape(PracticeHeader);
  }

  /** `Section(header, body)` with the divider run as a parameter. */
  function Framed(bar: string, header: string, body: string): string {
    "\n\n" + bar + "\n" + header + "\n" + bar + "\n\n" + body
  }

  lemma SectionFramed(header: string, body: string)
    ensures Section(header, body) == Framed(Bar, header, body)
  {
  }

  /** The framed section followed by `rest`, one piece at a time from the left. */
  lemma FramedRight(bar: string, h: string, body: string, rest: string)
    ensures Framed(bar, h, body) + rest
      == "\n" + ("\n" + (bar + ("\n" + (h + ("\n" + (bar + ("\n" + ("\n" + (body + rest)))))))))
  {
  }

  lemma FramedSkip(bar: string, h: string, other: string, body: string, rest: string)
    requires bar != [] && AllRule(bar)
    requires HeaderShape(h) && HeaderShape(other) && h[0] != other[0]
    requires '━' !in body
    ensures SectionSearch(Framed(bar, other, body) + rest, h) == SectionSearch(rest, h)
  {
    var t3 := "\n" + (body + rest);
    var t2 := "\n" + t3;
    var t1 := "\n" + (other + ("\n" + (bar + t2)));
    FramedRight(bar, other, body, rest);
    SectionSkipPlain("\n", "\n" + (bar + t1), h);
    SectionSkipPlain("\n", bar + t1, h);
    assert DropNewline(t1)[0] == other[0];
    SectionSkipRun(bar, t1, h);
    SectionSkipPlain("\n", other + ("\n" + (bar + t2)), h);
    SectionSkipPlain(other, "\n" + (bar + t2), h);
    SectionSkipPlain("\n", bar + t2, h);
    assert DropNewline(t2)[0] == '\n';
    SectionSkipRun(bar, t2, h);
    SectionSkipPlain("\n", t3, h);
    SectionSkipPlain("\n", body + rest, h);
    SectionSkipPlain(body, rest, h);
  }

  /** The header of a framed section titled `h` is matched, and the capture starts after the two newlines. */
  lemma FramedMatch(bar: string, h: string, body: string, rest: string)
    requires bar != [] && AllRule(bar)
    requires HeaderShape(h)
    ensures SectionSearch(Framed(bar, h, body) + rest, h)
      == Some(UntilStop(DropNewlines("\n" + ("\n" + (body + rest)))))
  {
    var t2 := "\n" + ("\n" + (body + rest));
    var t1 := "\n" + (h + ("\n" + (bar + t2)));
    FramedRight(bar, h, body, rest);
    SectionSkipPlain("\n", "\n" + (bar + t1), h);
    SectionSkipPlain("\n", bar + t1, h);
    var u := DropNewline(t1);
    assert u == h + ("\n" + (bar + t2));
    assert u[..|h|] == h;
    assert u[|h|..] == "\n" + (bar + t2);
    assert DropNewline(u[|h|..]) == bar + t2;
    SectionHitRun(bar, t1, h);
    DropRulesAll(bar, t2);
  }

  /** Before the blanks of `rest`, the capture after the section's newlines is the body. */
  lemma CaptureUntilStop(body: string, rest: string)
    requires Plain(body)
    ensures UntilStop("\n" + ("\n" + (body + rest))) == "\n" + ("\n" + (body + UntilStop(rest)))
  {
    UntilStopCons('\n', "\n" + (body + rest));
    UntilStopCons('\n', body + rest);
    UntilStopPlain(body, rest);
  }

  /** The capture, with the newlines `\n*` skipped or not, trims to the trimmed body. */
  lemma CaptureTrim(body: string, rest: string)
    requires Plain(body)
    requires AllSpace(UntilStop(rest))
    ensures Trim(UntilStop(DropNewlines("\n" + ("\n" + (body + rest))))) == Trim(body)
  {
    var t := "\n" + ("\n" + (body + rest));
    var d := DropNewlines(t);
    var p := NewlinesPrefix(t);
    UntilStopPlain(p, d);
    TrimPrependSpaces(p, UntilStop(d));
    CaptureUntilStop(body, rest);
    var tailCapture := UntilStop(rest);
    TrimPrependSpaces("\n", "\n" + (body + tailCapture));
    TrimPrependSpaces("\n", body + tailCapture);
    TrimAppendSpaces(body, tailCapture);
  }

  lemma FramedFound(bar: string, h: string, body: string, rest: string)
    requires bar != [] && AllRule(bar)
    requires HeaderShape(h) && Plain(body)
    requires AllSpace(UntilStop(rest))
    ensures SectionSearch(Framed(bar, h, body) + rest, h).Some?
    ensures Trim(SectionSearch(Framed(bar, h, body) + rest, h).value) == Trim(body)
  {
    FramedMatch(bar, h, body, rest);
    CaptureTrim(body, rest);
  }

  /** The main text of a text continuing with a framed section stops at its first divider. */
  lemma UntilRuleFramed(bar: string, h: string, body: string, rest: string)
    requires bar != [] && AllRule(bar)
    ensures UntilRule(Framed(bar, h, body) + rest) == "\n\n"
  {
    var x := bar + ("\n" + (h + ("\n" + (bar + ("\n" + ("\n" + (body + rest)))))));
    FramedRight(bar, h, body, rest);
    UntilRuleCons('\n', "\n" + x);
    UntilRuleCons('\n', x);
    assert UntilRule(x) == [];
  }

  /** A section titled `other` is passed over by the search for a header with another first character. */
  lemma SectionSkipSection(h: string, other: string, body: string, rest: string)
    requires HeaderShape(h) && HeaderShape(other) && h[0] != other[0]
    requires '━' !in body
    ensures SectionSearch(Section(other, body) + rest, h) == SectionSearch(rest, h)
  {
    BarFacts();
    SectionFramed(other, body);
    FramedSkip(Bar, h, other, body, rest);
  }

  /** A section titled `h` is found by the search for `h`, and its capture trims to the trimmed body. */
  lemma SectionFound(h: string, body: string, rest: string)
    requires HeaderShape(h) && Plain(body)
    requires AllSpace(UntilStop(rest))
    ensures SectionSearch(Section(h, body) + rest, h).Some?
    ensures Trim(SectionSearch(Section(h, body) + rest, h).value) == Trim(body)
  {
    BarFacts();
    SectionFramed(h, body);
    FramedFound(Bar, h, body, rest);
  }

  lemma {:induction false} AwarenessSkipPlain(a: string, b: string)
    requires '💫' !in a
    ensures AwarenessSearch(a + b) == AwarenessSearch(b)
    decreases |a|
  {
    if a == [] {
      assert a + b == b;
    } else {
      assert (a + b)[0] == a[0];
      assert (a + b)[1..] == a[1..] + b;
      AwarenessSkipPlain(a[1..], b);
    }
  }

  /** The quoted message after the marker is captured exactly. */
  lemma AwarenessQuoted(m: string)
    requires '"' !in m
    ensures AwarenessCapture(" \"" + m + "\"") == Some(m)
  {
    var r := " \"" + m + "\"";
    assert r[1] == '"' && r[0] != '"';
    assert IndexOfChar(r, '"') == 1;
    assert r[..1] == " " && r[2..] == m + "\"";
    var q := m + "\"";
    var k := IndexOfChar(q, '"');
    assert q[|m|] == '"' && q[..|m|] == m;
    assert k == |m|;
    assert q[..k] == m && q[k + 1..] == "";
    assert Split(r, '"') == [" "] + Split(q, '"');
    assert Split(q, '"') == [m] + Split("", '"');
    assert Split(r, '"') == [" ", m, ""];
  }

  /** The awareness line, one piece at a time from the left. */
  lemma AwarenessLineRight(m: string)
    ensures AwarenessLine(m) == "\n" + ("\n" + ("💫" + (" \"" + m + "\"")))
  {
  }

  lemma AwarenessFound(prefix: string, m: string)
    requires '💫' !in prefix && '"' !in m
    ensures AwarenessSearch(prefix + AwarenessLine(m)) == Some(m)
  {
    var tail := " \"" + m + "\"";
    AwarenessLineRight(m);
    AwarenessSkipPlain(prefix, AwarenessLine(m));
    AwarenessSkipPlain("\n", "\n" + ("💫" + tail));
    AwarenessSkipPlain("\n", "💫" + tail);
    AwarenessQuoted(m);
    assert ("💫" + tail)[1..] == tail;
  }

  // ---------------------------------------------------------------------
  // The round trip against the enrichment of a Gemini reply.

  /** The enriched text of a reply whose four fields are strings, built as `Enriched` builds it. */
  function EnrichedText(base: string, inner: string, practice: string, awareness: string): string {
    var b := if base == "" then DefaultInterpretation else base;
    var s1 := if inner != "" then b + Section(InnerHeader, inner) else b;
    var s2 := if practice != "" then s1 + Section(PracticeHeader, practice) else s1;
    if awareness != "" then s2 + AwarenessLine(awareness) else s2
  }

  /** `Enriched` of a reply whose four fields are strings is exactly `EnrichedText`. */
  lemma EnrichedIsText(parsed: Value, base: string, inner: string, practice: string, awareness: string)
    requires parsed.Obj?
    requires parsed.fields == map[
      "interpretation" := Str(base), "inner_journey" := Str(inner),
      "spiritual_practice" := Str(practice), "awareness_message" := Str(awareness)]
    ensures Enriched(parsed) == Str(EnrichedText(base, inner, practice, awareness))
  {
    assert Prop(parsed, "interpretation") == Some(Str(base));
    assert Prop(parsed, "inner_journey") == Some(Str(inner));
    assert Prop(parsed, "spiritual_practice") == Some(Str(practice));
    assert Prop(parsed, "awareness_message") == Some(Str(awareness));
  }

  function AwarenessTail(awareness: string): string {
    if awareness != "" then AwarenessLine(awareness) else ""
  }

  function PracticeTail(practice: string, awareness: string): string {
    if practice != "" then Section(PracticeHeader, practice) + AwarenessTail(awareness) else AwarenessTail(awareness)
  }

  function SectionsTail(inner: string, practice: string, awareness: string): string {
    if inner != "" then Section(InnerHeader, inner) + PracticeTail(practice, awareness)
    else PracticeTail(practice, awareness)
  }

  lemma Assoc(x: string, y: string, z: string)
    ensures x + y + z == x + (y + z)
  {
  }

  /** The enriched text is the interpretation followed by what the sections add. */
  lemma EnrichedSplit(base: string, inner: string, practice: string, awareness: string)
    ensures EnrichedText(base, inner, practice, awareness)
      == (if base == "" then DefaultInterpretation else base) + SectionsTail(inner, practice, awareness)
  {
    var b := if base == "" then DefaultInterpretation else base;
    var i := if inner != "" then Section(InnerHeader, inner) else "";
    var p := if practice != "" then Section(PracticeHeader, practice) else "";
    var a := AwarenessTail(awareness);
    assert b + "" == b && i + "" == i && p + "" == p && "" + a == a && "" + p == p;
    Assoc(b, i, p);
    Assoc(b + i, p, a);
    Assoc(b, i + p, a);
    Assoc(i, p, a);
    if inner != "" && practice != "" {
      assert SectionsTail(inner, practice, awareness) == i + (p + a);
    } else if inner != "" {
      assert SectionsTail(inner, practice, awareness) == i + a;
    } else if practice != "" {
      assert SectionsTail(inner, practice, awareness) == p + a;
    }
  }

  /** Two newlines followed by a stop character end a capture after those newlines. */
  lemma UntilStopNewlines(x: string)
    requires x != [] && IsStop(x[0])
    ensures UntilStop("\n" + ("\n" + x)) == "\n\n"
  {
  }

  /** What follows a section, more sections and the awareness line or nothing, adds only blanks to a capture. */
  lemma PracticeTailStops(practice: string, awareness: string)
    ensures AllSpace(UntilStop(PracticeTail(practice, awareness)))
  {
    BarFacts();
    if practice != "" {
      SectionFramed(PracticeHeader, practice);
      FramedRight(Bar, PracticeHeader, practice, AwarenessTail(awareness));
      UntilStopNewlines(Bar + ("\n" + (PracticeHeader + ("\n" + (Bar + ("\n" + ("\n"
        + (practice + AwarenessTail(awareness)))))))));
    } else if awareness != "" {
      AwarenessLineRight(awareness);
      UntilStopNewlines("💫" + (" \"" + awareness + "\""));
    }
  }

  /** The pieces of an enriched text, named once for the lemmas below. */
  predicate Pieces(base: string, inner: string, practice: string, awareness: string) {
    Plain(base) && Plain(inner) && Plain(practice) && '━' !in awareness && '"' !in awareness
  }

  lemma MainOfEnriched(base: string, inner: string, practice: string, awareness: string)
    requires Pieces(base, inner, practice, awareness)
    requires inner != "" || practice != ""
    ensures Trim(UntilRule(EnrichedText(base, inner, practice, awareness)))
      == Trim(if base == "" then DefaultInterpretation else base)
  {
    BarFacts();
    var b := if base == "" then DefaultInterpretation else base;
    assert Plain(DefaultInterpretation);
    EnrichedSplit(base, inner, practice, awareness);
    var h := if inner != "" then InnerHeader else PracticeHeader;
    var body := if inner != "" then inner else practice;
    var rest := if inner != "" then PracticeTail(practice, awareness) else AwarenessTail(awareness);
    assert SectionsTail(inner, practice, awareness) == Section(h, body) + rest;
    SectionFramed(h, body);
    UntilRuleFramed(Bar, h, body, rest);
    UntilRulePlain(b, Section(h, body) + rest);
    TrimAppendSpaces(b, "\n\n");
  }

  lemma InnerOfEnriched(base: string, inner: string, practice: string, awareness: string)
    requires Pieces(base, inner, practice, awareness)
    requires inner != "" || practice != ""
    ensures SectionText(EnrichedText(base, inner, practice, awareness), InnerHeader, InnerHeaderEn) == Trim(inner)
  {
    InnerHeaderShapes();
    PracticeHeaderShapes();
    var b := if base == "" then DefaultInterpretation else base;
    assert Plain(DefaultInterpretation);
    EnrichedSplit(base, inner, practice, awareness);
    var tail := SectionsTail(inner, practice, awareness);
    var a := AwarenessTail(awareness);
    SectionSkipPlain(b, tail, InnerHeader);
    if inner != "" {
      PracticeTailStops(practice, awareness);
      SectionFound(InnerHeader, inner, PracticeTail(practice, awareness));
    } else {
      assert tail == Section(PracticeHeader, practice) + a;
      assert a == a + [];
      assert '━' !in a;
      SectionSkipSection(InnerHeader, PracticeHeader, practice, a);
      SectionSkipPlain(a, [], InnerHeader);
      SectionSkipPlain(b, tail, InnerHeaderEn);
      SectionSkipSection(InnerHeaderEn, PracticeHeader, practice, a);
      SectionSkipPlain(a, [], InnerHeaderEn);
    }
  }

  lemma PracticeOfEnriched(base: string, inner: string, practice: string, awareness: string)
    requires Pieces(base, inner, practice, awareness)
    requires inner != "" || practice != ""
    ensures SectionText(EnrichedText(base, inner, practice, awareness), PracticeHeader, PracticeHeaderEn)
      == Trim(practice)
  {
    InnerHeaderShapes();
    PracticeHeaderShapes();
    var b := if base == "" then DefaultInterpretation else base;
    assert Plain(DefaultInterpretation);
    EnrichedSplit(base, inner, practice, awareness);
    var tail := SectionsTail(inner, practice, awareness);
    var after := PracticeTail(practice, awareness);
    var a := AwarenessTail(awareness);
    assert '━' !in a;
    SectionSkipPlain(b, tail, PracticeHeader);
    SectionSkipPlain(b, tail, PracticeHeaderEn);
    if inner != "" {
      SectionSkipSection(PracticeHeader, InnerHeader, inner, after);
      SectionSkipSection(PracticeHeaderEn, InnerHeader, inner, after);
    }
    if practice != "" {
      PracticeTailStops("", awareness);
      SectionFound(PracticeHeader, practice, a);
    } else {
      assert after == a + [];
      SectionSkipPlain(a, [], PracticeHeader);
      SectionSkipPlain(a, [], PracticeHeaderEn);
    }
  }

  lemma AwarenessOfEnriched(base: string, inner: string, practice: string, awareness: string)
    requires Pieces(base, inner, practice, awareness)
    ensures AwarenessSearch(EnrichedText(base, inner, practice, awareness))
      == if awareness != "" then Some(awareness) else None
  {
    BarFacts();
    InnerHeaderShapes();
    PracticeHeaderShapes();
    var b := if base == "" then DefaultInterpretation else base;
    assert Plain(DefaultInterpretation);
    var s1 := if inner != "" then b + Section(InnerHeader, inner) else b;
    var s2 := if practice != "" then s1 + Section(PracticeHeader, practice) else s1;
    assert '💫' !in s1;
    assert '💫' !in s2;
    if awareness != "" {
      AwarenessFound(s2, awareness);
    }
  }

  /**
   * Parsing a text enriched with at least one section gives back the
   * trimmed interpretation (or its default), both sections and the
   * awareness message.
   */
  lemma ParseEnrichedRoundTrip(base: string, inner: string, practice: string, awareness: string)
    requires Pieces(base, inner, practice, awareness)
    requires inner != "" || practice != ""
    ensures ParseInterpretation(EnrichedText(base, inner, practice, awareness)) == Sections(
      Trim(if base == "" then DefaultInterpretation else base), Trim(inner), Trim(practice), Trim(awareness))
  {
    MainOfEnriched(base, inner, practice, awareness);
    InnerOfEnriched(base, inner, practice, awareness);
    PracticeOfEnriched(base, inner, practice, awareness);
    AwarenessOfEnriched(base, inner, practice, awareness);
  }

  /**
   * Without a section the main text runs to the end, so it still holds the
   * awareness line that is also returned on its own.
   */
  lemma ParseWithoutSections(base: string, awareness: string)
    requires Pieces(base, "", "", awareness)
    ensures var b := if base == "" then DefaultInterpretation else base;
      ParseInterpretation(EnrichedText(base, "", "", awareness)) == Sections(
        Trim(b + AwarenessTail(awareness)), "", "", Trim(awareness))
  {
    AwarenessOfEnriched(base, "", "", awareness);
    assert Plain(DefaultInterpretation);
    var b := if base == "" then DefaultInterpretation else base;
    var text := EnrichedText(base, "", "", awareness);
    assert text == b + AwarenessTail(awareness);
    assert '━' !in text;
  }
}
