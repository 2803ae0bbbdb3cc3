/**
 * The pure helpers of the speech-to-text service: the audio file checks
 * made before a recording is sent for transcription, and the clean-up of
 * the transcribed text.
 */
module Whisper {
  import opened Wrappers
  import opened Text

  // ---------------------------------------------------------------------
  // Audio file checks

  const ValidExtensions: seq<string> := [".mp3", ".mp4", ".mpeg", ".mpga", ".m4a", ".wav", ".webm"]

  /** 25 MB. */
  const MaxAudioSize: int := 25 * 1024 * 1024

  function LastIndexOf(s: string, c: char): (r: Option<nat>)
    ensures r.Some? ==> r.value < |s| && s[r.value] == c && c !in s[r.value + 1..]
    ensures r.None? ==> c !in s
  {
    if s == [] then None
    else if s[|s| - 1] == c then Some(|s| - 1)
    else
      var r := LastIndexOf(s[..|s| - 1], c);
      assert s == s[..|s| - 1] + [s[|s| - 1]];
      if r.Some? then
        assert s[r.value + 1..] == s[..|s| - 1][r.value + 1..] + [s[|s| - 1]];
        r
      else r
  }

  /** The last path segment, trailing `/` ignored. */
  function BaseName(path: string): (b: string)
    ensures '/' !in b
  {
    var p := TrimTrailingSlashes(path);
    match LastIndexOf(p, '/')
    case None => p
    case Some(i) => p[i + 1..]
  }

  function TrimTrailingSlashes(s: string): (r: string)
    ensures r == [] || r[|r| - 1] != '/'
  {
    if s != [] && s[|s| - 1] == '/' then TrimTrailingSlashes(s[..|s| - 1]) else s
  }

  /**
   * `path.extname` (POSIX): from the last `.` of the last segment to its
   * end; empty when the segment has no `.`, starts with its only `.`-led
   * part (a hidden file such as `.wav`), or is `..`.
   */
  function ExtName(path: string): (r: string)
    ensures r == [] || r[0] == '.'
    ensures '/' !in r
  {
    var b := BaseName(path);
    match LastIndexOf(b, '.')
    case None => ""
    case Some(d) =>
      if d == 0 || b == ".." then "" else b[d..]
  }

  /** `validateAudioFormat`: the lower-cased extension is one of the seven accepted. */
  function ValidateAudioFormat(filename: string): (ok: bool)
    ensures ExtName(filename) == "" ==> !ok
  {
    Lower(ExtName(filename)) in ValidExtensions
  }

  /** `validateAudioSize`. */
  function ValidateAudioSize(fileSize: int): (ok: bool)
    ensures ok <==> fileSize <= 26214400
  {
    fileSize <= MaxAudioSize
  }

  lemma LastIndexAt(s: string, c: char, k: int)
    requires 0 <= k < |s| && s[k] == c
    requires forall j :: k < j < |s| ==> s[j] != c
    ensures LastIndexOf(s, c) == Some(k)
  {
    assert s[k] in s;
    var r := LastIndexOf(s, c);
    forall j | r.value < j < |s|
      ensures s[j] != c
    {
      assert s[j] == s[r.value + 1..][j - r.value - 1];
    }
  }

  /** An extension shape: a leading `.`, then no further `.` and no `/`. */
  predicate ExtensionShape(e: string) {
    e != [] && e[0] == '.' && forall i :: 1 <= i < |e| ==> e[i] != '.' && e[i] != '/'
  }

  /** After a plain stem, the extension is exactly the suffix. */
  lemma ExtNameOfStem(stem: string, e: string)
    requires stem != [] && forall i :: 0 <= i < |stem| ==> stem[i] != '.' && stem[i] != '/'
    requires ExtensionShape(e)
    ensures ExtName(stem + e) == e
  {
    var s := stem + e;
    assert forall j :: 0 <= j < |s| ==> s[j] != '/' by {
      forall j | 0 <= j < |s| ensures s[j] != '/' {
        if j >= |stem| { assert s[j] == e[j - |stem|]; }
      }
    }
    assert '/' !in s;
    assert TrimTrailingSlashes(s) == s;
    assert BaseName(s) == s;
    forall j | |stem| < j < |s|
      ensures s[j] != '.'
    {
      assert s[j] == e[j - |stem|];
    }
    LastIndexAt(s, '.', |stem|);
    assert s[0] != '.';
    assert s[|stem|..] == e;
  }

  predicate ExtensionChar(c: char) {
    'a' <= c <= 'z' || '0' <= c <= '9' || c == '.'
  }

  lemma ValidExtensionsShape(ext: string)
    requires ext in ValidExtensions
    ensures ExtensionShape(ext)
    ensures forall i :: 0 <= i < |ext| ==> ExtensionChar(ext[i])
  {
  }

  /** A plain file name with an accepted extension, in lower or upper case, is accepted. */
  lemma AcceptsNamedFile(stem: string, ext: string)
    requires stem != [] && forall i :: 0 <= i < |stem| ==> stem[i] != '.' && stem[i] != '/'
    requires ext in ValidExtensions
    ensures ValidateAudioFormat(stem + ext)
    ensures ValidateAudioFormat(stem + Upper(ext))
  {
    ValidExtensionsShape(ext);
    ExtNameOfStem(stem, ext);
    var u := Upper(ext);
    forall i | 0 <= i < |ext|
      ensures LowerChar(ext[i]) == ext[i] && LowerChar(u[i]) == ext[i]
      ensures (u[i] == '.' <==> ext[i] == '.') && u[i] != '/'
    {
      ExtensionCharCase(ext[i]);
    }
    assert Lower(ext) == ext;
    assert ExtensionShape(u);
    ExtNameOfStem(stem, u);
    assert Lower(u) == ext;
  }

  lemma ExtensionCharCase(c: char)
    requires ExtensionChar(c)
    ensures LowerChar(c) == c && LowerChar(UpperChar(c)) == c
    ensures (UpperChar(c) == '.' <==> c == '.') && UpperChar(c) != '/'
  {
  }

  /** A hidden file such as `.wav` has no extension and is refused. */
  lemma HiddenFileRefused(ext: string)
    requires ext in ValidExtensions
    ensures !ValidateAudioFormat(ext)
  {
    ValidExtensionsShape(ext);
    assert '/' !in ext by {
      forall i | 0 <= i < |ext| ensures ext[i] != '/' {
      }
    }
    assert TrimTrailingSlashes(ext) == ext;
    assert BaseName(ext) == ext;
    LastIndexAt(ext, '.', 0);
    assert ExtName(ext) == "";
    assert Lower("") == "";
  }

  // ---------------------------------------------------------------------
  // Transcription clean-up

  /** `.replace(/\s+/g, ' ')`: every run of white space becomes one space. */
  function CollapseSpaces(s: string): (r: string)
    ensures PlainSpaces(r) && NoDoubleSpace(r)
    ensures r == [] <==> s == []
    ensures s != [] && !IsSpace(s[0]) ==> r[0] == s[0]
    ensures s != [] && !IsSpace(s[|s| - 1]) ==> r[|r| - 1] == s[|s| - 1]
    ensures s != [] && IsSpace(s[0]) ==> r[0] == ' '
    ensures forall c :: c in r && c != ' ' ==> c in s
    decreases |s|
  {
    if s == [] then []
    else if IsSpace(s[0]) then
      var t := TrimStart(s[1..]);
      var rest := CollapseSpaces(t);
      assert t != [] ==> t[|t| - 1] == s[|s| - 1];
      assert forall c :: c in t ==> c in s;
      ConsSpaces(' ', rest);
      [' '] + rest
    else
      var rest := CollapseSpaces(s[1..]);
      assert forall c :: c in s[1..] ==> c in s;
      ConsSpaces(s[0], rest);
      [s[0]] + rest
  }

  /** One more character in front keeps spaces single and plain, when it is not a second space. */
  lemma ConsSpaces(h: char, rest: string)
    requires PlainSpaces(rest) && NoDoubleSpace(rest)
    requires IsSpace(h) ==> h == ' ' && (rest == [] || !IsSpace(rest[0]))
    ensures PlainSpaces([h] + rest) && NoDoubleSpace([h] + rest)
  {
    var r := [h] + rest;
    assert forall i :: 1 <= i < |r| ==> r[i] == rest[i - 1];
  }

  predicate NoDoubleSpace(s: string) {
    forall i :: 0 <= i < |s| - 1 ==> !(IsSpace(s[i]) && IsSpace(s[i + 1]))
  }

  predicate PlainSpaces(s: string) {
    forall i :: 0 <= i < |s| && IsSpace(s[i]) ==> s[i] == ' '
  }

  predicate IsPunct(c: char) {
    c == '.' || c == ',' || c == '!' || c == '?'
  }

  predicate NoSpaceBeforePunct(s: string) {
    forall i :: 0 <= i < |s| - 1 ==> !(IsSpace(s[i]) && IsPunct(s[i + 1]))
  }

  /** Collapsing is the identity on text whose spaces are single plain spaces. */
  lemma {:induction false} CollapseOfCollapsed(s: string)
    requires PlainSpaces(s) && NoDoubleSpace(s)
    ensures CollapseSpaces(s) == s
    decreases |s|
  {
    if s != [] {
      var t := s[1..];
      assert PlainSpaces(t) && NoDoubleSpace(t) by {
        assert forall i :: 0 <= i < |t| ==> t[i] == s[i + 1];
      }
      CollapseOfCollapsed(t);
      if IsSpace(s[0]) {
        assert t == [] || !IsSpace(t[0]);
        assert TrimStart(t) == t;
        assert CollapseSpaces(s) == [' '] + CollapseSpaces(t);
      } else {
        assert CollapseSpaces(s) == [s[0]] + CollapseSpaces(t);
      }
      assert s == [s[0]] + t;
    }
  }

  /** `.replace(/\s([.,!?])/g, '$1')`: a white space right before a punctuation mark is dropped. */
  function DropSpaceBeforePunct(s: string): (r: string)
    ensures forall c :: c in r ==> c in s
    ensures s != [] && !IsSpace(s[0]) ==> r != [] && r[0] == s[0]
    ensures s != [] && !IsSpace(s[|s| - 1]) ==> r != [] && r[|r| - 1] == s[|s| - 1]
    ensures NoDoubleSpace(s) ==> NoDoubleSpace(r) && NoSpaceBeforePunct(r)
    decreases |s|
  {
    if |s| >= 2 && IsSpace(s[0]) && IsPunct(s[1]) then
      var rest := DropSpaceBeforePunct(s[2..]);
      assert forall c :: c in s[2..] ==> c in s;
      assert NoDoubleSpace(s) ==> NoDoubleSpace(s[2..]);
      assert NoDoubleSpace(s) ==> NoDoubleSpace([s[1]] + rest) && NoSpaceBeforePunct([s[1]] + rest) by {
        if NoDoubleSpace(s) {
          ConsNoGap(s[1], rest);
        }
      }
      [s[1]] + rest
    else if s == [] then []
    else
      var rest := DropSpaceBeforePunct(s[1..]);
      assert forall c :: c in s[1..] ==> c in s;
      assert NoDoubleSpace(s) ==> NoDoubleSpace(s[1..]);
      assert NoDoubleSpace(s) ==> NoDoubleSpace([s[0]] + rest) && NoSpaceBeforePunct([s[0]] + rest) by {
        if NoDoubleSpace(s) {
          if |s| == 1 {
            assert rest == [];
          }
          ConsNoGap(s[0], rest);
        }
      }
      [s[0]] + rest
  }

  /** A character in front keeps the text free of double spaces and of spaces before punctuation. */
  lemma ConsNoGap(h: char, rest: string)
    requires NoDoubleSpace(rest) && NoSpaceBeforePunct(rest)
    requires IsSpace(h) ==> rest == [] || (!IsSpace(rest[0]) && !IsPunct(rest[0]))
    ensures NoDoubleSpace([h] + rest) && NoSpaceBeforePunct([h] + rest)
  {
    var r := [h] + rest;
    assert forall i :: 1 <= i < |r| ==> r[i] == rest[i - 1];
  }

  lemma {:induction false} DropOfDropped(s: string)
    requires NoSpaceBeforePunct(s)
    ensures DropSpaceBeforePunct(s) == s
    decreases |s|
  {
    if s != [] {
      DropKeeps(s);
      DropOfDropped(s[1..]);
    }
  }

  /** Text without a space before punctuation keeps its first character, and so does its tail. */
  lemma DropKeeps(s: string)
    requires s != [] && NoSpaceBeforePunct(s)
    ensures DropSpaceBeforePunct(s) == [s[0]] + DropSpaceBeforePunct(s[1..])
    ensures NoSpaceBeforePunct(s[1..])
  {
    assert |s| >= 2 ==> !(IsSpace(s[0]) && IsPunct(s[1]));
    var t := s[1..];
    forall i | 0 <= i < |t| - 1
      ensures !(IsSpace(t[i]) && IsPunct(t[i + 1]))
    {
      assert t[i] == s[i + 1] && t[i + 1] == s[i + 2];
    }
  }

  /** The letters `[a-zçğıöşü]` the first character may be. */
  predicate LowerInitial(c: char) {
    'a' <= c <= 'z' || c == 'ç' || c == 'ğ' || c == 'ı' || c == 'ö' || c == 'ş' || c == 'ü'
  }

  /** `.replace(/^[a-zçğıöşü]/, c => c.toUpperCase())`. */
  function CapitalizeFirst(s: string): (r: string)
    ensures |r| == |s|
    ensures s != [] ==> r[1..] == s[1..]
    ensures s != [] && LowerInitial(s[0]) ==> r[0] == UpperChar(s[0])
    ensures s != [] && !LowerInitial(s[0]) ==> r[0] == s[0]
  {
    if s != [] && LowerInitial(s[0]) then [UpperChar(s[0])] + s[1..] else s
  }

  /**
   * `cleanTranscription`. The cleaned text has no leading or trailing white
   * space, only single plain spaces, no space before `.`, `,`, `!` or `?`,
   * and does not start with a lower-case letter of `[a-zçğıöşü]`.
   */
  function CleanTranscription(text: string): (r: string)
    ensures Trimmed(r)
    ensures PlainSpaces(r) && NoDoubleSpace(r)
    ensures NoSpaceBeforePunct(r)
    ensures r == [] || !LowerInitial(r[0])
  {
    var d := DropSpaceBeforePunct(CollapseSpaces(Trim(text)));
    DroppedShape(text);
    CapitalizeShape(d);
    CapitalizeFirst(d)
  }

  /** Trimming, collapsing and dropping leave text that capitalising keeps clean. */
  lemma DroppedShape(text: string)
    ensures var d := DropSpaceBeforePunct(CollapseSpaces(Trim(text)));
      Trimmed(d) && PlainSpaces(d) && NoDoubleSpace(d) && NoSpaceBeforePunct(d)
  {
    var t := Trim(text);
    var c := CollapseSpaces(t);
    var d := DropSpaceBeforePunct(c);
    assert Trimmed(c) by {
      if c != [] {
        assert !IsSpace(c[0]) && !IsSpace(c[|c| - 1]);
      }
    }
    assert Trimmed(d) by {
      if d != [] {
        assert !IsSpace(d[0]) && !IsSpace(d[|d| - 1]);
      }
    }
    PlainSubset(c, d);
  }

  /** Characters taken from text with plain spaces only have plain spaces only. */
  lemma PlainSubset(c: string, d: string)
    requires PlainSpaces(c)
    requires forall x :: x in d ==> x in c
    ensures PlainSpaces(d)
  {
    forall i | 0 <= i < |d| && IsSpace(d[i]) ensures d[i] == ' ' {
      assert d[i] in c;
    }
  }

  /** An upper-cased initial is a letter that no longer needs capitalising. */
  lemma UpperInitial(x: char)
    requires LowerInitial(x)
    ensures !IsSpace(UpperChar(x)) && !IsPunct(UpperChar(x)) && !LowerInitial(UpperChar(x))
  {
  }

  /** Capitalising the first letter keeps the shape of already cleaned text. */
  lemma CapitalizeShape(d: string)
    requires Trimmed(d) && PlainSpaces(d) && NoDoubleSpace(d) && NoSpaceBeforePunct(d)
    ensures var r := CapitalizeFirst(d);
      && Trimmed(r) && PlainSpaces(r) && NoDoubleSpace(r) && NoSpaceBeforePunct(r)
      && (r == [] || !LowerInitial(r[0]))
  {
    if d != [] && LowerInitial(d[0]) {
      UpperInitial(d[0]);
      ReplaceFirst(d, UpperChar(d[0]));
      assert CapitalizeFirst(d) == [UpperChar(d[0])] + d[1..];
    }
  }

  /** Replacing the first character of cleaned text by a non-space keeps it cleaned. */
  lemma ReplaceFirst(d: string, x: char)
    requires d != [] && !IsSpace(x)
    requires Trimmed(d) && PlainSpaces(d) && NoDoubleSpace(d) && NoSpaceBeforePunct(d)
    ensures var r := [x] + d[1..];
      Trimmed(r) && PlainSpaces(r) && NoDoubleSpace(r) && NoSpaceBeforePunct(r)
  {
    var r := [x] + d[1..];
    assert forall i :: 1 <= i < |r| ==> r[i] == d[i];
    assert Trimmed(r) by {
      if |r| > 1 {
        assert r[|r| - 1] == d[|d| - 1];
      }
    }
    forall i | 0 <= i < |r| - 1
      ensures !(IsSpace(r[i]) && IsSpace(r[i + 1])) && !(IsSpace(r[i]) && IsPunct(r[i + 1]))
    {
      if i > 0 {
        assert r[i] == d[i] && r[i + 1] == d[i + 1];
      }
    }
  }

  /** Cleaning twice is cleaning once. */
  lemma CleanIdempotent(text: string)
    ensures CleanTranscription(CleanTranscription(text)) == CleanTranscription(text)
  {
    var r := CleanTranscription(text);
    TrimOfTrimmed(r);
    CollapseOfCollapsed(r);
    DropOfDropped(r);
  }
}
