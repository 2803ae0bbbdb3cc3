/**
 * The profile screen's pure parts: the avatar colours chosen from the name,
 * the initials, splitting the name for the edit form and joining it on
 * save, and the three numbers of `loadStats`.
 */
module ProfileScreen {
  import opened Wrappers
  import opened Text
  import opened Sequences
  import opened StatsScreen
  import JsValue
  import Server

  /** The signed-in user as the screen reads it; every field may be missing. */
  datatype Profile = Profile(firstName: Option<string>, lastName: Option<string>, name: Option<string>, email: Option<string>)

  /** What `handleSaveProfile` passes to `updateProfile`. */
  datatype ProfileUpdate = ProfileUpdate(name: string, firstName: string, lastName: string)

  datatype ProfileStats = ProfileStats(totalDreams: int, avgEnergy: int, weeklyDreams: int)

  /** The eight colour pairs of the avatar. */
  const Gradients: seq<(string, string)> := [
    ("#9B30FF", "#7B2CBF"), ("#0EA5E9", "#1E40AF"), ("#10B981", "#064E3B"), ("#F59E0B", "#B91C1C"),
    ("#312E81", "#1E1B4B"), ("#EC4899", "#BE185D"), ("#8B5CF6", "#6D28D9"), ("#14B8A6", "#0D9488")]

  /** A string field that is present and not empty: the test of `a && …` and `a || …`. */
  predicate Filled(s: Option<string>) {
    s.Some? && s.value != ""
  }

  /**
   * The `charCodeAt` values `split('')` gives for one code point: itself
   * below U+10000, otherwise its two UTF-16 surrogates.
   */
  function CodeUnits(c: char): (n: nat)
    ensures c as int < 0x1_0000 ==> n == c as int
    ensures c as int >= 0x1_0000 ==> 0xD800 + 0xDC00 <= n <= 0xDBFF + 0xDFFF
  {
    var v := c as int;
    if v < 0x1_0000 then v
    else (0xD800 + (v - 0x1_0000) / 0x400) + (0xDC00 + (v - 0x1_0000) % 0x400)
  }

  /** `text.split('').reduce((acc, char) => acc + char.charCodeAt(0), 0)`. */
  function CodeSum(s: string): nat {
    if s == [] then 0 else CodeUnits(s[0]) + CodeSum(s[1..])
  }

  /** `name || email || 'DG'`. */
  function AvatarText(name: Option<string>, email: Option<string>): (t: string)
    ensures t != ""
    ensures Filled(name) ==> t == name.value
    ensures !Filled(name) && Filled(email) ==> t == email.value
    ensures !Filled(name) && !Filled(email) ==> t == "DG"
  {
    if Filled(name) then name.value else if Filled(email) then email.value else "DG"
  }

  /** `gradients[hash % gradients.length]`. */
  function GradientFor(text: string): (g: (string, string))
    ensures g in Gradients
  {
    Gradients[CodeSum(text) % |Gradients|]
  }

  function AvatarGradient(name: Option<string>, email: Option<string>): (g: (string, string))
    ensures g in Gradients
    ensures g == GradientFor(AvatarText(name, email))
  {
    GradientFor(AvatarText(name, email))
  }

  lemma {:induction false} CodeSumAppend(a: string, b: string)
    ensures CodeSum(a + b) == CodeSum(a) + CodeSum(b)
    decreases |a|
  {
    if a == [] {
      assert a + b == b;
    } else {
      assert (a + b)[1..] == a[1..] + b;
      CodeSumAppend(a[1..], b);
    }
  }

  /** The hash adds up the characters, so it does not depend on their order. */
  lemma {:induction false} CodeSumPermutation(a: string, b: string)
    requires multiset(a) == multiset(b)
    ensures CodeSum(a) == CodeSum(b)
    decreases |a|
  {
    if a == [] {
      assert |b| == |multiset(b)| == 0;
    } else {
      var x := a[0];
      assert a == [x] + a[1..];
      assert x in multiset(b) by {
        assert x in multiset(a);
      }
      var k :| 0 <= k < |b| && b[k] == x;
      var rest := RemoveAt(b, k);
      assert multiset(a[1..]) == multiset(rest) by {
        assert multiset(a[1..]) == multiset(a) - multiset{x};
        assert multiset(rest) == multiset(b) - multiset{x};
      }
      CodeSumPermutation(a[1..], rest);
      CodeSumRemove(b, k);
    }
  }

  /** Taking one character out of the text takes its code units out of the sum. */
  lemma CodeSumRemove(b: string, k: int)
    requires 0 <= k < |b|
    ensures CodeSum(b) == CodeUnits(b[k]) + CodeSum(RemoveAt(b, k))
  {
    var tail := b[k..];
    assert b[..k] + tail == b;
    assert tail[0] == b[k] && tail[1..] == b[k + 1..];
    assert CodeSum(tail) == CodeUnits(b[k]) + CodeSum(b[k + 1..]);
    CodeSumAppend(b[..k], tail);
    CodeSumAppend(b[..k], b[k + 1..]);
    assert RemoveAt(b, k) == b[..k] + b[k + 1..];
  }

  /** Names made of the same characters get the same avatar colours. */
  lemma GradientOfAnagram(a: string, b: string)
    requires multiset(a) == multiset(b)
    ensures GradientFor(a) == GradientFor(b)
  {
    CodeSumPermutation(a, b);
  }

  // ---------------------------------------------------------------------
  // Initials.

  function NonEmptyCond(): string -> bool {
    (p: string) => |p| > 0
  }

  /** `name.split(' ').filter(p => p.length > 0)`. */
  function Words(name: string): (ws: seq<string>)
    ensures forall i :: 0 <= i < |ws| ==> ws[i] != [] && ' ' !in ws[i]
  {
    Filter(Split(name, ' '), NonEmptyCond())
  }

  /** The initials taken from `name`: of the first and last word, or the first two characters. */
  function NameInitials(name: string): (r: string)
    requires name != ""
    ensures 1 <= |r| <= 2
    ensures |Words(name)| < 2 ==> r == Upper(Take(name, 2))
  {
    var parts := Words(name);
    if |parts| >= 2 then Upper([parts[0][0], parts[|parts| - 1][0]])
    else Upper(Take(name, 2))
  }

  /** `getInitials`. */
  function Initials(user: Option<Profile>): (r: string)
    ensures 1 <= |r| <= 2
    ensures user.None? ==> r == "??"
  {
    if user.Some? && Filled(user.value.firstName) && Filled(user.value.lastName) then
      Upper([user.value.firstName.value[0], user.value.lastName.value[0]])
    else if user.Some? && Filled(user.value.name) then NameInitials(user.value.name.value)
    else if user.Some? && Filled(user.value.email) then Upper(Take(user.value.email.value, 2))
    else "??"
  }

  /** With both name fields set, the initials are their first letters, upper-cased. */
  lemma InitialsOfFirstAndLast(p: Profile)
    requires Filled(p.firstName) && Filled(p.lastName)
    ensures Initials(Some(p)) == [UpperChar(p.firstName.value[0]), UpperChar(p.lastName.value[0])]
  {
  }

  /** The words of a join of non-empty, space-free words by single spaces are those words. */
  lemma WordsOfJoin(words: seq<string>)
    requires |words| >= 2 && forall i :: 0 <= i < |words| ==> words[i] != [] && ' ' !in words[i]
    ensures Join(words, " ") != "" && Words(Join(words, " ")) == words
  {
    SplitJoin(words, ' ');
    FilterAll(words, NonEmptyCond());
    JoinCons(words[0], words[1..], " ");
    assert [words[0]] + words[1..] == words;
  }

  /** For a name of several words joined by single spaces, the initials are those of the first and last word. */
  lemma InitialsOfWords(p: Profile, words: seq<string>)
    requires !(Filled(p.firstName) && Filled(p.lastName))
    requires |words| >= 2 && forall i :: 0 <= i < |words| ==> words[i] != [] && ' ' !in words[i]
    requires p.name == Some(Join(words, " "))
    ensures Initials(Some(p)) == [UpperChar(words[0][0]), UpperChar(words[|words| - 1][0])]
  {
    WordsOfJoin(words);
    NameInitialsOfWords(Join(words, " "), words);
  }

  /**
   * A name of one word, with no space in it, gives its first two characters,
   * upper-cased.
   */
  lemma InitialsOfOneWord(p: Profile)
    requires !(Filled(p.firstName) && Filled(p.lastName))
    requires Filled(p.name) && ' ' !in p.name.value
    ensures Initials(Some(p)) == Upper(Take(p.name.value, 2))
  {
    var n := p.name.value;
    assert Split(n, ' ') == [n];
    FilterAll([n], NonEmptyCond());
    assert |Words(n)| == 1;
  }

  lemma NameInitialsOfWords(name: string, words: seq<string>)
    requires name != "" && Words(name) == words && |words| >= 2
    ensures NameInitials(name) == [UpperChar(words[0][0]), UpperChar(words[|words| - 1][0])]
  {
    var pair := [words[0][0], words[|words| - 1][0]];
    assert Upper(pair) == [UpperChar(pair[0]), UpperChar(pair[1])];
  }

  /** Without a name, the email's first two characters, upper-cased; and `'??'` when nothing is known. */
  lemma InitialsWithoutName(user: Option<Profile>)
    requires user.None? || (!(Filled(user.value.firstName) && Filled(user.value.lastName)) && !Filled(user.value.name))
    ensures user.Some? && Filled(user.value.email) ==> Initials(user) == Upper(Take(user.value.email.value, 2))
    ensures (user.None? || !Filled(user.value.email)) ==> Initials(user) == "??"
  {
  }

  // ---------------------------------------------------------------------
  // Editing the name.

  /** `handleOpenEditModal`: the form's first and last name. */
  function EditNames(user: Option<Profile>): (r: (string, string)) {
    var first := if user.Some? && Filled(user.value.firstName) then user.value.firstName.value else "";
    var last := if user.Some? && Filled(user.value.lastName) then user.value.lastName.value else "";
    if first == "" && user.Some? && Filled(user.value.name) then
      var nameParts := Split(Trim(user.value.name.value), ' ');
      (nameParts[0], Join(nameParts[1..], " "))
    else (first, last)
  }

  /** A split with a separator in the text has at least two pieces, the first being the text before it. */
  lemma SplitAtFirst(s: string, sep: char)
    requires sep in s
    ensures |Split(s, sep)| >= 2
    ensures Split(s, sep)[0] == s[..IndexOfChar(s, sep)]
    ensures Join(Split(s, sep)[1..], [sep]) == s[IndexOfChar(s, sep) + 1..]
  {
    var i := IndexOfChar(s, sep);
    JoinSplit(s[i + 1..], sep);
    assert Split(s, sep)[1..] == Split(s[i + 1..], sep);
  }

  /**
   * When only `name` is set, the form's two fields joined by a space give
   * back the trimmed name, as long as it has a space; without one the whole
   * trimmed name is the first name.
   */
  lemma EditNamesRebuild(user: Option<Profile>)
    requires user.Some? && !Filled(user.value.firstName) && Filled(user.value.name)
    ensures var t := Trim(user.value.name.value);
      ' ' in t ==> EditNames(user).0 + " " + EditNames(user).1 == t
    ensures var t := Trim(user.value.name.value);
      ' ' !in t ==> EditNames(user) == (t, "")
  {
    var t := Trim(user.value.name.value);
    EditNamesOfName(user);
    if ' ' in t {
      SplitRejoin(t);
    }
  }

  /** With only `name` set, the form holds the first piece of the trimmed name and the rest. */
  lemma EditNamesOfName(user: Option<Profile>)
    requires user.Some? && !Filled(user.value.firstName) && Filled(user.value.name)
    ensures var parts := Split(Trim(user.value.name.value), ' ');
      EditNames(user) == (parts[0], Join(parts[1..], " "))
  {
  }

  /** The first piece, a space and the other pieces joined by spaces give back the text. */
  lemma SplitRejoin(t: string)
    requires ' ' in t
    ensures Split(t, ' ')[0] + " " + Join(Split(t, ' ')[1..], " ") == t
  {
    SplitAtFirst(t, ' ');
    var i := IndexOfChar(t, ' ');
    assert t == t[..i] + " " + t[i + 1..];
  }

  /** `handleSaveProfile`: nothing for a blank first name; otherwise the trimmed parts and the full name. */
  function SaveProfile(editFirstName: string, editLastName: string): (r: Option<ProfileUpdate>)
    ensures r.None? <==> Trim(editFirstName) == ""
    ensures r.Some? ==> r.value.firstName == Trim(editFirstName) && r.value.lastName == Trim(editLastName)
    ensures r.Some? && Trim(editLastName) == "" ==> r.value.name == Trim(editFirstName)
    ensures r.Some? && Trim(editLastName) != "" ==> r.value.name == Trim(editFirstName) + " " + Trim(editLastName)
  {
    var first := Trim(editFirstName);
    if first == "" then None
    else
      var last := Trim(editLastName);
      FullNameTrim(first, last);
      Some(ProfileUpdate(Trim(first + " " + last + " "), first, last))
  }

  /** The template `${first} ${last} ` trimmed, for trimmed parts with a non-empty first. */
  lemma FullNameTrim(first: string, last: string)
    requires Trimmed(first) && Trimmed(last) && first != ""
    ensures last == "" ==> Trim(first + " " + last + " ") == first
    ensures last != "" ==> Trim(first + " " + last + " ") == first + " " + last
  {
    AllSpaceConcat(" ", " ");
    if last == "" {
      assert first + " " + last + " " == first + "  ";
      TrimAppendSpaces(first, "  ");
      TrimOfTrimmed(first);
    } else {
      var full := first + " " + last;
      TrimAppendSpaces(full, " ");
      assert full[0] == first[0] && full[|full| - 1] == last[|last| - 1];
      TrimOfTrimmed(full);
    }
  }

  /**
   * Opening the form for a user with only a name and saving it unchanged
   * keeps the name, when its first space stands alone between two words.
   */
  lemma EditThenSaveKeepsName(user: Option<Profile>)
    requires user.Some? && !Filled(user.value.firstName) && Filled(user.value.name)
    requires var t := Trim(user.value.name.value);
      ' ' in t && var i := IndexOfChar(t, ' ');
      0 < i < |t| - 1 && !IsSpace(t[i - 1]) && !IsSpace(t[i + 1])
    ensures SaveProfile(EditNames(user).0, EditNames(user).1).Some?
    ensures SaveProfile(EditNames(user).0, EditNames(user).1).value.name == Trim(user.value.name.value)
  {
    var t := Trim(user.value.name.value);
    var i := IndexOfChar(t, ' ');
    SplitAtFirst(t, ' ');
    EditNamesOfName(user);
    assert EditNames(user) == (t[..i], t[i + 1..]);
    SaveAroundSpace(t, i);
  }

  /** Saving the two sides of a lone space of trimmed text gives back the text. */
  lemma SaveAroundSpace(t: string, i: int)
    requires Trimmed(t) && 0 < i < |t| - 1 && t[i] == ' '
    requires !IsSpace(t[i - 1]) && !IsSpace(t[i + 1])
    ensures SaveProfile(t[..i], t[i + 1..]).Some?
    ensures SaveProfile(t[..i], t[i + 1..]).value.name == t
  {
    var first := t[..i];
    var last := t[i + 1..];
    assert first[0] == t[0] && first[|first| - 1] == t[i - 1];
    assert last[0] == t[i + 1] && last[|last| - 1] == t[|t| - 1];
    TrimOfTrimmed(first);
    TrimOfTrimmed(last);
    assert t == first + " " + last;
  }

  // ---------------------------------------------------------------------
  // loadStats.

  /** `(now - date) / (1000 * 3600 * 24) <= 7`: at most seven days old, dreams dated later than now included. */
  predicate Recent(nowMs: int, d: StatsDream) {
    d.date.Some? && nowMs - d.date.value <= 7 * DayMs
  }

  function RecentCond(nowMs: int): StatsDream -> bool {
    (d: StatsDream) => Recent(nowMs, d)
  }

  /** `loadStats`: `None` when the answer is not an array (or the fetch threw), in which case the numbers stay. */
  function LoadProfileStats(current: ProfileStats, fetched: Option<seq<StatsDream>>, nowMs: int): (r: ProfileStats)
    ensures fetched.None? ==> r == current
    ensures fetched.Some? ==> r.totalDreams == |fetched.value| && r.avgEnergy == AvgEnergy(fetched.value)
    ensures fetched.Some? ==> 0 <= r.weeklyDreams <= r.totalDreams
    ensures fetched.Some? ==> r.weeklyDreams == |Filter(fetched.value, RecentCond(nowMs))|
  {
    if fetched.None? then current
    else
      var dreams := fetched.value;
      ProfileStats(|dreams|, AvgEnergy(dreams), |Filter(dreams, RecentCond(nowMs))|)
  }

  /** A dream exactly seven days old still counts. */
  lemma SevenDaysCount(nowMs: int)
    ensures Recent(nowMs, StatsDream(None, None, Some(nowMs - 7 * DayMs)))
  {
  }

  /** Every dream in the statistics screen's seven-day chart is counted by the profile as recent. */
  lemma {:induction false} WindowWithinRecent(dreams: seq<StatsDream>, nowMs: int)
    ensures WindowCount(dreams, nowMs) <= |Filter(dreams, RecentCond(nowMs))|
  {
    if dreams != [] {
      var last := dreams[|dreams| - 1];
      WindowWithinRecent(dreams[..|dreams| - 1], nowMs);
      if InWindow(last, nowMs) {
        assert (nowMs - last.date.value) / DayMs < 7;
        assert Recent(nowMs, last);
      }
    }
  }

  // ---------------------------------------------------------------------
  // The request of loadStats.

  /**
   * The query of `?userId = <id> ` as the server's query parser reads it:
   * the encoded spaces stay in the key and around the value.
   */
  function StatsQueryAsWritten(userId: string): (q: map<string, JsValue.Value>)
    ensures "userId" !in q
  {
    map["userId " := JsValue.Str(" " + userId + " ")]
  }

  /** The query of `?userId=<id>`, as the statistics screen sends it. */
  function StatsQuery(userId: string): (q: map<string, JsValue.Value>)
    ensures "userId" in q && q["userId"] == JsValue.Str(userId)
  {
    map["userId" := JsValue.Str(userId)]
  }

  /**
   * The profile's request is refused for want of a user id, so its answer is
   * not an array and `loadStats` keeps the numbers it had.
   */
  lemma ProfileStatsRequestRefused(userId: string, docs: Option<seq<Server.Doc>>, createdMs: Option<JsValue.Value> -> int,
    current: ProfileStats, nowMs: int)
    ensures Server.ListDreamsRequest(true, true, StatsQueryAsWritten(userId), docs, createdMs)
      == Server.Http(400, Server.ErrorBody(Server.UserIdRequired))
    ensures !Server.ListDreamsRequest(true, true, StatsQueryAsWritten(userId), docs, createdMs).body.Arr?
    ensures LoadProfileStats(current, None, nowMs) == current
  {
    assert JsValue.Field(StatsQueryAsWritten(userId), "userId") == None;
  }

  /** With the query written as the statistics screen writes it, the owner's dreams come back as an array. */
  lemma ProfileStatsRequestListed(userId: string, ds: seq<Server.Doc>, createdMs: Option<JsValue.Value> -> int)
    requires userId != ""
    ensures Server.ListDreamsRequest(true, true, StatsQuery(userId), Some(ds), createdMs)
      == Server.Http(200, JsValue.Arr(Server.RecentEntries(ds, JsValue.Str(userId), createdMs)))
  {
    assert JsValue.Field(StatsQuery(userId), "userId") == Some(JsValue.Str(userId));
  }
}
