/** Reading sshd_config text back (gateway/service/FirewallService.py, _parseSshConfigFiles). */
module SshConfig {
  import opened Wrappers
  import opened SshBlock

  // ---------------------------------------------------------------------------
  // Lines

  /** The line boundaries of `str.splitlines`; a carriage return and the line feed after it are one boundary. */
  predicate IsBreak(c: char) {
    || '\n' <= c <= '\r'
    || '\U{1c}' <= c <= '\U{1e}'
    || c == '\U{85}' || c == '\U{2028}' || c == '\U{2029}'
  }

  /** The lines of current + text, where current is the started line. */
  function Lines(text: string, current: string): seq<string>
    decreases |text|
  {
    if text == [] then if current == [] then [] else [current]
    else if !IsBreak(text[0]) then Lines(text[1..], current + [text[0]])
    else if text[0] == '\r' && |text| > 1 && text[1] == '\n' then [current] + Lines(text[2..], [])
    else [current] + Lines(text[1..], [])
  }

  // ---------------------------------------------------------------------------
  // One line

  function Strip(s: string): string {
    TrimRight(TrimLeft(s))
  }

  function Before(s: string, stop: char -> bool): (r: string)
    ensures |r| <= |s| && r == s[..|r|]
    ensures |r| < |s| ==> stop(s[|r|])
    ensures forall i | 0 <= i < |r| :: !stop(r[i])
  {
    if s == [] || stop(s[0]) then [] else [s[0]] + Before(s[1..], stop)
  }

  predicate IsHash(c: char) {
    c == '#'
  }

  /** `str.split()`: the maximal runs without white space. */
  function Words(s: string): seq<string>
    decreases |s|
  {
    var t := TrimLeft(s);
    if t == [] then []
    else
      var word := Before(t, IsSpace);
      [word] + Words(t[|word|..])
  }

  function LowerChar(c: char): char {
    if 'A' <= c <= 'Z' then (c as int + 32) as char else c
  }

  function Lower(s: string): string {
    seq(|s|, i requires 0 <= i < |s| => LowerChar(s[i]))
  }

  predicate IsListKey(key: string) {
    key == "allowusers" || key == "allowgroups" || key == "listenaddress" || key == "include"
  }

  /** What one line adds to the parsed configuration. */
  datatype Setting = Setting(key: string, values: seq<string>)

  /** The line without surrounding space and comment. */
  function Uncommented(raw: string): string {
    var line := Strip(raw);
    if line == [] || line[0] == '#' then [] else Strip(Before(line, IsHash))
  }

  /** The setting made by a line without comment: a keyword and, after white space, its value. */
  function SettingIn(text: string): Option<Setting> {
    var word := Before(text, IsSpace);
    var value := Strip(text[|word|..]);
    if value == [] then None
    else
      var key := Lower(word);
      Some(Setting(key, if IsListKey(key) then Words(value) else [value]))
  }

  function LineSetting(raw: string): Option<Setting> {
    SettingIn(Uncommented(raw))
  }

  function LineValues(line: string, key: string): seq<string> {
    var s := LineSetting(line);
    if s.Some? && s.value.key == key then s.value.values else []
  }

  /** The values all lines together give a key, in order. */
  function Values(lines: seq<string>, key: string): seq<string> {
    if lines == [] then [] else LineValues(lines[0], key) + Values(lines[1..], key)
  }

  lemma {:induction false} ValuesConcat(a: seq<string>, b: seq<string>, key: string)
    ensures Values(a + b, key) == Values(a, key) + Values(b, key)
  {
    if a == [] {
      assert a + b == b;
    } else {
      assert (a + b)[1..] == a[1..] + b;
      assert (a + b)[0] == a[0];
      ValuesConcat(a[1..], b, key);
      Assoc(LineValues(a[0], key), Values(a[1..], key), Values(b, key));
    }
  }

  lemma {:induction false} ValuesAppend(lines: seq<string>, line: string, key: string)
    ensures Values(lines + [line], key) == Values(lines, key) + LineValues(line, key)
  {
    ValuesConcat(lines, [line], key);
    ValuesSingle(line, key);
  }

  lemma {:induction false} SettingHasValues(raw: string)
    ensures var s := LineSetting(raw); s.Some? ==> s.value.values != []
  {
    var text := Uncommented(raw);
    var value := Strip(text[|Before(text, IsSpace)|..]);
    if value != [] {
      var rest := TrimLeft(text[|Before(text, IsSpace)|..]);
      assert value[0] == rest[0];
      assert TrimLeft(value) == value;
    }
  }

  lemma {:induction false} ValuesSingle(line: string, key: string)
    ensures Values([line], key) == LineValues(line, key)
  {
    assert Values([line][1..], key) == [];
  }

  // ---------------------------------------------------------------------------
  // The parse loops

  type Parse = map<string, seq<string>>

  function Lookup(parsed: Parse, key: string): seq<string> {
    if key in parsed then parsed[key] else []
  }

  /** The map has exactly the keys that some line sets, each with all its values in order. */
  ghost predicate Reads(parsed: Parse, lines: seq<string>) {
    && (forall key | key in parsed :: parsed[key] != [])
    && (forall key :: Lookup(parsed, key) == Values(lines, key))
  }

  /** `setdefault(key, []).extend(values)`. */
  function Extended(parsed: Parse, s: Setting): Parse {
    parsed[s.key := Lookup(parsed, s.key) + s.values]
  }

  lemma {:induction false} LineValuesOf(line: string, s: Option<Setting>, key: string)
    requires s == LineSetting(line)
    ensures LineValues(line, key) == if s.Some? && s.value.key == key then s.value.values else []
  {
  }

  lemma {:induction false} ExtendedLookup(parsed: Parse, s: Setting, key: string)
    ensures Lookup(Extended(parsed, s), key) == Lookup(parsed, key) + if s.key == key then s.values else []
  {
  }

  method AddLine(before: Parse, ghost lines: seq<string>, line: string) returns (parsed: Parse)
    requires Reads(before, lines)
    ensures Reads(parsed, lines + [line])
  {
    var s := LineSetting(line);
    SettingHasValues(line);
    parsed := if s.Some? then Extended(before, s.value) else before;
    forall key ensures Lookup(parsed, key) == Values(lines + [line], key) {
      ValuesAppend(lines, line, key);
      LineValuesOf(line, s, key);
      if s.Some? {
        ExtendedLookup(before, s.value, key);
      }
    }
  }

  method AddLines(before: Parse, ghost earlier: seq<string>, lines: seq<string>)
    returns (parsed: Parse)
    requires Reads(before, earlier)
    ensures Reads(parsed, earlier + lines)
  {
    parsed := before;
    ghost var done := earlier;
    for i := 0 to |lines|
      invariant done == earlier + lines[..i]
      invariant Reads(parsed, done)
    {
      parsed := AddLine(parsed, done, lines[i]);
      done := done + [lines[i]];
    }
    assert lines[..|lines|] == lines;
  }

  /** The lines of all files that exist, in order. */
  function AllLines(files: seq<Option<string>>): seq<string> {
    if files == [] then []
    else if files[0].None? then AllLines(files[1..])
    else Lines(files[0].value, []) + AllLines(files[1..])
  }

  method ParseSshConfigFiles(files: seq<Option<string>>) returns (parsed: Parse)
    ensures Reads(parsed, AllLines(files))
  {
    parsed := map[];
    ghost var done: seq<string> := [];
    for f := 0 to |files|
      invariant Reads(parsed, done)
      invariant AllLines(files) == done + AllLines(files[f..])
    {
      assert files[f..][1..] == files[f + 1..];
      if files[f].Some? {
        var lines := Lines(files[f].value, []);
        Assoc(done, lines, AllLines(files[f + 1..]));
        parsed := AddLines(parsed, done, lines);
        done := done + lines;
      }
    }
    assert files[|files|..] == [];
    assert done == AllLines(files);
  }

  // ---------------------------------------------------------------------------
  // Lines of written text

  ghost predicate Unbroken(line: string) {
    forall i | 0 <= i < |line| :: !IsBreak(line[i])
  }

  lemma {:induction false} LinesSplit(x: string, y: string, current: string)
    ensures Lines(x + ("\n" + y), current) == Lines(x + "\n", current) + Lines(y, [])
    decreases |x|
  {
    var whole, part := x + ("\n" + y), x + "\n";
    if x == [] {
      assert whole[1..] == y && part[1..] == [];
    } else {
      assert whole[1..] == x[1..] + ("\n" + y) && part[1..] == x[1..] + "\n";
      if !IsBreak(x[0]) {
        LinesSplit(x[1..], y, current + [x[0]]);
      } else if x[0] != '\r' || (|x| > 1 && x[1] != '\n') {
        LinesSplit(x[1..], y, []);
      } else if |x| == 1 {
        assert whole[2..] == y && part[2..] == [];
      } else {
        assert whole[2..] == x[2..] + ("\n" + y) && part[2..] == x[2..] + "\n";
        LinesSplit(x[2..], y, []);
      }
    }
  }

  /** A line break at the end adds no setting. */
  lemma {:induction false} ValuesBreak(x: string, current: string, key: string)
    ensures Values(Lines(x + "\n", current), key) == Values(Lines(x, current), key)
    decreases |x|
  {
    var part := x + "\n";
    if x == [] {
      assert part[1..] == [];
      assert Lines(part, current) == [current];
      ValuesSingle([], key);
    } else {
      assert part[1..] == x[1..] + "\n";
      if !IsBreak(x[0]) {
        ValuesBreak(x[1..], current + [x[0]], key);
      } else if x[0] != '\r' || (|x| > 1 && x[1] != '\n') {
        ValuesBreak(x[1..], [], key);
        ValuesConcat([current], Lines(x[1..], []), key);
        ValuesConcat([current], Lines(x[1..] + "\n", []), key);
      } else if |x| == 1 {
        assert part[2..] == [] && x[1..] == [];
      } else {
        assert part[2..] == x[2..] + "\n";
        ValuesBreak(x[2..], [], key);
        ValuesConcat([current], Lines(x[2..], []), key);
        ValuesConcat([current], Lines(x[2..] + "\n", []), key);
      }
    }
  }

  lemma {:induction false} LinesWhole(line: string, rest: string, current: string)
    requires Unbroken(line)
    ensures Lines(line + rest, current) == Lines(rest, current + line)
  {
    if line == [] {
      assert line + rest == rest && current + line == current;
    } else {
      assert (line + rest)[1..] == line[1..] + rest;
      LinesWhole(line[1..], rest, current + [line[0]]);
      assert current + [line[0]] + line[1..] == current + line;
    }
  }

  lemma {:induction false} LinesLead(lines: seq<string>, current: string)
    requires forall i | 0 <= i < |lines| :: Unbroken(lines[i])
    ensures Lines(Lead(lines) + "\n", current) == [current] + lines
  {
    var text := Lead(lines) + "\n";
    if lines == [] {
      assert text == "\n" && text[1..] == [];
    } else {
      var rest := Lead(lines[1..]) + "\n";
      assert text[0] == '\n' && text[1..] == lines[0] + rest;
      LinesWhole(lines[0], rest, []);
      assert [] + lines[0] == lines[0];
      LinesLead(lines[1..], lines[0]);
    }
  }

  // ---------------------------------------------------------------------------
  // One written line

  /** A value that a line can carry unchanged. */
  ghost predicate Clean(v: string) {
    && v != [] && !IsSpace(v[0]) && !IsSpace(v[|v| - 1])
    && forall i | 0 <= i < |v| :: v[i] != '#' && !IsBreak(v[i])
  }

  ghost predicate IsWord(w: string) {
    w != [] && forall i | 0 <= i < |w| :: w[i] != '#' && !IsSpace(w[i])
  }

  function ValuesOf(e: Entry): seq<string> {
    if IsListKey(Lower(e.keyword)) then Words(e.value) else [e.value]
  }

  lemma {:induction false} FirstWord(word: string, rest: string)
    requires IsWord(word) && (rest != [] ==> IsSpace(rest[0]))
    ensures Before(word + rest, IsSpace) == word
  {
    var r := Before(word + rest, IsSpace);
    assert rest != [] ==> (word + rest)[|word|] == rest[0];
    assert |r| == |word|;
  }

  lemma {:induction false} SkipSpace(v: string)
    requires v != [] && !IsSpace(v[0])
    ensures TrimLeft(" " + v) == v
  {
    assert (" " + v)[1..] == v;
  }

  lemma {:induction false} StripTight(v: string)
    requires v != [] && !IsSpace(v[0]) && !IsSpace(v[|v| - 1])
    ensures Strip(v) == v
  {
  }

  lemma {:induction false} LineShape(word: string, v: string)
    requires IsWord(word) && Clean(v)
    ensures var line := word + (" " + v); Clean(line) && Uncommented(line) == line
  {
    var line := word + (" " + v);
    assert line[0] == word[0] && line[|line| - 1] == v[|v| - 1];
    StripTight(line);
    assert Before(line, IsHash) == line;
  }

  lemma {:induction false} SettingShape(word: string, v: string)
    requires IsWord(word) && Clean(v)
    ensures SettingIn(word + (" " + v)) == Some(Setting(Lower(word), ValuesOf(Entry(word, v))))
  {
    var rest := " " + v;
    var line := word + rest;
    FirstWord(word, rest);
    assert line[|word|..] == rest;
    SkipSpace(v);
    StripTight(v);
  }

  lemma {:induction false} LineOfEntry(e: Entry)
    requires IsWord(e.keyword) && Clean(e.value)
    ensures var line := e.keyword + " " + e.value;
            LineSetting(line) == Some(Setting(Lower(e.keyword), ValuesOf(e))) && Unbroken(line)
  {
    Assoc(e.keyword, " ", e.value);
    LineShape(e.keyword, e.value);
    SettingShape(e.keyword, e.value);
  }

  lemma {:induction false} WordsStep(first: string, rest: string)
    requires IsWord(first) && Clean(rest)
    ensures Words(first + " " + rest) == [first] + Words(rest)
  {
    var text, left := first + (" " + rest), " " + rest;
    Assoc(first, " ", rest);
    FirstWord(first, left);
    assert text[|first|..] == left;
    SkipSpace(rest);
    assert TrimLeft(rest) == rest;
  }

  lemma {:induction false} WordsOfJoin(items: seq<string>)
    requires items != [] && forall i | 0 <= i < |items| :: IsWord(items[i])
    ensures Clean(Join(" ", items)) && Words(Join(" ", items)) == items
  {
    var first := items[0];
    if |items| == 1 {
      FirstWord(first, []);
      assert first + [] == first && first[|first|..] == [];
      assert TrimLeft(first) == first;
    } else {
      var rest := Join(" ", items[1..]);
      WordsOfJoin(items[1..]);
      WordsStep(first, rest);
      CleanJoin(first, rest);
    }
  }

  lemma {:induction false} CleanJoin(first: string, rest: string)
    requires IsWord(first) && Clean(rest)
    ensures Clean(first + " " + rest)
  {
    var v := first + " " + rest;
    assert v[0] == first[0] && v[|v| - 1] == rest[|rest| - 1];
  }

  // ---------------------------------------------------------------------------
  // Reading back what was written

  ghost predicate CleanConfig(c: Config) {
    && Clean(c.port) && Clean(c.permitRootLogin) && Clean(c.passwordAuthentication)
    && Clean(c.protocol) && Clean(c.loginGraceTime) && Clean(c.maxAuthTries)
    && (forall i | 0 <= i < |c.allowUsers| :: IsWord(c.allowUsers[i]))
    && (forall i | 0 <= i < |c.allowGroups| :: IsWord(c.allowGroups[i]))
    && (forall i | 0 <= i < |c.listenAddress| :: IsWord(c.listenAddress[i]))
  }

  lemma {:induction false} ListEntryClean(keyword: string, items: seq<string>)
    requires forall i | 0 <= i < |items| :: IsWord(items[i])
    ensures forall e | e in ListEntry(keyword, items) :: Clean(e.value)
  {
    if items != [] {
      WordsOfJoin(items);
    }
  }

  lemma {:induction false} ScalarsClean(c: Config)
    requires CleanConfig(c)
    ensures forall e | e in Scalars(c) :: Clean(e.value)
  {
  }

  lemma {:induction false} AllClean(a: seq<Entry>, b: seq<Entry>)
    requires (forall e | e in a :: Clean(e.value)) && (forall e | e in b :: Clean(e.value))
    ensures forall e | e in a + b :: Clean(e.value)
  {
  }

  lemma {:induction false} ListsClean(c: Config)
    requires CleanConfig(c)
    ensures forall e | e in Lists(c) :: Clean(e.value)
  {
    var users, groups := ListEntry("AllowUsers", c.allowUsers), ListEntry("AllowGroups", c.allowGroups);
    ListEntryClean("AllowUsers", c.allowUsers);
    ListEntryClean("AllowGroups", c.allowGroups);
    ListEntryClean("ListenAddress", c.listenAddress);
    AllClean(users, groups);
    AllClean(users + groups, ListEntry("ListenAddress", c.listenAddress));
  }

  lemma {:induction false} EntriesClean(c: Config)
    requires CleanConfig(c)
    ensures forall e | e in Entries(c) :: Clean(e.value)
  {
    ScalarsClean(c);
    ListsClean(c);
    AllClean(Scalars(c), Lists(c));
  }

  lemma {:induction false} LettersAreWord(word: string)
    requires word != [] && forall i | 0 <= i < |word| :: 'A' <= word[i] <= 'z'
    ensures IsWord(word)
  {
  }

  lemma {:induction false} KeywordIsWord(word: string)
    requires KnownKeyword(word)
    ensures IsWord(word)
  {
    LettersAreWord(word);
  }

  /** What the entries give a key. */
  function Given(entries: seq<Entry>, key: string): seq<string> {
    if entries == [] then []
    else (if Lower(entries[0].keyword) == key then ValuesOf(entries[0]) else []) + Given(entries[1..], key)
  }

  lemma {:induction false} ValuesOfWritten(entries: seq<Entry>, key: string)
    requires Writable(entries)
    ensures Values(Written(entries), key) == Given(entries, key)
  {
    if entries != [] {
      assert Written(entries)[1..] == Written(entries[1..]);
      LineOfEntry(entries[0]);
      ValuesOfWritten(entries[1..], key);
    }
  }

  lemma {:induction false} CommentLine(line: string, key: string)
    requires line != [] && line[0] == '#' && forall i | 0 <= i < |line| :: ' ' <= line[i] <= '_'
    requires line[|line| - 1] != ' '
    ensures Values([line], key) == [] && Unbroken(line)
  {
    StripTight(line);
    assert Uncommented(line) == [];
    ValuesSingle(line, key);
  }

  lemma {:induction false} MarkerLines(key: string)
    ensures Values([BEGIN], key) == [] && Values([END], key) == []
    ensures Unbroken(END) && Unbroken(BEGIN)
  {
    assert forall i | 0 <= i < |BEGIN| :: ' ' <= BEGIN[i] <= '_';
    assert forall i | 0 <= i < |END| :: ' ' <= END[i] <= '_';
    CommentLine(BEGIN, key);
    CommentLine(END, key);
  }

  /** Re-parsing an updated file gives every key its values in the kept text followed by those written. */
  lemma {:induction false} ValuesOfUpdate(content: string, c: Config, key: string)
    requires CleanConfig(c)
    ensures Values(Lines(Update(content, c), []), key) ==
            Values(Lines(Base(content), []), key) + Given(Entries(c), key)
  {
    var base, lines := Base(content), Written(Entries(c));
    var block := Lead([BEGIN] + (lines + [END])) + "\n";
    var kept := Lines(base + "\n", []);
    UpdateAsLines(content, c);
    LinesSplit(base, block, []);
    EntriesWritable(c);
    MarkerLines(key);
    ValuesOfFramed(BEGIN, Entries(c), END, key);
    ValuesConcat(kept, Lines(block, []), key);
    ValuesBreak(base, [], key);
  }

  lemma {:induction false} UpdateAsLines(content: string, c: Config)
    ensures Update(content, c) == Base(content) + ("\n" + (Lead([BEGIN] + (Written(Entries(c)) + [END])) + "\n"))
  {
    var lines := Written(Entries(c)) + [END];
    var all := [BEGIN] + lines;
    Assoc([BEGIN], Written(Entries(c)), [END]);
    JoinLead(BEGIN, lines);
    assert all[1..] == lines;
    assert Lead(all) == "\n" + Block(c);
    Regroup(Base(content), "\n\n", "\n", Block(c));
  }

  lemma {:induction false} Regroup(base: string, two: string, one: string, block: string)
    requires two == one + one
    ensures base + two + block + one == base + (one + (one + block + one))
  {
  }

  ghost predicate Writable(entries: seq<Entry>) {
    forall e | e in entries :: IsWord(e.keyword) && Clean(e.value)
  }

  lemma {:induction false} EntriesWritable(c: Config)
    requires CleanConfig(c)
    ensures Writable(Entries(c))
  {
    EntriesClean(c);
    KeywordsKnown(c);
    forall e | e in Entries(c) ensures IsWord(e.keyword) {
      KeywordIsWord(e.keyword);
    }
  }

  lemma {:induction false} WrittenUnbroken(entries: seq<Entry>)
    requires Writable(entries)
    ensures forall i | 0 <= i < |entries| :: Unbroken(Written(entries)[i])
  {
    forall i | 0 <= i < |entries| ensures Unbroken(Written(entries)[i]) {
      LineOfEntry(entries[i]);
    }
  }

  lemma {:induction false} EmptyLine(key: string)
    ensures Values([[]], key) == []
  {
    ValuesSingle([], key);
    assert LineSetting([]) == None;
  }

  lemma {:induction false} FramedLines(first: string, lines: seq<string>, last: string, all: seq<string>)
    requires Unbroken(first) && Unbroken(last) && forall i | 0 <= i < |lines| :: Unbroken(lines[i])
    requires all == [first] + (lines + [last])
    ensures forall i | 0 <= i < |all| :: Unbroken(all[i])
  {
    forall i | 0 <= i < |all| ensures Unbroken(all[i]) {
      assert all[i] == if i == 0 then first else if i <= |lines| then lines[i - 1] else last;
    }
  }

  /** Lines that set nothing around the entries, as the two markers are. */
  lemma {:induction false} ValuesOfFramed(first: string, entries: seq<Entry>, last: string, key: string)
    requires Writable(entries) && Unbroken(first) && Unbroken(last)
    requires Values([first], key) == [] && Values([last], key) == []
    ensures Values(Lines(Lead([first] + (Written(entries) + [last])) + "\n", []), key) == Given(entries, key)
  {
    var lines := Written(entries);
    WrittenUnbroken(entries);
    var all := [first] + (lines + [last]);
    FramedLines(first, lines, last, all);
    LinesLead(all, []);
    EmptyLine(key);
    ValuesOfWritten(entries, key);
    FramedValues([[]], [first], lines, [last], key);
  }

  lemma {:induction false} FramedValues(a: seq<string>, b: seq<string>, lines: seq<string>, d: seq<string>, key: string)
    requires Values(a, key) == [] && Values(b, key) == [] && Values(d, key) == []
    ensures Values(a + (b + (lines + d)), key) == Values(lines, key)
  {
    ValuesConcat(a, b + (lines + d), key);
    ValuesConcat(b, lines + d, key);
    ValuesConcat(lines, d, key);
  }

  // ---------------------------------------------------------------------------
  // The configuration read

  function Last(values: seq<string>, default: string): string {
    if values == [] then default else values[|values| - 1]
  }

  /** `getSshConfig`, numbers left as text. */
  function Read(lines: seq<string>): Config {
    var addresses := Values(lines, "listenaddress");
    Config(
      Last(Values(lines, "port"), "22"),
      Last(Values(lines, "permitrootlogin"), "no"),
      Last(Values(lines, "passwordauthentication"), "yes"),
      Last(Values(lines, "protocol"), "2"),
      Last(Values(lines, "logingracetime"), "120"),
      Last(Values(lines, "maxauthtries"), "6"),
      Values(lines, "allowusers"),
      Values(lines, "allowgroups"),
      if addresses == [] then ["0.0.0.0"] else addresses)
  }

  lemma {:induction false} LowerKeywords()
    ensures Lower("Port") == "port" && Lower("PermitRootLogin") == "permitrootlogin"
    ensures Lower("Protocol") == "protocol" && Lower("LoginGraceTime") == "logingracetime"
    ensures Lower("PasswordAuthentication") == "passwordauthentication"
  {
    LowerIs("Port", "port");
    LowerIs("PermitRootLogin", "permitrootlogin");
    LowerIs("Protocol", "protocol");
    LowerIs("LoginGraceTime", "logingracetime");
    LowerIs("PasswordAuthentication", "passwordauthentication");
  }

  lemma {:induction false} LowerIs(word: string, key: string)
    requires |key| == |word| && forall i | 0 <= i < |word| :: key[i] == LowerChar(word[i])
    ensures Lower(word) == key
  {
  }

  lemma {:induction false} LowerListKeywords()
    ensures Lower("MaxAuthTries") == "maxauthtries"
    ensures Lower("AllowUsers") == "allowusers" && Lower("AllowGroups") == "allowgroups"
    ensures Lower("ListenAddress") == "listenaddress"
  {
  }

  lemma {:induction false} GivenConcat(a: seq<Entry>, b: seq<Entry>, key: string)
    ensures Given(a + b, key) == Given(a, key) + Given(b, key)
  {
    if a == [] {
      assert a + b == b;
    } else {
      assert (a + b)[1..] == a[1..] + b;
      GivenConcat(a[1..], b, key);
    }
  }

  /** The nine keywords differ in length. */
  lemma {:induction false} GivenNone(entries: seq<Entry>, key: string)
    requires forall e | e in entries :: |e.keyword| != |key|
    ensures Given(entries, key) == []
  {
    if entries != [] {
      GivenNone(entries[1..], key);
    }
  }

  lemma {:induction false} GivenOnce(entries: seq<Entry>, i: nat, key: string)
    requires i < |entries| && Lower(entries[i].keyword) == key
    requires forall j | 0 <= j < |entries| && j != i :: |entries[j].keyword| != |key|
    ensures Given(entries, key) == ValuesOf(entries[i])
  {
    if i == 0 {
      GivenNone(entries[1..], key);
    } else {
      assert |Lower(entries[0].keyword)| == |entries[0].keyword|;
      GivenOnce(entries[1..], i - 1, key);
    }
  }

  lemma {:induction false} ScalarLengths(c: Config)
    ensures forall e | e in Scalars(c) :: |e.keyword| !in {7, 10, 11, 13}
  {
  }

  lemma {:induction false} ListLengths(c: Config)
    ensures forall e | e in Lists(c) :: |e.keyword| in {10, 11, 13}
  {
  }

  lemma {:induction false} ScalarsDiffer(c: Config, i: nat)
    requires i < 6
    ensures forall j | 0 <= j < 6 && j != i :: |Scalars(c)[j].keyword| != |Scalars(c)[i].keyword|
  {
  }

  lemma {:induction false} NotListKey(key: string)
    requires |key| !in {7, 10, 11, 13}
    ensures !IsListKey(key)
  {
  }

  /** A key set by one entry of the first list and by none of the second. */
  lemma {:induction false} GivenHere(a: seq<Entry>, b: seq<Entry>, i: nat, key: string)
    requires i < |a| && Lower(a[i].keyword) == key && !IsListKey(key)
    requires forall j | 0 <= j < |a| && j != i :: |a[j].keyword| != |key|
    requires forall e | e in b :: |e.keyword| != |key|
    ensures Given(a + b, key) == [a[i].value]
  {
    GivenConcat(a, b, key);
    GivenNone(b, key);
    GivenOnce(a, i, key);
  }

  lemma {:induction false} GivenScalar(c: Config, i: nat, key: string)
    requires i < 6 && Lower(Scalars(c)[i].keyword) == key
    ensures Given(Entries(c), key) == [Scalars(c)[i].value]
  {
    ScalarLengths(c);
    assert Scalars(c)[i] in Scalars(c);
    ListLengths(c);
    ScalarsDiffer(c, i);
    NotListKey(key);
    GivenHere(Scalars(c), Lists(c), i, key);
  }

  lemma {:induction false} GivenItems(keyword: string, items: seq<string>, key: string)
    requires Lower(keyword) == key && IsListKey(key) && forall i | 0 <= i < |items| :: IsWord(items[i])
    ensures Given(ListEntry(keyword, items), key) == items
  {
    if items != [] {
      WordsOfJoin(items);
      GivenOnce(ListEntry(keyword, items), 0, key);
    }
  }

  lemma {:induction false} GivenFromLists(c: Config, key: string)
    requires |key| == 10 || |key| == 11 || |key| == 13
    ensures Given(Entries(c), key) == Given(Lists(c), key)
  {
    ScalarLengths(c);
    GivenAfter(Scalars(c), Lists(c), key);
  }

  lemma {:induction false} GivenAfter(a: seq<Entry>, b: seq<Entry>, key: string)
    requires forall e | e in a :: |e.keyword| != |key|
    ensures Given(a + b, key) == Given(b, key)
  {
    GivenConcat(a, b, key);
    GivenNone(a, key);
  }

  /** Of three lists of entries, the other two say nothing about the key. */
  lemma {:induction false} GivenAmong(a: seq<Entry>, b: seq<Entry>, c: seq<Entry>, key: string)
    ensures Given(a + b + c, key) == Given(a, key) + Given(b, key) + Given(c, key)
    ensures (forall e | e in a :: |e.keyword| != |key|) ==> Given(a, key) == []
    ensures (forall e | e in b :: |e.keyword| != |key|) ==> Given(b, key) == []
    ensures (forall e | e in c :: |e.keyword| != |key|) ==> Given(c, key) == []
  {
    GivenConcat(a + b, c, key);
    GivenConcat(a, b, key);
    if forall e | e in a :: |e.keyword| != |key| { GivenNone(a, key); }
    if forall e | e in b :: |e.keyword| != |key| { GivenNone(b, key); }
    if forall e | e in c :: |e.keyword| != |key| { GivenNone(c, key); }
  }

  lemma {:induction false} GivenLists(c: Config)
    requires CleanConfig(c)
    ensures Given(Entries(c), "allowusers") == c.allowUsers
    ensures Given(Entries(c), "allowgroups") == c.allowGroups
    ensures Given(Entries(c), "listenaddress") == c.listenAddress
  {
    var users, groups := ListEntry("AllowUsers", c.allowUsers), ListEntry("AllowGroups", c.allowGroups);
    var addresses := ListEntry("ListenAddress", c.listenAddress);
    LowerListKeywords();
    assert Given(Entries(c), "allowusers") == c.allowUsers by {
      GivenFromLists(c, "allowusers");
      GivenItems("AllowUsers", c.allowUsers, "allowusers");
      GivenAmong(users, groups, addresses, "allowusers");
    }
    assert Given(Entries(c), "allowgroups") == c.allowGroups by {
      GivenFromLists(c, "allowgroups");
      GivenItems("AllowGroups", c.allowGroups, "allowgroups");
      GivenAmong(users, groups, addresses, "allowgroups");
    }
    assert Given(Entries(c), "listenaddress") == c.listenAddress by {
      GivenFromLists(c, "listenaddress");
      GivenItems("ListenAddress", c.listenAddress, "listenaddress");
      GivenAmong(users, groups, addresses, "listenaddress");
    }
  }

  lemma {:induction false} ScalarReadsBackAs(content: string, c: Config, i: nat, e: Entry, key: string, default: string)
    requires CleanConfig(c) && i < 6 && Scalars(c)[i] == e && Lower(e.keyword) == key
    ensures Last(Values(Lines(Update(content, c), []), key), default) == e.value
  {
    ScalarReadsBack(content, c, i, key, default);
  }

  lemma {:induction false} PortReadsBack(content: string, c: Config)
    requires CleanConfig(c)
    ensures Last(Values(Lines(Update(content, c), []), "port"), "22") == c.port
  {
    LowerKeywords();
    ScalarReadsBackAs(content, c, 0, Entry("Port", c.port), "port", "22");
  }

  lemma {:induction false} PermitRootLoginReadsBack(content: string, c: Config)
    requires CleanConfig(c)
    ensures Last(Values(Lines(Update(content, c), []), "permitrootlogin"), "no") == c.permitRootLogin
  {
    LowerKeywords();
    ScalarReadsBackAs(content, c, 1, Entry("PermitRootLogin", c.permitRootLogin), "permitrootlogin", "no");
  }

  lemma {:induction false} PasswordAuthenticationReadsBack(content: string, c: Config)
    requires CleanConfig(c)
    ensures Last(Values(Lines(Update(content, c), []), "passwordauthentication"), "yes") == c.passwordAuthentication
  {
    LowerKeywords();
    ScalarReadsBackAs(content, c, 2, Entry("PasswordAuthentication", c.passwordAuthentication),
                      "passwordauthentication", "yes");
  }

  lemma {:induction false} ProtocolReadsBack(content: string, c: Config)
    requires CleanConfig(c)
    ensures Last(Values(Lines(Update(content, c), []), "protocol"), "2") == c.protocol
  {
    LowerKeywords();
    ScalarReadsBackAs(content, c, 3, Entry("Protocol", c.protocol), "protocol", "2");
  }

  lemma {:induction false} LoginGraceTimeReadsBack(content: string, c: Config)
    requires CleanConfig(c)
    ensures Last(Values(Lines(Update(content, c), []), "logingracetime"), "120") == c.loginGraceTime
  {
    LowerKeywords();
    ScalarReadsBackAs(content, c, 4, Entry("LoginGraceTime", c.loginGraceTime), "logingracetime", "120");
  }

  lemma {:induction false} MaxAuthTriesReadsBack(content: string, c: Config)
    requires CleanConfig(c)
    ensures Last(Values(Lines(Update(content, c), []), "maxauthtries"), "6") == c.maxAuthTries
  {
    LowerListKeywords();
    ScalarReadsBackAs(content, c, 5, Entry("MaxAuthTries", c.maxAuthTries), "maxauthtries", "6");
  }

  /** Each of the six scalar keys reads back as the value written, whatever the kept text says. */
  lemma {:induction false} ScalarsReadBack(content: string, c: Config)
    requires CleanConfig(c)
    ensures var r := Read(Lines(Update(content, c), []));
            && r.port == c.port && r.permitRootLogin == c.permitRootLogin
            && r.passwordAuthentication == c.passwordAuthentication && r.protocol == c.protocol
            && r.loginGraceTime == c.loginGraceTime && r.maxAuthTries == c.maxAuthTries
  {
    PortReadsBack(content, c);
    PermitRootLoginReadsBack(content, c);
    PasswordAuthenticationReadsBack(content, c);
    ProtocolReadsBack(content, c);
    LoginGraceTimeReadsBack(content, c);
    MaxAuthTriesReadsBack(content, c);
  }

  lemma {:induction false} ScalarReadsBack(content: string, c: Config, i: nat, key: string, default: string)
    requires CleanConfig(c) && i < 6 && Lower(Scalars(c)[i].keyword) == key
    ensures Last(Values(Lines(Update(content, c), []), key), default) == Scalars(c)[i].value
  {
    ValuesOfUpdate(content, c, key);
    GivenScalar(c, i, key);
  }

  /** List keys accumulate: what the kept text lists comes first. */
  lemma {:induction false} ListsReadBack(content: string, c: Config)
    requires CleanConfig(c)
    ensures var base, text := Lines(Base(content), []), Lines(Update(content, c), []);
            && Values(text, "allowusers") == Values(base, "allowusers") + c.allowUsers
            && Values(text, "allowgroups") == Values(base, "allowgroups") + c.allowGroups
            && Values(text, "listenaddress") == Values(base, "listenaddress") + c.listenAddress
  {
    ValuesOfUpdate(content, c, "allowusers");
    ValuesOfUpdate(content, c, "allowgroups");
    ValuesOfUpdate(content, c, "listenaddress");
    GivenLists(c);
  }

  /** The whole configuration reads back exactly when the kept text sets no list key and an address is written. */
  lemma {:induction false} ReadBackIff(content: string, c: Config)
    requires CleanConfig(c)
    ensures var base := Lines(Base(content), []);
            Read(Lines(Update(content, c), [])) == c <==>
              && Values(base, "allowusers") == [] && Values(base, "allowgroups") == []
              && Values(base, "listenaddress") == [] && c.listenAddress != []
  {
    ScalarsReadBack(content, c);
    ListsReadBack(content, c);
    var base := Lines(Base(content), []);
    PrefixGone(Values(base, "allowusers"), c.allowUsers);
    PrefixGone(Values(base, "allowgroups"), c.allowGroups);
    PrefixGone(Values(base, "listenaddress"), c.listenAddress);
  }

  lemma {:induction false} PrefixGone(a: seq<string>, b: seq<string>)
    ensures a + b == b <==> a == []
  {
    if a + b == b {
      assert |a + b| == |a| + |b|;
    }
  }

  lemma {:induction false} CleanIsUnmarked(c: Config)
    requires CleanConfig(c)
    ensures Unmarked(c)
  {
    EntriesClean(c);
    forall e | e in Entries(c) ensures !Contains(e.value, END) {
      NoHash(e.value, END);
    }
  }

  /** After any number of updates of a file without a stray begin marker, reading gives what the last alone gives. */
  lemma {:induction false} UpdatesReadBack(content: string, configs: seq<Config>)
    requires configs != [] && !Contains(Base(content), BEGIN)
    requires forall i | 0 <= i < |configs| :: CleanConfig(configs[i])
    ensures var last := configs[|configs| - 1];
            var r := Read(Lines(Updates(content, configs), []));
            && r == Read(Lines(Update(content, last), []))
            && r.port == last.port && r.permitRootLogin == last.permitRootLogin
            && r.passwordAuthentication == last.passwordAuthentication && r.protocol == last.protocol
            && r.loginGraceTime == last.loginGraceTime && r.maxAuthTries == last.maxAuthTries
  {
    forall i | 0 <= i < |configs| ensures Unmarked(configs[i]) {
      CleanIsUnmarked(configs[i]);
    }
    LastUpdateWins(content, configs);
    ScalarsReadBack(content, configs[|configs| - 1]);
  }

  // ---------------------------------------------------------------------------
  // A file whose own text sets a list key

  lemma {:induction false} LoneLine(line: string)
    requires line != [] && Unbroken(line)
    ensures Lines(line, []) == [line]
  {
    LinesWhole(line, [], []);
    assert line + [] == line && [] + line == line;
  }

  lemma {:induction false} PlainBase(line: string)
    requires Clean(line)
    ensures Base(line) == line
  {
    NoHash(line, BEGIN);
    UnmarkedTextStays(line, BEGIN, END);
  }

  /** One user in the file's own text comes back with every update, whatever users are written. */
  lemma {:induction false} ListKeyExample(c: Config)
    requires CleanConfig(c)
    ensures Read(Lines(Update("AllowUsers alice", c), [])).allowUsers == ["alice"] + c.allowUsers
    ensures Read(Lines(Update("AllowUsers alice", c), [])) != c
  {
    var e := Entry("AllowUsers", "alice");
    var line := "AllowUsers" + " " + "alice";
    assert "AllowUsers alice" == line;
    LettersAreWord("AllowUsers");
    LettersAreWord("alice");
    WordsOfJoin(["alice"]);
    LowerListKeywords();
    LineOfEntry(e);
    CleanJoin("AllowUsers", "alice");
    PlainBase(line);
    LoneLine(line);
    ValuesSingle(line, "allowusers");
    LineValuesOf(line, LineSetting(line), "allowusers");
    ListsReadBack(line, c);
    PrefixGone(["alice"], c.allowUsers);
  }

  // ---------------------------------------------------------------------------
  // Defaults, comments and space

  /** What is read from a file that sets nothing. */
  lemma {:induction false} ReadDefaults()
    ensures Read([]) == Config("22", "no", "yes", "2", "120", "6", [], [], ["0.0.0.0"])
  {
  }

  /** The line ends, and the further characters that count as space. */
  lemma {:induction false} WhiteSpace(c: char)
    ensures IsBreak(c) <==> c in {'\n', '\U{b}', '\U{c}', '\r', '\U{1c}', '\U{1d}', '\U{1e}',
                                  '\U{85}', '\U{2028}', '\U{2029}'}
    ensures IsSpace(c) <==>
              || IsBreak(c)
              || c in {' ', '\t', '\U{1f}', '\U{a0}', '\U{1680}', '\U{202f}', '\U{205f}', '\U{3000}'}
              || 0x2000 <= c as int <= 0x200a
  {
  }

  /** Keys are compared without regard to the case of their letters. */
  lemma {:induction false} LowerMeaning(s: string, i: nat)
    requires i < |s|
    ensures var upper, lower := "ABCDEFGHIJKLMNOPQRSTUVWXYZ", "abcdefghijklmnopqrstuvwxyz";
            && |Lower(s)| == |s|
            && (forall k | 0 <= k < 26 && s[i] == upper[k] :: Lower(s)[i] == lower[k])
            && (s[i] !in upper ==> Lower(s)[i] == s[i])
  {
    var upper, lower := "ABCDEFGHIJKLMNOPQRSTUVWXYZ", "abcdefghijklmnopqrstuvwxyz";
    assert forall k | 0 <= k < 26 :: upper[k] as int == 'A' as int + k && lower[k] as int == 'a' as int + k;
    if 'A' <= s[i] <= 'Z' {
      assert upper[s[i] as int - 'A' as int] == s[i];
    }
  }

  lemma {:induction false} TrimRightUpTo(a: string, t: string)
    requires t != [] && !IsSpace(t[0])
    ensures var r := TrimRight(a + t); |r| > |a| && r[..|a|] == a && r[|a|] == t[0]
    decreases |t|
  {
    var s := a + t;
    if IsSpace(s[|s| - 1]) {
      var shorter := t[..|t| - 1];
      assert s[..|s| - 1] == a + shorter;
      assert shorter != [] && shorter[0] == t[0];
      TrimRightUpTo(a, shorter);
    }
  }

  lemma {:induction false} BeforeHash(a: string, t: string)
    requires t != [] && t[0] == '#' && forall i | 0 <= i < |a| :: a[i] != '#'
    ensures Before(a + t, IsHash) == a
  {
    var r := Before(a + t, IsHash);
    assert (a + t)[|a|] == '#';
    assert |r| == |a|;
  }

  /** A comment at the end of a line changes nothing, and a line that is all comment sets nothing. */
  lemma {:induction false} CommentIgnored(line: string, comment: string)
    requires forall i | 0 <= i < |line| :: line[i] != '#'
    ensures LineSetting(line + ("#" + comment)) == LineSetting(line)
  {
    var t, a := "#" + comment, TrimLeft(line);
    TrimLeftAppend(line, t);
    TrimRightUpTo(a, t);
    var whole := Strip(line + t);
    TrimLeftPart(line);
    assert forall i | 0 <= i < |a| :: a[i] in a;
    var rest := whole[|a|..];
    assert whole == a + rest && rest[0] == '#';
    BeforeHash(a, rest);
    assert Uncommented(line + t) == Strip(a) by {
      if a == [] {
        assert whole[0] == '#';
      }
    }
    assert TrimLeft(a) == a;
    PlainLine(line);
  }

  lemma {:induction false} PlainLine(line: string)
    requires forall i | 0 <= i < |line| :: line[i] != '#'
    ensures Uncommented(line) == Strip(line)
  {
    var s := Strip(line);
    StripPart(line);
    assert |Before(s, IsHash)| == |s|;
    if s != [] {
      assert s[0] == TrimLeft(line)[0];
      StripTight(s);
    }
  }

  lemma {:induction false} StripPart(line: string)
    ensures forall i | 0 <= i < |Strip(line)| :: Strip(line)[i] in line
  {
    TrimLeftPart(line);
    var t := TrimLeft(line);
    forall i | 0 <= i < |Strip(line)| ensures Strip(line)[i] in line {
      assert t[i] in t;
    }
  }

  lemma {:induction false} TrimLeftPart(s: string)
    ensures forall c | c in TrimLeft(s) :: c in s
  {
    if s != [] && IsSpace(s[0]) {
      TrimLeftPart(s[1..]);
    }
  }

  /** Space around a line changes nothing. */
  lemma {:induction false} SpaceIgnored(line: string, space: char)
    requires IsSpace(space)
    ensures LineSetting([space] + line) == LineSetting(line) && LineSetting(line + [space]) == LineSetting(line)
  {
    assert ([space] + line)[1..] == line;
    assert Strip([space] + line) == Strip(line);
    TrimSpaceAfter(line, space);
  }

  lemma {:induction false} TrimSpaceAfter(line: string, space: char)
    requires IsSpace(space)
    ensures Strip(line + [space]) == Strip(line)
  {
    if line == [] {
      assert line + [space] == [space] && [space][1..] == [];
    } else if IsSpace(line[0]) {
      assert (line + [space])[1..] == line[1..] + [space];
      TrimSpaceAfter(line[1..], space);
    } else {
      assert (line + [space])[..|line|] == line;
    }
  }

  /** Only the list keys are split; any other value is taken whole. */
  lemma {:induction false} ListKeysExactly(key: string)
    ensures IsListKey(key) <==> key in {"allowusers", "allowgroups", "listenaddress", "include"}
  {
  }
}
