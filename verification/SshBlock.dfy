/** The panel-managed block of sshd_config as text (gateway/service/FirewallService.py). */
module SshBlock {
  import opened Wrappers

  const BEGIN := "# PANEL_MANAGED_BEGIN"
  const END := "# PANEL_MANAGED_END"

  /** The characters that `str.strip`, `str.split` and the regular expression class `\s` treat as white space. */
  predicate IsSpace(c: char) {
    || '\t' <= c <= '\r'
    || '\U{1c}' <= c <= ' '
    || c == '\U{85}' || c == '\U{a0}' || c == '\U{1680}'
    || '\U{2000}' <= c <= '\U{200a}'
    || c == '\U{2028}' || c == '\U{2029}' || c == '\U{202f}' || c == '\U{205f}' || c == '\U{3000}'
  }

  function TrimLeft(s: string): (r: string)
    ensures |r| <= |s|
    ensures r != [] ==> !IsSpace(r[0])
  {
    if s != [] && IsSpace(s[0]) then TrimLeft(s[1..]) else s
  }

  function TrimRight(s: string): (r: string)
    ensures |r| <= |s| && r == s[..|r|]
    ensures r != [] ==> !IsSpace(r[|r| - 1])
    ensures s != [] && !IsSpace(s[|s| - 1]) ==> r == s
  {
    if s != [] && IsSpace(s[|s| - 1]) then TrimRight(s[..|s| - 1]) else s
  }

  predicate StartsWith(s: string, mark: string) {
    |mark| <= |s| && s[..|mark|] == mark
  }

  /** What follows the first occurrence of the mark. */
  function AfterMark(s: string, mark: string): (r: Option<string>)
    ensures r.Some? ==> |r.value| + |mark| <= |s|
  {
    if StartsWith(s, mark) then Some(s[|mark|..])
    else if s == [] then None
    else AfterMark(s[1..], mark)
  }

  predicate Contains(s: string, mark: string) {
    AfterMark(s, mark).Some?
  }

  /** `_removeManagedSshBlock`: takes out begin markers with the shortest text to an end marker, and space after it. */
  function WithoutBlocks(content: string, begin: string, end: string): (r: string)
    requires begin != []
    decreases |content|
  {
    if content == [] then []
    else if StartsWith(content, begin) && Contains(content[|begin|..], end) then
      WithoutBlocks(TrimLeft(AfterMark(content[|begin|..], end).value), begin, end)
    else
      [content[0]] + WithoutBlocks(content[1..], begin, end)
  }

  function Join(separator: string, items: seq<string>): string {
    if items == [] then ""
    else if |items| == 1 then items[0]
    else items[0] + separator + Join(separator, items[1..])
  }

  /** The merged configuration, its numbers already written out. */
  datatype Config = Config(
    port: string, permitRootLogin: string, passwordAuthentication: string,
    protocol: string, loginGraceTime: string, maxAuthTries: string,
    allowUsers: seq<string>, allowGroups: seq<string>, listenAddress: seq<string>)

  /** A keyword and its value. */
  datatype Entry = Entry(keyword: string, value: string)

  function ListEntry(keyword: string, items: seq<string>): seq<Entry> {
    if items == [] then [] else [Entry(keyword, Join(" ", items))]
  }

  function Scalars(c: Config): seq<Entry> {
    [ Entry("Port", c.port), Entry("PermitRootLogin", c.permitRootLogin),
      Entry("PasswordAuthentication", c.passwordAuthentication), Entry("Protocol", c.protocol),
      Entry("LoginGraceTime", c.loginGraceTime), Entry("MaxAuthTries", c.maxAuthTries) ]
  }

  function Lists(c: Config): seq<Entry> {
    ListEntry("AllowUsers", c.allowUsers) + ListEntry("AllowGroups", c.allowGroups)
    + ListEntry("ListenAddress", c.listenAddress)
  }

  function Entries(c: Config): seq<Entry> {
    Scalars(c) + Lists(c)
  }

  function Written(entries: seq<Entry>): seq<string> {
    seq(|entries|, i requires 0 <= i < |entries| => entries[i].keyword + " " + entries[i].value)
  }

  /** `_bulidMangedSshBlock`. */
  function Block(c: Config): string {
    Join("\n", [BEGIN] + Written(Entries(c)) + [END])
  }

  function Kept(content: string, begin: string, end: string): string
    requires begin != []
  {
    TrimRight(WithoutBlocks(content, begin, end))
  }

  /** The part of a file that an update keeps. */
  function Base(content: string): string {
    Kept(content, BEGIN, END)
  }

  /** The text that `updateSshConfig` writes. */
  function Update(content: string, c: Config): string {
    Base(content) + "\n\n" + Block(c) + "\n"
  }

  // ---------------------------------------------------------------------------
  // Searching for a marker

  /** No occurrence of the mark can run across a position holding c. */
  ghost predicate Barrier(c: char, mark: string) {
    |mark| > 0 && forall i | 0 < i < |mark| :: mark[i] != c
  }

  /** Two different markers that can only occur apart: each has one '#', at its start, and no line break. */
  ghost predicate Markers(begin: string, end: string) {
    && Barrier('#', begin) && Barrier('\n', begin) && begin[0] == '#'
    && Barrier('#', end) && Barrier('\n', end) && end[0] == '#'
    && !StartsWith(begin, end)
  }

  lemma {:induction false} PanelMarkers()
    ensures Markers(BEGIN, END)
  {
    assert BEGIN[16] == 'B' && END[16] == 'E';
  }

  /** A text without '#' holds no marker. */
  lemma {:induction false} NoHash(s: string, mark: string)
    requires mark != [] && mark[0] == '#' && forall i | 0 <= i < |s| :: s[i] != '#'
    ensures AfterMark(s, mark) == None
  {
    if s != [] {
      NoHash(s[1..], mark);
    }
  }

  lemma {:induction false} AfterMarkAppend(s: string, t: string, mark: string)
    requires t != [] && Barrier(t[0], mark)
    ensures AfterMark(s + t, mark) ==
            if Contains(s, mark) then Some(AfterMark(s, mark).value + t) else AfterMark(t, mark)
  {
    if s == [] {
      assert s + t == t;
    } else {
      StartsAppend(s, t, mark);
      if StartsWith(s, mark) {
        assert (s + t)[|mark|..] == s[|mark|..] + t;
      } else {
        assert (s + t)[1..] == s[1..] + t;
        AfterMarkAppend(s[1..], t, mark);
      }
    }
  }

  lemma {:induction false} StartsAppend(s: string, t: string, mark: string)
    requires s != [] && t != [] && Barrier(t[0], mark)
    ensures StartsWith(s + t, mark) <==> StartsWith(s, mark)
  {
    assert (s + t)[|s|] == t[0];
    if StartsWith(s + t, mark) {
      assert forall i | 0 <= i < |mark| :: mark[i] == (s + t)[i];
      assert s[..|mark|] == (s + t)[..|mark|];
    }
    if StartsWith(s, mark) {
      assert s[..|mark|] == (s + t)[..|mark|];
    }
  }

  lemma {:induction false} TrimLeftAppend(s: string, t: string)
    requires t != [] && !IsSpace(t[0])
    ensures TrimLeft(s + t) == TrimLeft(s) + t
  {
    if s == [] {
      assert s + t == t;
    } else if IsSpace(s[0]) {
      assert (s + t)[1..] == s[1..] + t;
      TrimLeftAppend(s[1..], t);
    }
  }

  // ---------------------------------------------------------------------------
  // Removing what was written

  /** The rest of a block after its begin marker, closed by the only end marker in it. */
  ghost predicate Sealed(rest: string, end: string) {
    rest != [] && rest[0] == '\n' && AfterMark(rest, end) == Some("\n")
  }

  lemma {:induction false} SealedBlock(rest: string, begin: string, end: string)
    requires Markers(begin, end) && Sealed(rest, end)
    ensures AfterMark(begin + rest, end) == Some("\n")
  {
    AfterMarkAppend(begin, rest, end);
    NoHash(begin[1..], end);
  }

  lemma {:induction false} OnlySpaceLeft(begin: string, end: string)
    requires begin != []
    ensures WithoutBlocks(TrimLeft("\n"), begin, end) == ""
  {
    assert "\n"[1..] == "";
  }

  /** A begin marker before the block takes what follows up to the next end marker, the block's own at the latest. */
  lemma {:induction false} RemoveFirst(s: string, rest: string, begin: string, end: string)
    requires Markers(begin, end) && Sealed(rest, end) && StartsWith(s, begin)
    ensures var found := AfterMark(s[|begin|..], end);
            WithoutBlocks(s + (begin + rest), begin, end) ==
            if found.Some? then WithoutBlocks(TrimLeft(found.value) + (begin + rest), begin, end) else ""
  {
    var t, q := begin + rest, s[|begin|..];
    var all := s + t;
    assert t[0] == '#' && all[..|begin|] == begin && all[|begin|..] == q + t;
    AfterMarkAppend(q, t, end);
    SealedBlock(rest, begin, end);
    if Contains(q, end) {
      TrimLeftAppend(AfterMark(q, end).value, t);
    } else {
      OnlySpaceLeft(begin, end);
    }
  }

  /** Text before a block survives its removal exactly when it holds no begin marker of its own. */
  lemma {:induction false} RemoveAfter(s: string, rest: string, begin: string, end: string)
    requires Markers(begin, end) && Sealed(rest, end)
    ensures !Contains(s, begin) ==> WithoutBlocks(s + (begin + rest), begin, end) == s
    ensures Contains(s, begin) ==> |WithoutBlocks(s + (begin + rest), begin, end)| + |begin| <= |s|
    decreases |s|
  {
    var t := begin + rest;
    var all := s + t;
    assert t[0] == '#';
    OnlySpaceLeft(begin, end);
    if s == [] {
      assert all == t;
      assert t[..|begin|] == begin && t[|begin|..] == rest;
    } else {
      StartsAppend(s, t, begin);
      if StartsWith(s, begin) {
        RemoveFirst(s, rest, begin, end);
        var found := AfterMark(s[|begin|..], end);
        if found.Some? {
          RemoveAfter(TrimLeft(found.value), rest, begin, end);
        }
      } else {
        assert all[1..] == s[1..] + t;
        RemoveAfter(s[1..], rest, begin, end);
      }
    }
  }

  /** A text without the begin marker is left alone. */
  lemma {:induction false} UnmarkedTextStays(content: string, begin: string, end: string)
    requires begin != [] && !Contains(content, begin)
    ensures WithoutBlocks(content, begin, end) == content
  {
    if content != [] {
      UnmarkedTextStays(content[1..], begin, end);
    }
  }

  // ---------------------------------------------------------------------------
  // The block of a configuration

  /** Every line with a line break in front. */
  function Lead(lines: seq<string>): string {
    if lines == [] then "" else "\n" + lines[0] + Lead(lines[1..])
  }

  lemma {:induction false} JoinLead(first: string, lines: seq<string>)
    ensures Join("\n", [first] + lines) == first + Lead(lines)
    decreases |lines|
  {
    var all := [first] + lines;
    assert all[1..] == lines;
    if lines != [] {
      assert [lines[0]] + lines[1..] == lines;
      JoinLead(lines[0], lines[1..]);
      Assoc(first, "\n", lines[0] + Lead(lines[1..]));
      Assoc("\n", lines[0], Lead(lines[1..]));
    }
  }

  lemma {:induction false} SealedLead(lines: seq<string>, end: string)
    requires Barrier('\n', end) && end[0] == '#'
    requires forall i | 0 <= i < |lines| :: !Contains(lines[i], end)
    ensures Sealed(Lead(lines + [end]) + "\n", end)
  {
    var all := lines + [end];
    var rest := Lead(all[1..]) + "\n";
    var head := "\n" + all[0];
    assert Lead(all) + "\n" == head + rest;
    AfterMarkAppend(head, rest, end);
    assert head[1..] == all[0];
    assert !StartsWith(head, end);
    if lines == [] {
      assert end[|end|..] == "";
    } else {
      assert all[1..] == lines[1..] + [end];
      SealedLead(lines[1..], end);
    }
  }

  /** No value holds the end marker. */
  ghost predicate Unmarked(c: Config) {
    forall e | e in Entries(c) :: !Contains(e.value, END)
  }

  ghost predicate KnownKeyword(word: string) {
    word in {"Port", "PermitRootLogin", "PasswordAuthentication", "Protocol", "LoginGraceTime", "MaxAuthTries",
             "AllowUsers", "AllowGroups", "ListenAddress"}
  }

  lemma {:induction false} KeywordsKnown(c: Config)
    ensures forall e | e in Entries(c) :: KnownKeyword(e.keyword)
  {
  }

  /** Marks that start with '#' are found in "keyword value" exactly where they are found in the value. */
  lemma {:induction false} PastKeyword(word: string, value: string, mark: string)
    requires mark != [] && mark[0] == '#' && forall i | 0 <= i < |word| :: word[i] != '#'
    ensures AfterMark(word + value, mark) == AfterMark(value, mark)
  {
    if word == [] {
      assert word + value == value;
    } else {
      assert (word + value)[1..] == word[1..] + value;
      assert (word + value)[0] == word[0];
      PastKeyword(word[1..], value, mark);
    }
  }

  lemma {:induction false} EntryLine(e: Entry)
    requires KnownKeyword(e.keyword) && !Contains(e.value, END)
    ensures !Contains(e.keyword + " " + e.value, END)
  {
    PastKeyword(e.keyword + " ", e.value, END);
  }

  lemma {:induction false} BlockSealed(c: Config)
    requires Unmarked(c)
    ensures var rest := Lead(Written(Entries(c)) + [END]) + "\n";
            Sealed(rest, END) && Block(c) + "\n" == BEGIN + rest
  {
    var lines := Written(Entries(c));
    KeywordsKnown(c);
    forall i | 0 <= i < |lines| ensures !Contains(lines[i], END) {
      assert Entries(c)[i] in Entries(c);
      EntryLine(Entries(c)[i]);
    }
    PanelMarkers();
    SealedLead(lines, END);
    Assoc([BEGIN], lines, [END]);
    JoinLead(BEGIN, lines + [END]);
  }

  // ---------------------------------------------------------------------------
  // The lens laws

  lemma {:induction false} TrimBreaks(s: string)
    requires s != [] ==> !IsSpace(s[|s| - 1])
    ensures TrimRight(s + "\n\n") == s
  {
    var one, two := s + "\n", s + "\n\n";
    assert TrimRight(one) == s by {
      assert one[..|s|] == s;
    }
    assert two[..|two| - 1] == one;
  }

  /** For any longer markers, a block after a text goes without a trace exactly if that text has no begin marker. */
  lemma {:induction false} KeptBeforeBlockIff(base: string, rest: string, begin: string, end: string)
    requires Markers(begin, end) && |begin| > 2 && Sealed(rest, end)
    requires base != [] ==> !IsSpace(base[|base| - 1])
    ensures Kept(base + "\n\n" + (begin + rest), begin, end) == base <==> !Contains(base, begin)
  {
    var kept := WithoutBlocks(base + "\n\n" + (begin + rest), begin, end);
    RemoveAfter(base + "\n\n", rest, begin, end);
    assert |TrimRight(kept)| <= |kept|;
    AfterMarkAppend(base, "\n\n", begin);
    NoHash("\n\n", begin);
    TrimBreaks(base);
  }

  /** Removing a freshly written block and trimming gives the kept text back exactly if it has no stray begin marker. */
  lemma {:induction false} RemoveUndoesUpdateIff(content: string, c: Config)
    requires Unmarked(c)
    ensures Base(Update(content, c)) == Base(content) <==> !Contains(Base(content), BEGIN)
  {
    var base := Base(content);
    var rest := Lead(Written(Entries(c)) + [END]) + "\n";
    BlockSealed(c);
    PanelMarkers();
    Assoc(base + "\n\n", Block(c), "\n");
    KeptBeforeBlockIff(base, rest, BEGIN, END);
  }

  lemma {:induction false} SameTail(x: string, y: string, a: string, b: string, c: string)
    ensures x + a + b + c == y + a + b + c <==> x == y
  {
    var tail := a + b + c;
    assert x + a + b + c == x + tail && y + a + b + c == y + tail;
    if x + tail == y + tail {
      assert (x + tail)[..|x|] == x && (y + tail)[..|y|] == y;
    }
  }

  /** A second update overwrites the first exactly under the same condition. */
  lemma {:induction false} UpdateTwiceIff(content: string, c: Config, d: Config)
    requires Unmarked(c)
    ensures Update(Update(content, c), d) == Update(content, d) <==> !Contains(Base(content), BEGIN)
  {
    RemoveUndoesUpdateIff(content, c);
    var x, y := Base(Update(content, c)), Base(content);
    SameTail(x, y, "\n\n", Block(d), "\n");
  }

  function Updates(content: string, configs: seq<Config>): string
    decreases |configs|
  {
    if configs == [] then content else Updates(Update(content, configs[0]), configs[1..])
  }

  /** Any number of updates of a file without a stray begin marker leave what the last one alone would. */
  lemma {:induction false} LastUpdateWins(content: string, configs: seq<Config>)
    requires configs != [] && !Contains(Base(content), BEGIN)
    requires forall i | 0 <= i < |configs| :: Unmarked(configs[i])
    ensures Updates(content, configs) == Update(content, configs[|configs| - 1])
    decreases |configs|
  {
    if |configs| > 1 {
      var next := Update(content, configs[0]);
      RemoveUndoesUpdateIff(content, configs[0]);
      LastUpdateWins(next, configs[1..]);
    } else {
      assert configs[1..] == [];
    }
  }

  lemma {:induction false} BeginAlone(begin: string, end: string)
    requires Markers(begin, end)
    ensures WithoutBlocks(begin, begin, end) == begin && Contains(begin, begin)
  {
    assert begin[|begin|..] == "" && begin[..|begin|] == begin;
    NoHash(begin[1..], begin);
    UnmarkedTextStays(begin[1..], begin, end);
  }

  /** A file that is one begin marker loses it: the new block's end marker closes it. */
  lemma {:induction false} StrayBeginLosesText(c: Config)
    requires Unmarked(c)
    ensures Base(BEGIN) == BEGIN && Base(Update(BEGIN, c)) != BEGIN
  {
    assert Base(BEGIN) == BEGIN && Contains(BEGIN, BEGIN) by {
      PanelMarkers();
      BeginAlone(BEGIN, END);
    }
    RemoveUndoesUpdateIff(BEGIN, c);
  }
}
