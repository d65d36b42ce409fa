/** The whole update of sshd_config: read, merge, write (gateway/service/FirewallService.py, updateSshConfig). */
module SshUpdate {
  import opened Wrappers
  import opened SshBlock
  import opened SshConfig

  // ---------------------------------------------------------------------------
  // What is read can be written

  lemma {:induction false} StripPart(s: string)
    ensures forall c | c in Strip(s) :: c in s
    ensures var r := Strip(s); r != [] ==> !IsSpace(r[0]) && !IsSpace(r[|r| - 1])
  {
    TrimLeftPart(s);
    var t := TrimLeft(s);
    var r := TrimRight(t);
    assert forall c | c in r :: c in t;
    assert r != [] ==> r[0] == t[0];
  }

  /** No comment sign and no line boundary. */
  ghost predicate Tidy(s: string) {
    forall c | c in s :: c != '#' && !IsBreak(c)
  }

  lemma {:induction false} UncommentedTidy(line: string)
    requires Unbroken(line)
    ensures Tidy(Uncommented(line))
  {
    StripPart(line);
    var stripped := Strip(line);
    var text := Before(stripped, IsHash);
    assert forall c | c in text :: c in stripped && !IsHash(c);
    StripPart(text);
  }

  lemma {:induction false} WordsTidy(s: string)
    requires Tidy(s)
    ensures forall w | w in Words(s) :: IsWord(w)
    decreases |s|
  {
    var t := TrimLeft(s);
    TrimLeftPart(s);
    if t != [] {
      var word := Before(t, IsSpace);
      assert forall i | 0 <= i < |word| :: word[i] in t;
      var rest := t[|word|..];
      assert forall c | c in rest :: c in t;
      WordsTidy(rest);
    }
  }

  ghost predicate Writeable(key: string, v: string) {
    if IsListKey(key) then IsWord(v) else Clean(v)
  }

  lemma {:induction false} ValueWriteable(rest: string)
    requires Tidy(rest)
    ensures Strip(rest) != [] ==> Clean(Strip(rest))
    ensures forall w | w in Words(Strip(rest)) :: IsWord(w)
  {
    StripPart(rest);
    var value := Strip(rest);
    WordsTidy(value);
    assert forall i | 0 <= i < |value| :: value[i] in value;
  }

  lemma {:induction false} SettingWriteable(text: string)
    requires Tidy(text)
    ensures var s := SettingIn(text); s.Some? ==> forall v | v in s.value.values :: Writeable(s.value.key, v)
  {
    var rest := text[|Before(text, IsSpace)|..];
    assert forall c | c in rest :: c in text;
    ValueWriteable(rest);
  }

  lemma {:induction false} ValuesWriteable(lines: seq<string>, key: string)
    requires forall i | 0 <= i < |lines| :: Unbroken(lines[i])
    ensures forall v | v in Values(lines, key) :: Writeable(key, v)
  {
    if lines != [] {
      ValuesWriteable(lines[1..], key);
      UncommentedTidy(lines[0]);
      SettingWriteable(Uncommented(lines[0]));
    }
  }

  lemma {:induction false} LinesUnbroken(text: string, current: string)
    requires Unbroken(current)
    ensures forall i | 0 <= i < |Lines(text, current)| :: Unbroken(Lines(text, current)[i])
    decreases |text|
  {
    if text != [] {
      if !IsBreak(text[0]) {
        LinesUnbroken(text[1..], current + [text[0]]);
      } else if text[0] == '\r' && |text| > 1 && text[1] == '\n' {
        LinesUnbroken(text[2..], []);
      } else {
        LinesUnbroken(text[1..], []);
      }
    }
  }

  lemma {:induction false} PlainIsClean(v: string)
    requires v != [] && forall i | 0 <= i < |v| :: '-' <= v[i] <= 'z'
    ensures Clean(v) && IsWord(v)
  {
  }

  lemma {:induction false} LastClean(lines: seq<string>, key: string, default: string)
    requires (forall i | 0 <= i < |lines| :: Unbroken(lines[i])) && !IsListKey(key) && Clean(default)
    ensures Clean(Last(Values(lines, key), default))
  {
    ValuesWriteable(lines, key);
    var values := Values(lines, key);
    if values != [] {
      var last := values[|values| - 1];
      assert last in values;
      assert Writeable(key, last);
    }
  }

  lemma {:induction false} ListWords(lines: seq<string>, key: string)
    requires (forall i | 0 <= i < |lines| :: Unbroken(lines[i])) && IsListKey(key)
    ensures forall i | 0 <= i < |Values(lines, key)| :: IsWord(Values(lines, key)[i])
  {
    ValuesWriteable(lines, key);
    assert forall i | 0 <= i < |Values(lines, key)| :: Values(lines, key)[i] in Values(lines, key);
  }

  lemma {:induction false} DefaultsClean()
    ensures Clean("22") && Clean("no") && Clean("yes") && Clean("2") && Clean("120") && Clean("6") && IsWord("0.0.0.0")
  {
    PlainIsClean("22");
    PlainIsClean("no");
    PlainIsClean("yes");
    PlainIsClean("2");
    PlainIsClean("120");
    PlainIsClean("6");
    PlainIsClean("0.0.0.0");
  }

  /** Whatever the file holds, the configuration read from it can be written. */
  lemma {:induction false} ReadIsClean(content: string)
    ensures CleanConfig(Read(Lines(content, [])))
  {
    var lines := Lines(content, []);
    LinesUnbroken(content, []);
    DefaultsClean();
    LastClean(lines, "port", "22");
    LastClean(lines, "permitrootlogin", "no");
    LastClean(lines, "passwordauthentication", "yes");
    LastClean(lines, "protocol", "2");
    LastClean(lines, "logingracetime", "120");
    LastClean(lines, "maxauthtries", "6");
    ListWords(lines, "allowusers");
    ListWords(lines, "allowgroups");
    ListWords(lines, "listenaddress");
  }

  // ---------------------------------------------------------------------------
  // Updating what was read

  /** A change request: fields left out keep what the file gives. */
  datatype Change = Change(
    port: Option<string>, permitRootLogin: Option<string>, passwordAuthentication: Option<string>,
    protocol: Option<string>, loginGraceTime: Option<string>, maxAuthTries: Option<string>,
    allowUsers: Option<seq<string>>, allowGroups: Option<seq<string>>, listenAddress: Option<seq<string>>)

  const NO_CHANGE := Change(None, None, None, None, None, None, None, None, None)

  function Or<T>(change: Option<T>, current: T): T {
    if change.Some? then change.value else current
  }

  function Merge(current: Config, change: Change): Config {
    Config(
      Or(change.port, current.port),
      Or(change.permitRootLogin, current.permitRootLogin),
      Or(change.passwordAuthentication, current.passwordAuthentication),
      Or(change.protocol, current.protocol),
      Or(change.loginGraceTime, current.loginGraceTime),
      Or(change.maxAuthTries, current.maxAuthTries),
      Or(change.allowUsers, current.allowUsers),
      Or(change.allowGroups, current.allowGroups),
      Or(change.listenAddress, current.listenAddress))
  }

  /** `updateSshConfig` on a file without Include lines: read, merge, write. */
  function UpdateSshConfig(content: string, change: Change): string {
    Update(content, Merge(Read(Lines(content, [])), change))
  }

  ghost predicate CleanText(change: Option<string>) {
    change.Some? ==> Clean(change.value)
  }

  ghost predicate CleanList(change: Option<seq<string>>) {
    change.Some? ==> forall i | 0 <= i < |change.value| :: IsWord(change.value[i])
  }

  /** Every given value can be written. */
  ghost predicate CleanChange(change: Change) {
    && CleanText(change.port) && CleanText(change.permitRootLogin) && CleanText(change.passwordAuthentication)
    && CleanText(change.protocol) && CleanText(change.loginGraceTime) && CleanText(change.maxAuthTries)
    && CleanList(change.allowUsers) && CleanList(change.allowGroups) && CleanList(change.listenAddress)
  }

  ghost predicate NoListKeys(text: string) {
    var lines := Lines(text, []);
    Values(lines, "allowusers") == [] && Values(lines, "allowgroups") == [] && Values(lines, "listenaddress") == []
  }

  /** A change takes effect exactly as merged when the kept text sets no list key and an address is left. */
  lemma {:induction false} ChangeReadsBackIff(content: string, change: Change)
    requires CleanChange(change)
    ensures var merged := Merge(Read(Lines(content, [])), change);
            Read(Lines(UpdateSshConfig(content, change), [])) == merged <==>
            NoListKeys(Base(content)) && merged.listenAddress != []
  {
    ReadIsClean(content);
    ReadBackIff(content, Merge(Read(Lines(content, [])), change));
  }

  /** Whatever the file holds, each scalar reads back as requested, or as it read before if nothing was requested. */
  lemma {:induction false} ScalarsChange(content: string, change: Change)
    requires CleanChange(change)
    ensures var before, after := Read(Lines(content, [])), Read(Lines(UpdateSshConfig(content, change), []));
            && after.port == Or(change.port, before.port)
            && after.permitRootLogin == Or(change.permitRootLogin, before.permitRootLogin)
            && after.passwordAuthentication == Or(change.passwordAuthentication, before.passwordAuthentication)
            && after.protocol == Or(change.protocol, before.protocol)
            && after.loginGraceTime == Or(change.loginGraceTime, before.loginGraceTime)
            && after.maxAuthTries == Or(change.maxAuthTries, before.maxAuthTries)
  {
    ReadIsClean(content);
    ScalarsReadBack(content, Merge(Read(Lines(content, [])), change));
  }

  /** Each list reads back as the kept text's items followed by those requested, or by those read before. */
  lemma {:induction false} ListsChange(content: string, change: Change)
    requires CleanChange(change)
    ensures var kept, before := Lines(Base(content), []), Read(Lines(content, []));
            var after := Lines(UpdateSshConfig(content, change), []);
            && Values(after, "allowusers") == Values(kept, "allowusers") + Or(change.allowUsers, before.allowUsers)
            && Values(after, "allowgroups") == Values(kept, "allowgroups") + Or(change.allowGroups, before.allowGroups)
            && Values(after, "listenaddress") ==
               Values(kept, "listenaddress") + Or(change.listenAddress, before.listenAddress)
  {
    ReadIsClean(content);
    ListsReadBack(content, Merge(Read(Lines(content, [])), change));
  }

  /** Reading a requested value: what `Or` means. */
  lemma {:induction false} RequestedOrKept<T>(x: T, current: T)
    ensures Or(Some(x), current) == x && Or(None, current) == current
  {
  }

  /** An update that changes nothing leaves what is read unchanged exactly when the kept text sets no list key. */
  lemma {:induction false} NoChangeIff(content: string)
    ensures Read(Lines(UpdateSshConfig(content, NO_CHANGE), [])) == Read(Lines(content, [])) <==>
            NoListKeys(Base(content))
  {
    var current := Read(Lines(content, []));
    assert Merge(current, NO_CHANGE) == current;
    ReadIsClean(content);
    ReadBackIff(content, current);
  }

  /** How many users a text lists. */
  function Users(text: string): nat {
    |Values(Lines(text, []), "allowusers")|
  }

  /** The text kept by updates, with no stray begin marker in it. */
  ghost predicate Keeps(content: string, base: string) {
    Base(content) == base && !Contains(base, BEGIN)
  }

  /** The next text is what an update without changes writes. */
  ghost predicate Follows(next: string, content: string) {
    next == UpdateSshConfig(content, NO_CHANGE)
  }

  lemma {:induction false} NoChangeOnce(content: string, base: string)
    requires Keeps(content, base)
    ensures var next := UpdateSshConfig(content, NO_CHANGE);
            Keeps(next, base) && Users(next) == Users(base) + Users(content)
  {
    var current := Read(Lines(content, []));
    assert Merge(current, NO_CHANGE) == current;
    ReadIsClean(content);
    CleanIsUnmarked(current);
    RemoveUndoesUpdateIff(content, current);
    ListsReadBack(content, current);
  }

  /** A count that grows by the same step with every text of a run. */
  lemma {:induction false} Growth(texts: seq<string>, keeps: string -> bool, count: string -> nat, step: nat, n: nat)
    requires n < |texts| && keeps(texts[0])
    requires forall i | 0 < i < |texts| && keeps(texts[i - 1]) ::
               keeps(texts[i]) && count(texts[i]) == step + count(texts[i - 1])
    ensures keeps(texts[n]) && count(texts[n]) == count(texts[0]) + n * step
    decreases n
  {
    if n > 0 {
      Growth(texts, keeps, count, step, n - 1);
      assert n * step == step + (n - 1) * step;
    }
  }

  /** Otherwise each such update adds the kept text's users to the list once more. */
  lemma {:induction false} NoChangeGrows(texts: seq<string>, base: string, n: nat)
    requires n < |texts| && Keeps(texts[0], base)
    requires forall i | 0 < i < |texts| :: Follows(texts[i], texts[i - 1])
    ensures Users(texts[n]) == Users(texts[0]) + n * Users(base)
  {
    var keeps := text => Keeps(text, base);
    forall i | 0 < i < |texts| && keeps(texts[i - 1])
      ensures keeps(texts[i]) && Users(texts[i]) == Users(base) + Users(texts[i - 1])
    {
      NoChangeOnce(texts[i - 1], base);
    }
    Growth(texts, keeps, Users, Users(base), n);
  }
}
