/** The one-liner an operator pastes into a root shell on a fresh node. */
module InstallCommand {
  import opened Wrappers
  import opened Shell
  import opened Text

  /** The characters that need no quoting in a shell word. */
  predicate IsSafe(c: char) {
    'A' <= c <= 'Z' || 'a' <= c <= 'z' || '0' <= c <= '9' || c in "@%_+=:,./[]-"
  }

  predicate AllSafe(s: string) {
    forall i | 0 <= i < |s| :: IsSafe(s[i])
  }

  /** Embedded single quotes end the quotation, add a quoted quote, and start it again. */
  function Escaped(s: string): string {
    if s == "" then ""
    else (if s[0] == '\'' then "'\\''" else [s[0]]) + Escaped(s[1..])
  }

  function ShellQuote(value: string): string {
    if value == "" then "''"
    else if AllSafe(value) then value
    else "'" + Escaped(value) + "'"
  }

  function Trim(s: string): string {
    TrimBy(s, IsJsSpace)
  }

  function Arguments(addr: string, key: string, preferIPv6: bool): string {
    ShellQuote(addr) + " " + ShellQuote(key) + (if preferIPv6 then " --prefer-ipv6" else "")
  }

  function BuildInstallCommand(controllerAddr: string, nodeKey: string, scriptUrl: string, preferIPv6: bool): string {
    var addr, key, url := Trim(controllerAddr), Trim(nodeKey), Trim(scriptUrl);
    if addr == "" || key == "" || url == "" then ""
    else "curl -fsSL " + ShellQuote(url) + " | sudo bash -s -- " + Arguments(addr, key, preferIPv6)
  }

  // ----- quoting is undone

  lemma GrownTwice(word: Option<string>, first: string, second: string)
    ensures Grown(Grown(word, first), second) == Grown(word, first + second)
    ensures Grown(None, first) == Some(first)
  {
    var value := if word.Some? then word.value else "";
    assert value + first + second == value + (first + second);
    assert "" + first == first;
  }

  /** Safe characters mean nothing to the shell. */
  lemma SafeIsPlain(c: char)
    requires IsSafe(c)
    ensures c !in "\\'\"$`#" && c !in OPERATOR_STARTS && c !in BLANKS
  {
  }

  lemma SafeCharRead(c: char, rest: string, word: Option<string>)
    requires IsSafe(c)
    ensures Tokens([c] + rest, word) == Tokens(rest, Grown(word, [c]))
  {
    SafeIsPlain(c);
    PlainCharRead(c, rest, word);
  }

  lemma PlainCharRead(c: char, rest: string, word: Option<string>)
    requires c !in "\\'\"$`#" && c !in OPERATOR_STARTS && c !in BLANKS
    ensures Tokens([c] + rest, word) == Tokens(rest, Grown(word, [c]))
  {
    assert ([c] + rest)[1..] == rest;
  }

  lemma {:induction false} SafeRead(value: string, rest: string, word: Option<string>)
    requires value != "" && AllSafe(value)
    ensures Tokens(value + rest, word) == Tokens(rest, Grown(word, value))
    decreases |value|
  {
    var tail := value[1..];
    assert value == [value[0]] + tail;
    assert value + rest == [value[0]] + (tail + rest);
    SafeCharRead(value[0], tail + rest, word);
    if tail == "" {
      assert tail + rest == rest;
    } else {
      SafeRead(tail, rest, Grown(word, [value[0]]));
      GrownTwice(word, [value[0]], tail);
    }
  }

  lemma {:induction false} FindsFirst(line: string, c: char, n: nat)
    requires n < |line| && line[n] == c && c !in line[..n]
    ensures Find(line, c) == n
  {
    if n > 0 {
      assert line[0] in line[..n] && line[1..][..n - 1] == line[..n][1..];
      FindsFirst(line[1..], c, n - 1);
    }
  }

  /** Up to its next single quote, single-quoted text is read as it stands. */
  lemma SingleQuotedRead(text: string, rest: string, word: Option<string>)
    requires '\'' !in text
    ensures Tokens("'" + text + "'" + rest, word) == Tokens(rest, Grown(word, text))
  {
    var line := "'" + text + "'" + rest;
    var n := Find(line[1..], '\'');
    assert line[1..][|text|] == '\'';
    assert line[1..][..|text|] == text;
    FindsFirst(line[1..], '\'', |text|);
    assert line[1..n + 1] == text && line[n + 2..] == rest;
  }

  lemma EscapedQuoteRead(rest: string, word: Option<string>)
    ensures Tokens("\\'" + rest, word) == Tokens(rest, Grown(word, "'"))
  {
    assert ("\\'" + rest)[2..] == rest;
  }

  /** The text before the first single quote, the quote and what follows it, after escaping. */
  lemma {:induction false} EscapedSplit(value: string)
    ensures var n := Find(value, '\'');
            Escaped(value) == value[..n] + (if n == |value| then "" else "'\\''" + Escaped(value[n + 1..]))
  {
    if value != "" && value[0] != '\'' {
      EscapedSplit(value[1..]);
      var n := Find(value[1..], '\'');
      assert value[1..][..n] == value[1..n + 1];
      assert value[..n + 1] == [value[0]] + value[1..n + 1];
    }
  }

  /** Wherever it stands in a line, `text` adds exactly `value` to the word being read. */
  ghost predicate Adds(text: string, value: string) {
    forall rest: string, word: Option<string> :: Tokens(text + rest, word) == Tokens(rest, Grown(word, value))
  }

  lemma AddsInTurn(first: string, a: string, second: string, b: string)
    requires Adds(first, a) && Adds(second, b)
    ensures Adds(first + second, a + b)
  {
    forall rest: string, word: Option<string>
      ensures Tokens(first + second + rest, word) == Tokens(rest, Grown(word, a + b))
    {
      assert first + second + rest == first + (second + rest);
      GrownTwice(word, a, b);
    }
  }

  lemma SingleQuotedAdds(text: string)
    requires '\'' !in text
    ensures Adds("'" + text + "'", text)
  {
    forall rest: string, word: Option<string> {
      SingleQuotedRead(text, rest, word);
    }
  }

  lemma EscapedQuoteAdds()
    ensures Adds("\\'", "'")
  {
    forall rest: string, word: Option<string> {
      EscapedQuoteRead(rest, word);
    }
  }

  lemma {:induction false} QuotedAdds(value: string)
    ensures Adds("'" + Escaped(value) + "'", value)
    decreases |value|
  {
    var n := Find(value, '\'');
    EscapedSplit(value);
    SingleQuotedAdds(value[..n]);
    if n == |value| {
      assert value[..n] == value && value[..n] + "" == value;
    } else {
      var head, tail := value[..n], value[n + 1..];
      var quotedTail := "'" + Escaped(tail) + "'";
      QuotedAdds(tail);
      EscapedQuoteAdds();
      AddsInTurn("\\'", "'", quotedTail, tail);
      AddsInTurn("'" + head + "'", head, "\\'" + quotedTail, "'" + tail);
      assert "'" + Escaped(value) + "'" == ("'" + head + "'") + ("\\'" + quotedTail);
      assert value == head + ("'" + tail);
    }
  }

  /** A quoted value adds exactly itself to the word being read. */
  lemma ShellQuoteAdds(value: string)
    ensures Adds(ShellQuote(value), value)
  {
    if value == "" {
      QuotedAdds("");
      assert "'" + Escaped("") + "'" == "''";
    } else if AllSafe(value) {
      SafeAdds(value);
    } else {
      QuotedAdds(value);
    }
  }

  lemma SafeAdds(value: string)
    requires value != "" && AllSafe(value)
    ensures Adds(value, value)
  {
    forall rest: string, word: Option<string> {
      SafeRead(value, rest, word);
    }
  }

  /** Text that adds a value is, on its own, the one word with that value. */
  lemma OneWord(text: string, value: string)
    requires Adds(text, value)
    ensures Read(text) == Some([Word(value)])
  {
    assert text + "" == text;
    assert Tokens(text + "", None) == Tokens("", Grown(None, value));
    GrownTwice(None, value, "");
  }

  /** For every value: quoting gives a text the shell reads as one word, the value itself. */
  lemma QuotedIsOneWord(value: string)
    ensures Read(ShellQuote(value)) == Some([Word(value)])
  {
    ShellQuoteAdds(value);
    OneWord(ShellQuote(value), value);
  }

  lemma {:induction false} EscapedIsNoShorter(s: string)
    ensures |Escaped(s)| >= |s|
  {
    if s != "" {
      EscapedIsNoShorter(s[1..]);
    }
  }

  /** Letters, digits and `%+,-./:=@[]_`, by their code points. */
  predicate Plain(c: char) {
    65 <= c as int <= 90 || 97 <= c as int <= 122 || 48 <= c as int <= 57
    || c as int in {37, 43, 44, 45, 46, 47, 58, 61, 64, 91, 93, 95}
  }

  lemma PlainIsSafe(c: char)
    ensures Plain(c) <==> IsSafe(c)
  {
  }

  /** A value is quoted unless it is made up of such characters alone. */
  lemma QuotedWhenNeeded(value: string)
    ensures ShellQuote(value) == value <==> value != "" && forall i | 0 <= i < |value| :: Plain(value[i])
  {
    hide IsSafe, Plain;
    EscapedIsNoShorter(value);
    forall i | 0 <= i < |value| ensures Plain(value[i]) <==> IsSafe(value[i]) {
      PlainIsSafe(value[i]);
    }
  }

  // ----- the built command

  lemma BlankRead(rest: string, word: Option<string>)
    ensures Tokens(" " + rest, word) == Before(Ended(word), Tokens(rest, None))
  {
    assert (" " + rest)[1..] == rest;
  }

  /** A word, up to a blank. */
  lemma WordRead(text: string, value: string, rest: string, tokens: seq<Token>)
    requires Adds(text, value) && Tokens(rest, None) == Some(tokens)
    ensures Tokens(text + (" " + rest), None) == Some([Word(value)] + tokens)
  {
    assert Tokens(text + (" " + rest), None) == Tokens(" " + rest, Grown(None, value));
    GrownTwice(None, value, "");
    BlankRead(rest, Some(value));
  }

  lemma PipeRead(rest: string, tokens: seq<Token>)
    requires Tokens(rest, None) == Some(tokens)
    ensures Tokens("|" + (" " + rest), None) == Some([Operator("|")] + tokens)
  {
    var line := "|" + (" " + rest);
    LonePipe(line);
    assert line[..1] == "|" && line[1..] == " " + rest;
    BlankRead(rest, None);
    assert [] + tokens == tokens && Ended(None) + [Operator("|")] == [Operator("|")];
  }

  lemma LonePipe(line: string)
    requires |line| >= 2 && line[0] == '|' && line[1] == ' '
    ensures OperatorLength(line) == 1
  {
    if |line| >= 3 {
      assert line[..3][1] == ' ';
    }
    assert line[..2][1] == ' ';
    assert forall i | 0 <= i < |LONG_OPERATORS| :: LONG_OPERATORS[i][1] != ' ';
  }

  /** The tokens an operator means to run. */
  function Intended(url: string, addr: string, key: string, preferIPv6: bool): seq<Token> {
    [Word("curl"), Word("-fsSL"), Word(url), Operator("|"), Word("sudo"), Word("bash"), Word("-s"), Word("--"),
     Word(addr), Word(key)]
    + (if preferIPv6 then [Word("--prefer-ipv6")] else [])
  }

  const FLAG := "--prefer-ipv6"

  /** The arguments, quoted as `addr` and `key`. */
  lemma ArgumentsRead(addr: string, addrValue: string, key: string, keyValue: string, preferIPv6: bool)
    requires Adds(addr, addrValue) && Adds(key, keyValue)
    ensures Read(addr + " " + key + (if preferIPv6 then " " + FLAG else "")) ==
            Some([Word(addrValue)] + ([Word(keyValue)] + (if preferIPv6 then [Word(FLAG)] else [])))
  {
    OneWord(key, keyValue);
    if preferIPv6 {
      SafeAdds(FLAG);
      OneWord(FLAG, FLAG);
      WordRead(key, keyValue, FLAG, [Word(FLAG)]);
      WordRead(addr, addrValue, key + (" " + FLAG), [Word(keyValue)] + [Word(FLAG)]);
      assert addr + (" " + (key + (" " + FLAG))) == addr + " " + key + (" " + FLAG);
    } else {
      WordRead(addr, addrValue, key, [Word(keyValue)]);
      assert [Word(keyValue)] + [] == [Word(keyValue)];
      assert addr + (" " + key) == addr + " " + key + "";
    }
  }

  /** What follows the pipe. */
  lemma BashRead(args: string, tokens: seq<Token>)
    requires Tokens(args, None) == Some(tokens)
    ensures Tokens("sudo bash -s -- " + args, None) ==
            Some([Word("sudo")] + ([Word("bash")] + ([Word("-s")] + ([Word("--")] + tokens))))
  {
    var r1 := "--" + (" " + args);
    var r2 := "-s" + (" " + r1);
    var r3 := "bash" + (" " + r2);
    SafeAdds("--");
    SafeAdds("-s");
    SafeAdds("bash");
    SafeAdds("sudo");
    WordRead("--", "--", args, tokens);
    WordRead("-s", "-s", r1, [Word("--")] + tokens);
    WordRead("bash", "bash", r2, [Word("-s")] + ([Word("--")] + tokens));
    WordRead("sudo", "sudo", r3, [Word("bash")] + ([Word("-s")] + ([Word("--")] + tokens)));
    assert "sudo" + (" " + r3) == "sudo bash -s -- " + args;
  }

  /** The download, up to the pipe and what follows it. */
  lemma CurlRead(url: string, urlValue: string, rest: string, tokens: seq<Token>)
    requires Adds(url, urlValue) && Tokens(rest, None) == Some(tokens)
    ensures Tokens("curl -fsSL " + url + " | " + rest, None) ==
            Some([Word("curl")] + ([Word("-fsSL")] + ([Word(urlValue)] + ([Operator("|")] + tokens))))
  {
    var r1 := "|" + (" " + rest);
    var r2 := url + (" " + r1);
    var r3 := "-fsSL" + (" " + r2);
    SafeAdds("-fsSL");
    SafeAdds("curl");
    PipeRead(rest, tokens);
    WordRead(url, urlValue, r1, [Operator("|")] + tokens);
    WordRead("-fsSL", "-fsSL", r2, [Word(urlValue)] + ([Operator("|")] + tokens));
    WordRead("curl", "curl", r3, [Word("-fsSL")] + ([Word(urlValue)] + ([Operator("|")] + tokens)));
    CurlShape(url, rest);
  }

  lemma CurlShape(url: string, rest: string)
    ensures "curl" + (" " + ("-fsSL" + (" " + (url + (" " + ("|" + (" " + rest))))))) ==
            "curl -fsSL " + url + " | " + rest
  {
  }

  lemma CommandShape(url: string, args: string)
    ensures "curl -fsSL " + url + " | " + ("sudo bash -s -- " + args) ==
            "curl -fsSL " + url + " | sudo bash -s -- " + args
  {
  }

  /** The command around any three texts that add the three values. */
  lemma AssembledRead(
      url: string, urlValue: string, addr: string, addrValue: string, key: string, keyValue: string, preferIPv6: bool)
    requires Adds(url, urlValue) && Adds(addr, addrValue) && Adds(key, keyValue)
    ensures var args := addr + " " + key + (if preferIPv6 then " " + FLAG else "");
            Read("curl -fsSL " + url + " | sudo bash -s -- " + args) ==
            Some(Intended(urlValue, addrValue, keyValue, preferIPv6))
  {
    var args := addr + " " + key + (if preferIPv6 then " " + FLAG else "");
    var last := [Word(addrValue)] + ([Word(keyValue)] + (if preferIPv6 then [Word(FLAG)] else []));
    var piped := [Word("sudo")] + ([Word("bash")] + ([Word("-s")] + ([Word("--")] + last)));
    ArgumentsRead(addr, addrValue, key, keyValue, preferIPv6);
    BashRead(args, last);
    CurlRead(url, urlValue, "sudo bash -s -- " + args, piped);
    CommandShape(url, args);
    assert [Word("curl")] + ([Word("-fsSL")] + ([Word(urlValue)] + ([Operator("|")] + piped))) ==
           Intended(urlValue, addrValue, keyValue, preferIPv6);
  }

  lemma BuiltRead(url: string, addr: string, key: string, preferIPv6: bool)
    ensures Read("curl -fsSL " + ShellQuote(url) + " | sudo bash -s -- " + Arguments(addr, key, preferIPv6)) ==
            Some(Intended(url, addr, key, preferIPv6))
  {
    ShellQuoteAdds(url);
    ShellQuoteAdds(addr);
    ShellQuoteAdds(key);
    AssembledRead(ShellQuote(url), url, ShellQuote(addr), addr, ShellQuote(key), key, preferIPv6);
    assert preferIPv6 ==> " " + FLAG == " --prefer-ipv6";
  }

  /**
   Whatever the three values contain, the shell reads the built command as the intended words and one pipe;
   when one of them is blank there is no command.
   */
  lemma CommandReadsAsIntended(controllerAddr: string, nodeKey: string, scriptUrl: string, preferIPv6: bool)
    ensures var command := BuildInstallCommand(controllerAddr, nodeKey, scriptUrl, preferIPv6);
            var addr, key, url := Trim(controllerAddr), Trim(nodeKey), Trim(scriptUrl);
            && (command == "" <==> addr == "" || key == "" || url == "")
            && Read(command) == Some(if command == "" then [] else Intended(url, addr, key, preferIPv6))
  {
    BuiltRead(Trim(scriptUrl), Trim(controllerAddr), Trim(nodeKey), preferIPv6);
  }

  /** Values with no white space at either end are read back as they are, blank ones stopping the command. */
  lemma CommandKeepsValues(addr: string, key: string, url: string, preferIPv6: bool)
    requires Tight(addr, IsJsSpace) && Tight(key, IsJsSpace) && Tight(url, IsJsSpace)
    ensures var flag := if preferIPv6 then [Word("--prefer-ipv6")] else [];
            Read(BuildInstallCommand(addr, key, url, preferIPv6)) ==
            Some(if addr == "" || key == "" || url == "" then [] else
                 [Word("curl"), Word("-fsSL"), Word(url), Operator("|"), Word("sudo"), Word("bash"), Word("-s"),
                  Word("--"), Word(addr), Word(key)] + flag)
  {
    hide Read, TrimBy, BuildInstallCommand;
    TrimTight(addr, IsJsSpace);
    TrimTight(key, IsJsSpace);
    TrimTight(url, IsJsSpace);
    CommandReadsAsIntended(addr, key, url, preferIPv6);
    BlankStops(addr, key, url, preferIPv6);
  }

  lemma BlankStops(addr: string, key: string, url: string, preferIPv6: bool)
    ensures Trim(addr) == "" || Trim(key) == "" || Trim(url) == "" ==>
              BuildInstallCommand(addr, key, url, preferIPv6) == ""
  {
  }

  /** White space around a value makes no difference to the command. */
  lemma PaddingIsIgnored(before: string, value: string, after: string, key: string, url: string, preferIPv6: bool)
    requires AllSpace(before, IsJsSpace) && AllSpace(after, IsJsSpace) && Tight(value, IsJsSpace)
    ensures var padded := before + value + after;
            && BuildInstallCommand(padded, key, url, preferIPv6) == BuildInstallCommand(value, key, url, preferIPv6)
            && BuildInstallCommand(key, padded, url, preferIPv6) == BuildInstallCommand(key, value, url, preferIPv6)
            && BuildInstallCommand(key, url, padded, preferIPv6) == BuildInstallCommand(key, url, value, preferIPv6)
  {
    hide TrimBy;
    TrimKeeps(before, value, after, IsJsSpace);
    TrimTight(value, IsJsSpace);
  }
}
