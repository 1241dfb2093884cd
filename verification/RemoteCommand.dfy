/** The command line of the managed SSH client, and the remote command it carries. */
module RemoteCommand {
  import opened Wrappers
  import Text

  // ---------- shell quoting ----------

  /** `str::replace` of a single quote by a closing quote, a quoted quote and an opening quote. */
  function Escaped(value: string): string {
    if value == "" then ""
    else (if value[0] == '\'' then "'\"'\"'" else [value[0]]) + Escaped(value[1..])
  }

  /** `shell_quote` */
  function ShellQuote(value: string): string {
    "'" + Escaped(value) + "'"
  }

  // ---------- how a POSIX shell reads it ----------

  datatype Mode = Plain | SingleQuoted | DoubleQuoted

  const NUL: char := '\0'

  /** Unquoted characters that a shell may treat as anything but themselves (section 2.2 of the Shell
      Command Language of IEEE Std 1003.1). */
  predicate IsSpecial(c: char) {
    c in {'|', '&', ';', '<', '>', '(', ')', '$', '`', '\\', '\n', '*', '?', '[', '#', '~', '=', '%', NUL}
  }

  predicate IsBlank(c: char) {
    c == ' ' || c == '\t'
  }

  function Started(word: Option<string>): string {
    if word.Some? then word.value else ""
  }

  function Prepend(word: Option<string>, words: Option<seq<string>>): Option<seq<string>> {
    if word.None? || words.None? then words else Some([word.value] + words.value)
  }

  /** The words of a command (sections 2.2.2, 2.2.3 and 2.3): `word` is the one being read. There is no
      result when a quote is left open or an expansion, an operator or another special character occurs. */
  function Words(mode: Mode, word: Option<string>, s: string): Option<seq<string>>
    decreases |s|
  {
    match mode
    case Plain =>
      if s == "" then Prepend(word, Some([]))
      else if s[0] == '\'' then Words(SingleQuoted, Some(Started(word)), s[1..])
      else if s[0] == '"' then Words(DoubleQuoted, Some(Started(word)), s[1..])
      else if IsBlank(s[0]) then Prepend(word, Words(Plain, None, s[1..]))
      else if IsSpecial(s[0]) then None
      else Words(Plain, Some(Started(word) + [s[0]]), s[1..])
    case SingleQuoted =>
      if s == "" || s[0] == NUL then None
      else if s[0] == '\'' then Words(Plain, word, s[1..])
      else Words(SingleQuoted, Some(Started(word) + [s[0]]), s[1..])
    case DoubleQuoted =>
      if s == "" || s[0] == NUL || s[0] == '$' || s[0] == '`' || s[0] == '\\' then None
      else if s[0] == '"' then Words(Plain, word, s[1..])
      else Words(DoubleQuoted, Some(Started(word) + [s[0]]), s[1..])
  }

  function Split(command: string): Option<seq<string>> {
    Words(Plain, None, command)
  }

  predicate NulFree(s: string) {
    forall k :: 0 <= k < |s| ==> s[k] != NUL
  }

  // ---------- quoting is undone ----------

  lemma Step(mode: Mode, word: string, c: char, s: string)
    ensures mode.SingleQuoted? && c != '\'' && c != NUL ==>
              Words(mode, Some(word), [c] + s) == Words(SingleQuoted, Some(word + [c]), s)
    ensures mode.SingleQuoted? && c == '\'' ==> Words(mode, Some(word), [c] + s) == Words(Plain, Some(word), s)
    ensures mode.Plain? && c == '"' ==> Words(mode, Some(word), [c] + s) == Words(DoubleQuoted, Some(word), s)
    ensures mode.Plain? && c == '\'' ==> Words(mode, Some(word), [c] + s) == Words(SingleQuoted, Some(word), s)
    ensures mode.DoubleQuoted? && c == '\'' ==>
        Words(mode, Some(word), [c] + s) == Words(DoubleQuoted, Some(word + [c]), s)
    ensures mode.DoubleQuoted? && c == '"' ==> Words(mode, Some(word), [c] + s) == Words(Plain, Some(word), s)
  {
    assert ([c] + s)[1..] == s;
  }

  /** The five characters for a single quote: out of the quotes, a double-quoted quote, and back in. */
  lemma EscapedQuote(word: string, s: string)
    ensures Words(SingleQuoted, Some(word), "'\"'\"'" + s) == Words(SingleQuoted, Some(word + "'"), s)
  {
    assert "'\"'\"'" + s == ['\''] + (['"'] + (['\''] + (['"'] + (['\''] + s))));
    Step(SingleQuoted, word, '\'', ['"'] + (['\''] + (['"'] + (['\''] + s))));
    Step(Plain, word, '"', ['\''] + (['"'] + (['\''] + s)));
    Step(DoubleQuoted, word, '\'', ['"'] + (['\''] + s));
    Step(DoubleQuoted, word + "'", '"', ['\''] + s);
    Step(Plain, word + "'", '\'', s);
  }

  lemma EscapedRest(value: string, rest: string)
    requires value != ""
    ensures Escaped(value) + rest == (if value[0] == '\'' then "'\"'\"'" else [value[0]]) + (Escaped(value[1..]) + rest)
  {
  }

  lemma FirstThenRest(word: string, value: string)
    requires value != ""
    ensures word + [value[0]] + value[1..] == word + value
  {
  }

  lemma {:induction false} EscapedReads(word: string, value: string, rest: string)
    requires NulFree(value)
    ensures Words(SingleQuoted, Some(word), Escaped(value) + rest) == Words(SingleQuoted, Some(word + value), rest)
    decreases |value|
  {
    if value == "" {
      assert Escaped(value) + rest == rest && word + value == word;
    } else {
      EscapedRest(value, rest);
      if value[0] == '\'' {
        EscapedQuote(word, Escaped(value[1..]) + rest);
      } else {
        Step(SingleQuoted, word, value[0], Escaped(value[1..]) + rest);
      }
      EscapedReads(word + [value[0]], value[1..], rest);
      FirstThenRest(word, value);
    }
  }

  lemma {:induction false} NulIsRefused(word: string, value: string, rest: string)
    requires !NulFree(value)
    ensures Words(SingleQuoted, Some(word), Escaped(value) + rest) == None
    decreases |value|
  {
    EscapedRest(value, rest);
    if value[0] == NUL {
    } else {
      assert !NulFree(value[1..]) by {
        var k :| 0 <= k < |value| && value[k] == NUL;
        assert value[1..][k - 1] == NUL;
      }
      if value[0] == '\'' {
        EscapedQuote(word, Escaped(value[1..]) + rest);
      } else {
        Step(SingleQuoted, word, value[0], Escaped(value[1..]) + rest);
      }
      NulIsRefused(word + [value[0]], value[1..], rest);
    }
  }

  /** A quoted value extends the word being read by exactly that value. */
  lemma QuotedReads(word: Option<string>, value: string, rest: string)
    requires NulFree(value)
    ensures Words(Plain, word, ShellQuote(value) + rest) == Words(Plain, Some(Started(word) + value), rest)
  {
    var tail := "'" + rest;
    assert ShellQuote(value) + rest == ['\''] + (Escaped(value) + tail);
    assert (['\''] + (Escaped(value) + tail))[1..] == Escaped(value) + tail;
    EscapedReads(Started(word), value, tail);
    assert tail[1..] == rest;
  }

  /** The shell reads a quoted value as the one word it was, exactly when it holds no NUL. */
  lemma QuotingIsUndoneExactlyWhen(value: string)
    ensures Split(ShellQuote(value)) == Some([value]) <==> NulFree(value)
  {
    assert ShellQuote(value) + "" == ShellQuote(value);
    if NulFree(value) {
      QuotedReads(None, value, "");
      assert "" + value == value && [value] + [] == [value];
    } else {
      assert ShellQuote(value) == ['\''] + (Escaped(value) + "'");
      assert (['\''] + (Escaped(value) + "'"))[1..] == Escaped(value) + "'";
      NulIsRefused("", value, "'");
    }
  }

  // ---------- the remote command ----------

  function Url(port: nat): string {
    "ws://127.0.0.1:" + Text.Decimal(port)
  }

  function Command(bin: string, remotePort: nat): string {
    "exec " + ShellQuote(bin) + " app-server --listen " + ShellQuote(Url(remotePort))
  }

  predicate IsBare(s: string) {
    forall k :: 0 <= k < |s| ==> !IsSpecial(s[k]) && !IsBlank(s[k]) && s[k] != '\'' && s[k] != '"'
  }

  lemma {:induction false} BareReads(word: Option<string>, value: string, rest: string)
    requires IsBare(value) && value != ""
    ensures Words(Plain, word, value + rest) == Words(Plain, Some(Started(word) + value), rest)
    decreases |value|
  {
    assert (value + rest)[1..] == value[1..] + rest;
    if |value| == 1 {
      assert value[1..] + rest == rest && value == [value[0]];
    } else {
      BareReads(Some(Started(word) + [value[0]]), value[1..], rest);
      FirstThenRest(Started(word), value);
    }
  }

  lemma BlankEnds(word: string, rest: string)
    ensures Words(Plain, Some(word), " " + rest) == Prepend(Some(word), Words(Plain, None, rest))
  {
    assert (" " + rest)[1..] == rest;
  }

  lemma BareWordReads(value: string, rest: string)
    requires IsBare(value) && value != ""
    ensures Words(Plain, None, value + (" " + rest)) == Prepend(Some(value), Words(Plain, None, rest))
  {
    BareReads(None, value, " " + rest);
    assert "" + value == value;
    BlankEnds(value, rest);
  }

  lemma QuotedWordReads(value: string, rest: string)
    requires NulFree(value)
    ensures Words(Plain, None, ShellQuote(value) + (" " + rest)) == Prepend(Some(value), Words(Plain, None, rest))
  {
    QuotedReads(None, value, " " + rest);
    assert "" + value == value;
    BlankEnds(value, rest);
  }

  lemma UrlIsNulFree(port: nat)
    ensures NulFree(Url(port))
  {
    Text.DecimalReadsBack(port);
    forall k | 0 <= k < |Url(port)| ensures Url(port)[k] != NUL {
      if k >= 15 {
        assert Url(port)[k] == Text.Decimal(port)[k - 15];
      }
    }
  }

  const EXEC := "exec"
  const APP_SERVER := "app-server"
  const LISTEN := "--listen"

  /** Whatever the executable's path is, the remote shell runs it with exactly three arguments. */
  lemma CommandReads(bin: string, remotePort: nat)
    requires NulFree(bin)
    ensures Split(Command(bin, remotePort)) == Some([EXEC, bin, APP_SERVER, LISTEN, Url(remotePort)])
  {
    var url := Url(remotePort);
    var last := ShellQuote(url);
    CommandSplits(bin, last);
    UrlIsNulFree(remotePort);
    QuotingIsUndoneExactlyWhen(url);
    LeadingWords(bin, last, [url]);
    FiveInARow(EXEC, bin, APP_SERVER, LISTEN, url);
  }

  /** The words that the shell reads before the last one. */
  lemma LeadingWords(bin: string, last: string, words: seq<string>)
    requires NulFree(bin) && Words(Plain, None, last) == Some(words)
    ensures Words(Plain, None,
        EXEC + (" " + (ShellQuote(bin) + (" " + (APP_SERVER + (" " + (LISTEN + (" " + last))))))))
         == Some([EXEC] + ([bin] + ([APP_SERVER] + ([LISTEN] + words))))
  {
    BareWordReads(LISTEN, last);
    BareWordReads(APP_SERVER, LISTEN + (" " + last));
    QuotedWordReads(bin, APP_SERVER + (" " + (LISTEN + (" " + last))));
    BareWordReads(EXEC, ShellQuote(bin) + (" " + (APP_SERVER + (" " + (LISTEN + (" " + last))))));
  }

  lemma FiveInARow(a: string, b: string, c: string, d: string, e: string)
    ensures [a] + ([b] + ([c] + ([d] + [e]))) == [a, b, c, d, e]
  {
  }

  lemma CommandSplits(bin: string, last: string)
    ensures "exec " + ShellQuote(bin) + " app-server --listen " + last
         == EXEC + (" " + (ShellQuote(bin) + (" " + (APP_SERVER + (" " + (LISTEN + (" " + last)))))))
  {
    assert "exec " == EXEC + " ";
    assert " app-server --listen " == " " + (APP_SERVER + (" " + (LISTEN + " ")));
  }

  /** Different executables or ports never give the same command. */
  lemma CommandIsInjective(bin: string, port: nat, otherBin: string, otherPort: nat)
    requires NulFree(bin) && NulFree(otherBin) && Command(bin, port) == Command(otherBin, otherPort)
    ensures bin == otherBin && port == otherPort
  {
    CommandReads(bin, port);
    CommandReads(otherBin, otherPort);
    var words, others := [EXEC, bin, APP_SERVER, LISTEN, Url(port)],
        [EXEC, otherBin, APP_SERVER, LISTEN, Url(otherPort)];
    assert words[1] == others[1] && words[4] == others[4];
    assert Url(port)[15..] == Text.Decimal(port) && Url(otherPort)[15..] == Text.Decimal(otherPort);
    Text.DecimalReadsBack(port);
    Text.DecimalReadsBack(otherPort);
  }

  // ---------- the arguments of the SSH client ----------

  datatype SshConnectRequest = SshConnectRequest(
    target: string, port: Option<nat>, identityFile: Option<string>, remotePort: Option<nat>,
        remoteCodexBin: Option<string>)

  datatype SshOption = Flag(letter: char) | Valued(letter: char, value: string)

  datatype Invocation = Invocation(options: seq<SshOption>, destination: string, command: string)

  predicate TakesValue(letter: char) {
    letter == 'o' || letter == 'p' || letter == 'i' || letter == 'L'
  }

  /** How the SSH client reads its arguments: options up to `--`, then the destination and the command. */
  function Parse(args: seq<string>): Option<Invocation>
    decreases |args|
  {
    if args == [] || |args[0]| != 2 || args[0][0] != '-' then None
    else
      var letter := args[0][1];
      if letter == '-' then
        if |args| == 3 then Some(Invocation([], args[1], args[2])) else None
      else if TakesValue(letter) then
        if |args| == 1 then None else WithOption(Valued(letter, args[1]), Parse(args[2..]))
      else WithOption(Flag(letter), Parse(args[1..]))
  }

  function WithOption(option: SshOption, rest: Option<Invocation>): Option<Invocation> {
    if rest.None? then None else Some(rest.value.(options := [option] + rest.value.options))
  }

  function Rendered(option: SshOption): seq<string> {
    match option
    case Flag(letter) => [['-', letter]]
    case Valued(letter, value) => [['-', letter], value]
  }

  function Render(options: seq<SshOption>): seq<string> {
    if options == [] then [] else Rendered(options[0]) + Render(options[1..])
  }

  predicate Parseable(option: SshOption) {
    match option
    case Flag(letter) => letter != '-' && !TakesValue(letter)
    case Valued(letter, _) => TakesValue(letter)
  }

  lemma ParseFirst(option: SshOption, rest: seq<string>)
    requires Parseable(option)
    ensures Parse(Rendered(option) + rest) == WithOption(option, Parse(rest))
  {
    assert (Rendered(option) + rest)[|Rendered(option)|..] == rest;
  }

  lemma {:induction false} ParseRendered(options: seq<SshOption>, destination: string, command: string)
    requires forall k :: 0 <= k < |options| ==> Parseable(options[k])
    ensures Parse(Render(options) + ["--", destination, command]) == Some(Invocation(options, destination, command))
  {
    var tail := ["--", destination, command];
    if options == [] {
      assert Render(options) + tail == tail;
    } else {
      assert Render(options) + tail == Rendered(options[0]) + (Render(options[1..]) + tail);
      ParseFirst(options[0], Render(options[1..]) + tail);
      ParseRendered(options[1..], destination, command);
      assert [options[0]] + options[1..] == options;
    }
  }

  const FIXED_OPTIONS: seq<SshOption> := [
    Flag('T'), Valued('o', "BatchMode=yes"), Valued('o', "ExitOnForwardFailure=yes"),
        Valued('o', "ServerAliveInterval=15"),
    Valued('o', "ServerAliveCountMax=3"), Valued('o', "ConnectTimeout=10")]

  const FIXED_ARGUMENTS: seq<string> := [
    "-T", "-o", "BatchMode=yes", "-o", "ExitOnForwardFailure=yes", "-o", "ServerAliveInterval=15",
    "-o", "ServerAliveCountMax=3", "-o", "ConnectTimeout=10"]

  function PortOption(port: Option<nat>): seq<SshOption> {
    if port.Some? then [Valued('p', Text.Decimal(port.value))] else []
  }

  function IdentityOption(file: Option<string>): seq<SshOption> {
    if file.None? || Text.Trim(file.value) == "" then [] else [Valued('i', Text.Trim(file.value))]
  }

  function Forwarding(localPort: nat, remotePort: nat): string {
    "127.0.0.1:" + Text.Decimal(localPort) + ":127.0.0.1:" + Text.Decimal(remotePort)
  }

  function Options(request: SshConnectRequest, localPort: nat, remotePort: nat): seq<SshOption> {
    FIXED_OPTIONS + PortOption(request.port) + IdentityOption(request.identityFile)
        + [Valued('L', Forwarding(localPort, remotePort))]
  }

  lemma OptionsParse(request: SshConnectRequest, localPort: nat, remotePort: nat)
    ensures forall k :: 0 <= k < |Options(request, localPort, remotePort)| ==>
        Parseable(Options(request, localPort, remotePort)[k])
  {
    var optional := PortOption(request.port) + IdentityOption(request.identityFile);
    assert forall k :: 0 <= k < |FIXED_OPTIONS| ==> Parseable(FIXED_OPTIONS[k]);
    assert forall k :: 0 <= k < |optional| ==> Parseable(optional[k]);
  }

  lemma {:induction false} RenderConcat(a: seq<SshOption>, b: seq<SshOption>)
    ensures Render(a + b) == Render(a) + Render(b)
  {
    if a == [] {
      assert a + b == b;
    } else {
      assert (a + b)[0] == a[0] && (a + b)[1..] == a[1..] + b;
      RenderConcat(a[1..], b);
    }
  }

  function SshArgs(request: SshConnectRequest, localPort: nat, remotePort: nat, bin: string): seq<string> {
    Render(Options(request, localPort, remotePort)) + ["--", request.target, Command(bin, remotePort)]
  }

  /** The SSH client reads the arguments back as the fixed options, the SSH port and the identity file if there are
      any, and the forwarding, the target as the destination whatever it looks like, and the remote command as one
      argument. */
  lemma SshArgsParse(request: SshConnectRequest, localPort: nat, remotePort: nat, bin: string)
    ensures Parse(SshArgs(request, localPort, remotePort, bin)) ==
            Some(Invocation(Options(request, localPort, remotePort), request.target, Command(bin, remotePort)))
    ensures Options(request, localPort, remotePort) ==
            [Flag('T'), Valued('o', "BatchMode=yes"), Valued('o', "ExitOnForwardFailure=yes"),
             Valued('o', "ServerAliveInterval=15"), Valued('o', "ServerAliveCountMax=3"),
             Valued('o', "ConnectTimeout=10")]
            + (match request.port case Some(port) => [Valued('p', Text.Decimal(port))] case None => [])
            + (match request.identityFile
               case Some(file) => if Text.Trim(file) != "" then [Valued('i', Text.Trim(file))] else []
               case None => [])
            + [Valued('L', "127.0.0.1:" + Text.Decimal(localPort) + ":127.0.0.1:" + Text.Decimal(remotePort))]
  {
    OptionsParse(request, localPort, remotePort);
    ParseRendered(Options(request, localPort, remotePort), request.target, Command(bin, remotePort));
  }

  function PortArguments(port: Option<nat>): seq<string> {
    if port.Some? then ["-p", Text.Decimal(port.value)] else []
  }

  function IdentityArguments(file: Option<string>): seq<string> {
    if file.None? || Text.Trim(file.value) == "" then [] else ["-i", Text.Trim(file.value)]
  }

  lemma RenderOptions(request: SshConnectRequest, localPort: nat, remotePort: nat)
    ensures Render(Options(request, localPort, remotePort)) ==
            FIXED_ARGUMENTS + PortArguments(request.port) + IdentityArguments(request.identityFile)
                + ["-L", Forwarding(localPort, remotePort)]
  {
    var port, identity := PortOption(request.port), IdentityOption(request.identityFile);
    var forwarding := [Valued('L', Forwarding(localPort, remotePort))];
    FixedRender();
    RenderMore(FIXED_OPTIONS, port);
    RenderMore(FIXED_OPTIONS + port, identity);
    RenderMore(FIXED_OPTIONS + port + identity, forwarding);
  }

  lemma FixedRender()
    ensures Render(FIXED_OPTIONS) == FIXED_ARGUMENTS
  {
    assert Render(FIXED_OPTIONS[5..]) == ["-o", "ConnectTimeout=10"];
    assert FIXED_OPTIONS[4..][1..] == FIXED_OPTIONS[5..] && FIXED_OPTIONS[3..][1..] == FIXED_OPTIONS[4..];
    assert Render(FIXED_OPTIONS[3..]) == Rendered(FIXED_OPTIONS[3])
        + (Rendered(FIXED_OPTIONS[4]) + Render(FIXED_OPTIONS[5..]));
    assert FIXED_OPTIONS[2..][1..] == FIXED_OPTIONS[3..] && FIXED_OPTIONS[1..][1..] == FIXED_OPTIONS[2..];
    assert Render(FIXED_OPTIONS[1..]) == Rendered(FIXED_OPTIONS[1])
        + (Rendered(FIXED_OPTIONS[2]) + Render(FIXED_OPTIONS[3..]));
  }

  /** At most one option is added at a time. */
  lemma RenderMore(options: seq<SshOption>, more: seq<SshOption>)
    requires |more| <= 1
    ensures Render(options + more) == Render(options) + if more == [] then [] else Rendered(more[0])
  {
    RenderConcat(options, more);
    if more != [] {
      assert more[1..] == [];
    }
  }

  /** `build_ssh_args` */
  method BuildSshArgs(request: SshConnectRequest, localPort: nat, remotePort: nat, bin: string)
      returns (args: seq<string>)
    ensures args == SshArgs(request, localPort, remotePort, bin)
  {
    args := FIXED_ARGUMENTS;
    if request.port.Some? {
      args := args + ["-p"];
      args := args + [Text.Decimal(request.port.value)];
    }
    assert args == FIXED_ARGUMENTS + PortArguments(request.port);
    if request.identityFile.Some? && Text.Trim(request.identityFile.value) != "" {
      args := args + ["-i"];
      args := args + [Text.Trim(request.identityFile.value)];
    }
    assert args == FIXED_ARGUMENTS + PortArguments(request.port) + IdentityArguments(request.identityFile);
    args := args + ["-L"];
    args := args + [Forwarding(localPort, remotePort)];
    RenderOptions(request, localPort, remotePort);
    assert args == Render(Options(request, localPort, remotePort));
    ghost var rendered := args;
    args := args + ["--"];
    args := args + [request.target];
    args := args + [Command(bin, remotePort)];
    assert args == rendered + ["--", request.target, Command(bin, remotePort)];
  }
}
