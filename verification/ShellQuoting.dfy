/** Quoting for a POSIX shell and the commands built with it (src/shell.ts, src/remote/agent-executor.ts,
    src/remote/control-plane.ts), read back by a lexer written from the POSIX Shell Command Language,
    sections 2.2.1 to 2.2.3 (quoting) and 2.3 (token recognition). */
module ShellQuoting {

  // ---- The builders ----

  function Replace(value: string, replacement: string): string {
    if value == "" then ""
    else (if value[0] == '\'' then replacement else [value[0]]) + Replace(value[1..], replacement)
  }

  datatype Scheme = DoubleQuoted | Backslashed

  /** What stands for a single quote: leave the quotes, write one quoted otherwise, enter them again. */
  function Escape(scheme: Scheme): string {
    match scheme
    case DoubleQuoted => "'\"'\"'"
    case Backslashed => "'\\''"
  }

  /** `shellQuote` and `quotePosixArg` (DoubleQuoted), `posixSingleQuote` (Backslashed). */
  function Quote(value: string, scheme: Scheme): string {
    "'" + Replace(value, Escape(scheme)) + "'"
  }

  datatype Built = Command(text: string) | InvalidName

  datatype Variable = Variable(name: string, value: string)

  predicate IsNameStart(c: char) { 'A' <= c <= 'Z' || 'a' <= c <= 'z' || c == '_' }

  predicate IsName(name: string) {
    && name != ""
    && IsNameStart(name[0])
    && forall i :: 0 <= i < |name| ==> IsNameStart(name[i]) || '0' <= name[i] <= '9'
  }

  predicate ValidEnvironment(env: seq<Variable>) {
    forall i :: 0 <= i < |env| ==> IsName(env[i].name)
  }

  function Exports(env: seq<Variable>): string {
    if env == [] then ""
    else "export " + env[0].name + "=" + Quote(env[0].value, DoubleQuoted) + "; " + Exports(env[1..])
  }

  function ChangeDirectory(cwd: string): string {
    if cwd == "" then "" else "cd " + Quote(cwd, DoubleQuoted) + " && "
  }

  /** The script handed to the shell. A missing working directory is the empty one. */
  function Script(command: string, cwd: string, env: seq<Variable>): string {
    ChangeDirectory(cwd) + Exports(env) + command
  }

  function BuildPosixCommand(command: string, cwd: string, env: seq<Variable>, shell: string): Built {
    if !ValidEnvironment(env) then InvalidName
    else Command(shell + " -lc " + Quote(Script(command, cwd, env), DoubleQuoted))
  }

  function SudoScript(command: string, cwd: string): string {
    "sudo -n " + ChangeDirectory(cwd) + command
  }

  function BuildSudoCommand(command: string, cwd: string, shell: string): Built {
    BuildPosixCommand(SudoScript(command, cwd), "", [], shell)
  }

  /** `runShellAsRoot` of an agent that is not root itself. */
  function RootCommand(command: string): string {
    "sudo -n /bin/sh -lc " + Quote(command, Backslashed)
  }

  // ---- The lexer ----

  datatype Read = Bad | Read(text: string, rest: string)

  function Prepend(text: string, r: Read): Read {
    if r.Bad? then Bad else Read(text + r.text, r.rest)
  }

  predicate IsBlank(c: char) { c == ' ' || c == '\t' }

  predicate IsOperator(c: char) {
    c == '|' || c == '&' || c == ';' || c == '<' || c == '>' || c == '(' || c == ')' || c == '\n'
  }

  /** Characters whose unquoted use means more than themselves; the lexer does not expand them. */
  predicate IsActive(c: char) {
    c == '$' || c == '`' || c == '*' || c == '?' || c == '[' || c == '#' || c == '~'
  }

  predicate IsQuote(c: char) { c == '\'' || c == '"' || c == '\\' }

  predicate EndsWord(s: string) { s == "" || IsBlank(s[0]) || IsOperator(s[0]) }

  /** After an opening single quote: everything up to the next one. */
  function ReadSingle(s: string): (r: Read)
    ensures r.Read? ==> |r.rest| < |s|
  {
    if s == "" then Bad
    else if s[0] == '\'' then Read("", s[1..])
    else Prepend([s[0]], ReadSingle(s[1..]))
  }

  /** After an opening double quote: up to the next one; a backslash escapes only what is special there. */
  function ReadDouble(s: string): (r: Read)
    ensures r.Read? ==> |r.rest| < |s|
  {
    if s == "" || s[0] == '$' || s[0] == '`' then Bad
    else if s[0] == '"' then Read("", s[1..])
    else if s[0] == '\\' && |s| > 1 && s[1] == '\n' then ReadDouble(s[2..])
    else if s[0] == '\\' && |s| > 1 && (s[1] == '$' || s[1] == '`' || s[1] == '"' || s[1] == '\\') then
      Prepend([s[1]], ReadDouble(s[2..]))
    else Prepend([s[0]], ReadDouble(s[1..]))
  }

  /** The rest of a word, outside quotes. */
  function ReadWord(s: string): (r: Read)
    ensures r.Read? ==> |r.rest| <= |s|
    decreases |s|
  {
    if EndsWord(s) then Read("", s)
    else if s[0] == '\'' then
      var q := ReadSingle(s[1..]);
      if q.Bad? then Bad else Prepend(q.text, ReadWord(q.rest))
    else if s[0] == '"' then
      var q := ReadDouble(s[1..]);
      if q.Bad? then Bad else Prepend(q.text, ReadWord(q.rest))
    else if s[0] == '\\' then
      if |s| == 1 then Bad
      else if s[1] == '\n' then ReadWord(s[2..])
      else Prepend([s[1]], ReadWord(s[2..]))
    else if IsActive(s[0]) then Bad
    else Prepend([s[0]], ReadWord(s[1..]))
  }

  datatype Token = Word(text: string) | Operator(op: string)

  datatype Lexed = Stuck | Token(token: Token, rest: string) | End

  function NextToken(s: string): (r: Lexed)
    ensures r.Token? ==> |r.rest| <= |s|
  {
    if s == "" then End
    else if IsBlank(s[0]) then NextToken(s[1..])
    else if IsOperator(s[0]) then
      if |s| > 1 && s[1] == s[0] && (s[0] == '&' || s[0] == '|' || s[0] == ';') then Token(Operator(s[..2]), s[2..])
      else Token(Operator(s[..1]), s[1..])
    else
      var w := ReadWord(s);
      if w.Bad? then Stuck else Token(Word(w.text), w.rest)
  }

  datatype Tokens = Unread | Tokens(tokens: seq<Token>, rest: string)

  /** The first `n` tokens and what follows them. */
  function ReadTokens(s: string, n: nat): Tokens
    decreases n
  {
    if n == 0 then Tokens([], s)
    else
      match NextToken(s)
      case Token(t, rest) =>
        var more := ReadTokens(rest, n - 1);
        if more.Unread? then Unread else Tokens([t] + more.tokens, more.rest)
      case _ => Unread
  }

  /** `s` reads as exactly these tokens. */
  predicate ReadsAs(s: string, tokens: seq<Token>) {
    ReadTokens(s, |tokens|) == Tokens(tokens, "")
  }

  // ---- One quoted word ----

  function SingleThenWord(s: string): Read {
    var q := ReadSingle(s);
    if q.Bad? then Bad else Prepend(q.text, ReadWord(q.rest))
  }

  lemma EnterSingle(s: string)
    ensures ReadWord("'" + s) == SingleThenWord(s)
  {
    assert ("'" + s)[1..] == s;
  }

  lemma LeaveSingle(s: string)
    ensures SingleThenWord("'" + s) == ReadWord(s)
  {
    assert ("'" + s)[1..] == s;
    assert ReadSingle("'" + s) == Read("", s);
  }

  /** A single quote inside double quotes. */
  lemma DoubleQuotedQuote(s: string)
    ensures ReadWord("\"'\"" + s) == Prepend("'", ReadWord(s))
  {
    var inside := "'\"" + s;
    assert ("\"'\"" + s)[1..] == inside;
    assert inside[1..] == "\"" + s && ("\"" + s)[1..] == s;
    assert ReadDouble("\"" + s) == Read("", s);
    assert ReadDouble(inside) == Prepend("'", Read("", s));
  }

  /** A single quote after a backslash. */
  lemma BackslashedQuote(s: string)
    ensures ReadWord("\\'" + s) == Prepend("'", ReadWord(s))
  {
    assert ("\\'" + s)[2..] == s;
  }

  lemma EscapeReadsAsQuote(scheme: Scheme, s: string)
    ensures SingleThenWord(Escape(scheme) + s) == Prepend("'", SingleThenWord(s))
  {
    var between := if scheme.DoubleQuoted? then "\"'\"" else "\\'";
    assert Escape(scheme) + s == "'" + (between + ("'" + s));
    LeaveSingle(between + ("'" + s));
    DoubleQuotedQuote("'" + s);
    BackslashedQuote("'" + s);
    EnterSingle(s);
  }

  lemma PrependTwice(a: string, b: string, r: Read)
    ensures Prepend(a, Prepend(b, r)) == Prepend(a + b, r)
  {
    if r.Read? {
      assert a + (b + r.text) == a + b + r.text;
    }
  }

  lemma {:induction false} QuotedTail(value: string, scheme: Scheme, rest: string)
    ensures SingleThenWord(Replace(value, Escape(scheme)) + ("'" + rest)) == Prepend(value, ReadWord(rest))
  {
    if value == "" {
      assert Replace(value, Escape(scheme)) + ("'" + rest) == "'" + rest;
      LeaveSingle(rest);
    } else {
      var tail := Replace(value[1..], Escape(scheme)) + ("'" + rest);
      QuotedTail(value[1..], scheme, rest);
      if value[0] == '\'' {
        assert Replace(value, Escape(scheme)) + ("'" + rest) == Escape(scheme) + tail;
        EscapeReadsAsQuote(scheme, tail);
      } else {
        assert Replace(value, Escape(scheme)) + ("'" + rest) == [value[0]] + tail;
        SingleChar(value[0], tail);
      }
      PrependTwice([value[0]], value[1..], ReadWord(rest));
      assert value == [value[0]] + value[1..];
    }
  }

  lemma SingleChar(c: char, s: string)
    requires c != '\''
    ensures SingleThenWord([c] + s) == Prepend([c], SingleThenWord(s))
  {
    assert ([c] + s)[1..] == s;
  }

  /** A quoted value is read back, whatever it contains, as (the beginning of) one word equal to it. */
  lemma QuoteReadsBack(value: string, scheme: Scheme, rest: string)
    ensures ReadWord(Quote(value, scheme) + rest) == Prepend(value, ReadWord(rest))
  {
    var inside := Replace(value, Escape(scheme)) + ("'" + rest);
    assert Quote(value, scheme) + rest == "'" + inside;
    EnterSingle(inside);
    QuotedTail(value, scheme, rest);
  }

  // ---- Tokens ----

  predicate IsPlain(c: char) { !IsBlank(c) && !IsOperator(c) && !IsActive(c) && !IsQuote(c) }

  predicate Plain(w: string) { forall i :: 0 <= i < |w| ==> IsPlain(w[i]) }

  lemma {:induction false} PlainReadsBack(w: string, rest: string)
    requires Plain(w)
    ensures ReadWord(w + rest) == Prepend(w, ReadWord(rest))
  {
    if w == "" {
      assert w + rest == rest;
    } else {
      assert (w + rest)[1..] == w[1..] + rest;
      PlainReadsBack(w[1..], rest);
      assert w == [w[0]] + w[1..];
    }
  }

  lemma WordReadsBack(plain: string, quoted: string, scheme: Scheme, rest: string)
    requires Plain(plain) && EndsWord(rest)
    ensures ReadWord(plain + (Quote(quoted, scheme) + rest)) == Read(plain + quoted, rest)
  {
    PlainReadsBack(plain, Quote(quoted, scheme) + rest);
    QuoteReadsBack(quoted, scheme, rest);
    PrependTwice(plain, quoted, ReadWord(rest));
    assert plain + quoted + "" == plain + quoted;
  }

  lemma FirstOfWord(plain: string, quoted: string, scheme: Scheme, rest: string)
    requires Plain(plain)
    ensures var s := plain + (Quote(quoted, scheme) + rest); s != "" && !IsBlank(s[0]) && !IsOperator(s[0])
  {
    if plain == "" {
      assert plain + (Quote(quoted, scheme) + rest) == Quote(quoted, scheme) + rest;
    }
  }

  /** A word made of a plain part and a quoted part, preceded by any blank, is one token. */
  lemma TokenReadsBack(plain: string, quoted: string, scheme: Scheme, rest: string)
    requires Plain(plain) && EndsWord(rest)
    ensures NextToken(plain + (Quote(quoted, scheme) + rest)) == Token(Word(plain + quoted), rest)
    ensures NextToken(" " + (plain + (Quote(quoted, scheme) + rest))) == Token(Word(plain + quoted), rest)
  {
    WordReadsBack(plain, quoted, scheme, rest);
    FirstOfWord(plain, quoted, scheme, rest);
    StartsWord(plain + (Quote(quoted, scheme) + rest));
  }

  lemma StartsWord(s: string)
    requires s != "" && !IsBlank(s[0]) && !IsOperator(s[0])
    ensures NextToken(s) == if ReadWord(s).Bad? then Stuck else Token(Word(ReadWord(s).text), ReadWord(s).rest)
    ensures NextToken(" " + s) == NextToken(s)
  {
    assert (" " + s)[1..] == s;
  }

  lemma PlainToken(w: string, rest: string)
    requires Plain(w) && w != "" && EndsWord(rest)
    ensures NextToken(w + rest) == Token(Word(w), rest)
    ensures NextToken(" " + (w + rest)) == Token(Word(w), rest)
  {
    PlainReadsBack(w, rest);
    assert w + "" == w;
    StartsWord(w + rest);
  }

  // ---- Commands ----

  lemma OneMore(s: string, token: Token, rest: string, n: nat)
    requires NextToken(s) == Token(token, rest) && ReadTokens(rest, n).Tokens?
    ensures ReadTokens(s, n + 1) == Tokens([token] + ReadTokens(rest, n).tokens, ReadTokens(rest, n).rest)
  {}

  lemma ThreeMore(s: string, a: Token, s1: string, b: Token, s2: string, c: Token, s3: string, n: nat)
    requires NextToken(s) == Token(a, s1) && NextToken(s1) == Token(b, s2) && NextToken(s2) == Token(c, s3)
    requires ReadTokens(s3, n).Tokens?
    ensures ReadTokens(s, n + 3) == Tokens([a, b, c] + ReadTokens(s3, n).tokens, ReadTokens(s3, n).rest)
  {
    var after := ReadTokens(s3, n);
    OneMore(s2, c, s3, n);
    OneMore(s1, b, s2, n + 1);
    OneMore(s, a, s1, n + 2);
    assert [a] + ([b] + ([c] + after.tokens)) == [a, b, c] + after.tokens;
  }

  lemma CommandShape(shell: string, quoted: string)
    ensures shell + " -lc " + quoted == shell + (" " + ("-lc" + (" " + (quoted + ""))))
  {
    assert " -lc " == " " + "-lc" + " ";
    assert quoted + "" == quoted;
  }

  /** A built command reads as exactly three words: the shell, `-lc` and the script. */
  lemma CommandReadsBack(command: string, cwd: string, env: seq<Variable>, shell: string)
    requires shell == "sh" || shell == "bash"
    ensures var built := BuildPosixCommand(command, cwd, env, shell);
            && (built.InvalidName? <==> !ValidEnvironment(env))
            && (built.Command? ==>
                  ReadsAs(built.text, [Word(shell), Word("-lc"), Word(Script(command, cwd, env))]))
  {
    var script := Script(command, cwd, env);
    ShellLineReadsBack(shell, script);
  }

  lemma PlainWords()
    ensures Plain("sh") && Plain("bash") && Plain("-lc") && Plain("cd") && Plain("export")
    ensures Plain("sudo") && Plain("-n") && Plain("/bin/sh")
  {}

  /** A plain word with a blank after it. */
  lemma PlainThenBlank(w: string, rest: string)
    requires Plain(w) && w != ""
    ensures NextToken(w + (" " + rest)) == Token(Word(w), " " + rest)
    ensures NextToken(" " + (w + (" " + rest))) == Token(Word(w), " " + rest)
  {
    PlainToken(w, " " + rest);
  }

  /** A quoted word at the end, or with a blank or an operator after it. */
  lemma QuotedToken(value: string, rest: string)
    requires EndsWord(rest)
    ensures NextToken(" " + (Quote(value, DoubleQuoted) + rest)) == Token(Word(value), rest)
  {
    TokenReadsBack("", value, DoubleQuoted, rest);
    assert "" + (Quote(value, DoubleQuoted) + rest) == Quote(value, DoubleQuoted) + rest;
    assert "" + value == value;
  }

  lemma ShellLineReadsBack(shell: string, script: string)
    requires shell == "sh" || shell == "bash"
    ensures ReadsAs(shell + " -lc " + Quote(script, DoubleQuoted), [Word(shell), Word("-lc"), Word(script)])
  {
    var third := Quote(script, DoubleQuoted) + "";
    var second := "-lc" + (" " + third);
    PlainWords();
    hide NextToken, ReadWord, ReadTokens, Plain, Quote;
    CommandShape(shell, Quote(script, DoubleQuoted));
    PlainThenBlank(shell, second);
    PlainThenBlank("-lc", third);
    QuotedToken(script, "");
    NoTokens("");
    ThreeMore(shell + (" " + second), Word(shell), " " + second, Word("-lc"), " " + third, Word(script), "", 0);
  }

  lemma NoTokens(s: string)
    ensures ReadTokens(s, 0) == Tokens([], s)
  {}

  function ExportTokens(env: seq<Variable>): seq<Token> {
    if env == [] then []
    else [Word("export"), Word(env[0].name + "=" + env[0].value), Operator(";")] + ExportTokens(env[1..])
  }

  /** What the script's prefix says: go to the directory, then set each variable. */
  function PrefixTokens(cwd: string, env: seq<Variable>): seq<Token> {
    (if cwd == "" then [] else [Word("cd"), Word(cwd), Operator("&&")]) + ExportTokens(env)
  }

  lemma SkipBlank(s: string, n: nat)
    requires n > 0
    ensures ReadTokens(" " + s, n) == ReadTokens(s, n)
  {
    assert (" " + s)[1..] == s;
  }

  lemma OperatorToken(op: string, rest: string)
    requires op == "&&" || (op == ";" && rest != "" && rest[0] == ' ')
    ensures NextToken(op + rest) == Token(Operator(op), rest)
    ensures NextToken(" " + (op + rest)) == Token(Operator(op), rest)
  {
    var s := op + rest;
    assert (" " + s)[1..] == s;
    if op == "&&" {
      assert s[..2] == "&&" && s[2..] == rest;
    } else {
      assert s[1] == ' ';
      assert s[..1] == ";" && s[1..] == rest;
    }
  }

  lemma ExportReadsBack(v: Variable, rest: string, n: nat)
    requires IsName(v.name) && ReadTokens(" " + rest, n).Tokens?
    ensures var after := ReadTokens(" " + rest, n);
            ReadTokens("export " + v.name + "=" + Quote(v.value, DoubleQuoted) + "; " + rest, n + 3)
            == Tokens([Word("export"), Word(v.name + "=" + v.value), Operator(";")] + after.tokens, after.rest)
  {
    var third := ";" + (" " + rest);
    var second := v.name + "=" + (Quote(v.value, DoubleQuoted) + third);
    assert Plain(v.name + "=");
    PlainWords();
    hide NextToken, ReadWord, ReadTokens, Plain, Quote;
    ExportShape(v.name, Quote(v.value, DoubleQuoted), rest);
    PlainThenBlank("export", second);
    TokenReadsBack(v.name + "=", v.value, DoubleQuoted, third);
    OperatorToken(";", " " + rest);
    ThreeMore("export" + (" " + second), Word("export"), " " + second, Word(v.name + "=" + v.value), third,
              Operator(";"), " " + rest, n);
  }

  lemma ExportShape(name: string, quoted: string, rest: string)
    ensures "export " + name + "=" + quoted + "; " + rest
         == "export" + (" " + (name + "=" + (quoted + (";" + (" " + rest)))))
  {
    assert "export " == "export" + " " && "; " == ";" + " ";
  }

  lemma {:induction false} ExportsReadBack(env: seq<Variable>, command: string)
    requires ValidEnvironment(env) && env != []
    ensures ReadTokens(Exports(env) + command, 3 * |env|) == Tokens(ExportTokens(env), " " + command)
  {
    hide NextToken, ReadWord, ReadTokens, Quote;
    var rest := Exports(env[1..]) + command;
    FirstExport(env, command);
    if |env| == 1 {
      assert rest == command;
      NoTokens(" " + rest);
      ExportReadsBack(env[0], rest, 0);
    } else {
      ExportsReadBack(env[1..], command);
      SkipBlank(rest, 3 * |env[1..]|);
      ExportReadsBack(env[0], rest, 3 * |env[1..]|);
    }
  }

  lemma FirstExport(env: seq<Variable>, command: string)
    requires env != []
    ensures Exports(env) + command
         == "export " + env[0].name + "=" + Quote(env[0].value, DoubleQuoted) + "; " + (Exports(env[1..]) + command)
  {}

  /** The prefix of the script reads as exactly the directory and every variable with its value, and is
      followed by the command, untouched. */
  lemma ScriptReadsBack(command: string, cwd: string, env: seq<Variable>)
    requires ValidEnvironment(env) && (cwd != "" || env != [])
    ensures ReadTokens(Script(command, cwd, env), |PrefixTokens(cwd, env)|)
         == Tokens(PrefixTokens(cwd, env), " " + command)
  {
    hide NextToken, ReadWord, ReadTokens, Quote;
    var rest := Exports(env) + command;
    CountExports(env);
    ScriptShape(command, cwd, env);
    if cwd == "" {
      ExportsReadBack(env, command);
      assert PrefixTokens(cwd, env) == ExportTokens(env);
    } else {
      if env == [] {
        NoTokens(" " + rest);
      } else {
        ExportsReadBack(env, command);
        SkipBlank(rest, 3 * |env|);
      }
      DirectoryReadsBack(cwd, rest, 3 * |env|);
    }
  }

  lemma ScriptShape(command: string, cwd: string, env: seq<Variable>)
    ensures Script(command, cwd, env) == ChangeDirectory(cwd) + (Exports(env) + command)
    ensures cwd == "" ==> Script(command, cwd, env) == Exports(env) + command
    ensures env == [] ==> Exports(env) + command == command
  {}

  lemma DirectoryReadsBack(cwd: string, rest: string, n: nat)
    requires cwd != "" && ReadTokens(" " + rest, n).Tokens?
    ensures var after := ReadTokens(" " + rest, n);
            ReadTokens(ChangeDirectory(cwd) + rest, n + 3)
            == Tokens([Word("cd"), Word(cwd), Operator("&&")] + after.tokens, after.rest)
  {
    var third := "&&" + (" " + rest);
    var second := Quote(cwd, DoubleQuoted) + (" " + third);
    PlainWords();
    hide NextToken, ReadWord, ReadTokens, Plain, Quote;
    DirectoryShape(Quote(cwd, DoubleQuoted), rest);
    PlainThenBlank("cd", second);
    QuotedToken(cwd, " " + third);
    OperatorToken("&&", " " + rest);
    ThreeMore("cd" + (" " + second), Word("cd"), " " + second, Word(cwd), " " + third, Operator("&&"), " " + rest, n);
  }

  lemma DirectoryShape(quoted: string, rest: string)
    ensures "cd " + quoted + " && " + rest == "cd" + (" " + (quoted + (" " + ("&&" + (" " + rest)))))
  {
    assert "cd " == "cd" + " " && " && " == " " + "&&" + " ";
  }

  lemma {:induction false} CountExports(env: seq<Variable>)
    ensures |ExportTokens(env)| == 3 * |env|
  {
    if env != [] {
      CountExports(env[1..]);
    }
  }

  /** The variable a word `name=value` sets. */
  function Assignment(word: string): Variable {
    if word == "" then Variable("", "")
    else if word[0] == '=' then Variable("", word[1..])
    else var v := Assignment(word[1..]); Variable([word[0]] + v.name, v.value)
  }

  lemma {:induction false} AssignmentRecovers(name: string, value: string)
    requires '=' !in name
    ensures Assignment(name + "=" + value) == Variable(name, value)
  {
    var word := name + "=" + value;
    if name == "" {
      assert word[1..] == value;
    } else {
      assert word[1..] == name[1..] + "=" + value;
      AssignmentRecovers(name[1..], value);
      assert name == [name[0]] + name[1..];
    }
  }

  /** The command built for sudo reads as the shell, `-lc` and its script. */
  lemma SudoCommandReadsBack(command: string, cwd: string, shell: string)
    requires shell == "sh" || shell == "bash"
    ensures BuildSudoCommand(command, cwd, shell).Command?
    ensures ReadsAs(
              BuildSudoCommand(command, cwd, shell).text, [Word(shell), Word("-lc"), Word(SudoScript(command, cwd))])
  {
    assert Script(SudoScript(command, cwd), "", []) == SudoScript(command, cwd);
    CommandReadsBack(SudoScript(command, cwd), "", [], shell);
  }

  /** With a working directory only the `cd` is run under sudo: the operator that ends that simple command
      comes before the caller's command. */
  lemma SudoScriptReadsBack(command: string, cwd: string)
    ensures cwd != "" ==>
              ReadTokens(SudoScript(command, cwd), 5)
              == Tokens([Word("sudo"), Word("-n"), Word("cd"), Word(cwd), Operator("&&")], " " + command)
    ensures cwd == "" ==>
              ReadTokens(SudoScript(command, cwd), 2) == Tokens([Word("sudo"), Word("-n")], " " + command)
  {
    hide NextToken, ReadWord, ReadTokens, Quote;
    var inner := ChangeDirectory(cwd) + command;
    SudoShape(ChangeDirectory(cwd), command);
    if cwd != "" {
      NoTokens(" " + command);
      DirectoryReadsBack(cwd, command, 0);
      SkipBlank(inner, 3);
      SudoPrefix(inner, 3);
    } else {
      assert inner == command;
      NoTokens(" " + inner);
      SudoPrefix(inner, 0);
    }
  }

  /** The agent's own escalation hands the whole command to a root shell, as one word. */
  lemma RootCommandReadsBack(command: string)
    ensures ReadsAs(RootCommand(command), [Word("sudo"), Word("-n"), Word("/bin/sh"), Word("-lc"), Word(command)])
  {
    PlainWords();
    hide NextToken, ReadWord, ReadTokens, Plain, Quote;
    var quoted := Quote(command, Backslashed) + "";
    var third := "/bin/sh" + (" " + ("-lc" + (" " + quoted)));
    RootShape(Quote(command, Backslashed));
    NoTokens("");
    assert "" + quoted == quoted && "" + command == command;
    TokenReadsBack("", command, Backslashed, "");
    PlainThenBlank("-lc", quoted);
    PlainThenBlank("/bin/sh", "-lc" + (" " + quoted));
    ThreeMore(" " + third, Word("/bin/sh"), " " + ("-lc" + (" " + quoted)), Word("-lc"), " " + quoted, Word(command),
              "", 0);
    SudoPrefix(third, 3);
  }

  lemma RootShape(quoted: string)
    ensures "sudo -n /bin/sh -lc " + quoted
         == "sudo" + (" " + ("-n" + (" " + ("/bin/sh" + (" " + ("-lc" + (" " + (quoted + ""))))))))
  {
    assert "sudo -n /bin/sh -lc " == "sudo" + " " + "-n" + " " + "/bin/sh" + " " + "-lc" + " ";
    assert quoted + "" == quoted;
  }

  lemma SudoPrefix(inner: string, n: nat)
    requires ReadTokens(" " + inner, n).Tokens?
    ensures var after := ReadTokens(" " + inner, n);
            ReadTokens("sudo" + (" " + ("-n" + (" " + inner))), n + 2)
            == Tokens([Word("sudo"), Word("-n")] + after.tokens, after.rest)
  {
    PlainWords();
    hide NextToken, ReadWord, ReadTokens, Plain;
    var after := ReadTokens(" " + inner, n);
    PlainThenBlank("sudo", "-n" + (" " + inner));
    PlainThenBlank("-n", inner);
    OneMore(" " + ("-n" + (" " + inner)), Word("-n"), " " + inner, n);
    OneMore("sudo" + (" " + ("-n" + (" " + inner))), Word("sudo"), " " + ("-n" + (" " + inner)), n + 1);
    assert [Word("sudo")] + ([Word("-n")] + after.tokens) == [Word("sudo"), Word("-n")] + after.tokens;
  }

  lemma SudoShape(cd: string, command: string)
    ensures "sudo -n " + cd + command == "sudo" + (" " + ("-n" + (" " + (cd + command))))
  {
    assert "sudo -n " == "sudo" + (" " + ("-n" + " "));
  }
}
