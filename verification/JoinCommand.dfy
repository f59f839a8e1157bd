/** The join command: rendered by the controller with shell quoting, read back by a shell and
    by the argument loop of the join script. */
module JoinCommand {
  import opened Collections
  import opened MachineNames

  // ------------------------------------------------------------------ quoting

  const QUOTED_QUOTE := ['\'', '"', '\'', '"', '\'']

  function Escape(s: string): string {
    if s == "" then "" else (if s[0] == '\'' then QUOTED_QUOTE else [s[0]]) + Escape(s[1..])
  }

  function ShellQuote(value: string): string { ['\''] + Escape(value) + ['\''] }

  // ---------------------------------------------------------------- the shell

  datatype Token = Word(text: string) | Pipe

  datatype Mode = Between | InWord | InSingle | InDouble

  predicate Blank(c: char) { c == ' ' || c == '\t' }

  /** Characters with a meaning of their own outside quotes, other than blanks, quotes and the
      pipe. None may appear. */
  predicate Special(c: char) {
    c in {'\n', '\r', '&', ';', '<', '>', '(', ')', '$', '`', '\\', '*', '?', '[', '#', '~', '=', '%', '{', '}', '!'}
  }

  predicate NulFree(s: string) { forall i :: 0 <= i < |s| ==> s[i] != '\0' }

  function Then(t: seq<Token>, rest: Option<seq<Token>>): Option<seq<Token>> {
    if rest.Some? then Some(t + rest.value) else None
  }

  /** Token recognition with single and double quotes (sections 2.2.2, 2.2.3 and 2.3 of the POSIX
      Shell Command Language). None for an unterminated quote, an expansion, a NUL or any
      construct outside this small language. */
  function Lex(s: string, mode: Mode, word: string): Option<seq<Token>> {
    if s == "" then
      (match mode
       case Between => Some([])
       case InWord => Some([Word(word)])
       case InSingle => None
       case InDouble => None)
    else
      var c, rest := s[0], s[1..];
      if c == '\0' then None
      else
        match mode
        case InSingle => if c == '\'' then Lex(rest, InWord, word) else Lex(rest, InSingle, word + [c])
        case InDouble =>
          if c == '"' then Lex(rest, InWord, word)
          else if c in {'$', '`', '\\'} then None
          else Lex(rest, InDouble, word + [c])
        case Between =>
          if Blank(c) then Lex(rest, Between, "")
          else if c == '|' then (if rest != "" && rest[0] == '|' then None else Then([Pipe], Lex(rest, Between, "")))
          else if c == '\'' then Lex(rest, InSingle, "")
          else if c == '"' then Lex(rest, InDouble, "")
          else if Special(c) then None
          else Lex(rest, InWord, [c])
        case InWord =>
          if Blank(c) then Then([Word(word)], Lex(rest, Between, ""))
          else if c == '|' then (if rest != "" && rest[0] == '|'
              then None else Then([Word(word), Pipe], Lex(rest, Between, "")))
          else if c == '\'' then Lex(rest, InSingle, word)
          else if c == '"' then Lex(rest, InDouble, word)
          else if Special(c) then None
          else Lex(rest, InWord, word + [c])
  }

  function Tokens(line: string): Option<seq<Token>> { Lex(line, Between, "") }

  lemma {:induction false} LexEscaped(v: string, rest: string, word: string)
    requires NulFree(v)
    ensures Lex(Escape(v) + ['\''] + rest, InSingle, word) == Lex(rest, InWord, word + v)
  {
    if v == "" {
      assert (Escape(v) + ['\''] + rest)[1..] == rest;
      assert word + v == word;
    } else {
      var more := Escape(v[1..]) + ['\''] + rest;
      assert word + [v[0]] + v[1..] == word + v;
      if v[0] == '\'' {
        LexQuotedQuote(more, word);
        assert Escape(v) + ['\''] + rest == QUOTED_QUOTE + more;
      } else {
        assert Escape(v) + ['\''] + rest == [v[0]] + more;
        assert ([v[0]] + more)[1..] == more;
      }
      LexEscaped(v[1..], rest, word + [v[0]]);
    }
  }

  lemma LexQuotedQuote(more: string, word: string)
    ensures Lex(QUOTED_QUOTE + more, InSingle, word) == Lex(more, InSingle, word + ['\''])
  {
    var s := QUOTED_QUOTE + more;
    assert s[1..][1..][1..][1..][1..] == more;
    LexOne(s, InSingle, word);
    LexOne(s[1..], InWord, word);
    LexOne(s[1..][1..], InDouble, word);
    LexOne(s[1..][1..][1..], InDouble, word + ['\'']);
    LexOne(s[1..][1..][1..][1..], InWord, word + ['\'']);
  }

  /** One quote character read in a mode. */
  lemma LexOne(s: string, mode: Mode, word: string)
    requires s != "" && (s[0] == '\'' || s[0] == '"') && !mode.Between?
    ensures Lex(s, mode, word) == (
      match mode
      case InSingle => if s[0] == '\'' then Lex(s[1..], InWord, word) else Lex(s[1..], InSingle, word + [s[0]])
      case InDouble => if s[0] == '"' then Lex(s[1..], InWord, word) else Lex(s[1..], InDouble, word + [s[0]])
      case InWord => if s[0] == '\'' then Lex(s[1..], InSingle, word) else Lex(s[1..], InDouble, word)
      case Between => None)
  {
  }

  /** A NUL cannot be part of any command line. */
  lemma {:induction false} LexNul(s: string, mode: Mode, word: string)
    requires !NulFree(s)
    ensures Lex(s, mode, word) == None
    decreases |s|
  {
    if s[0] != '\0' {
      var rest := s[1..];
      assert !NulFree(rest) by {
        var i :| 0 <= i < |s| && s[i] == '\0';
        assert rest[i - 1] == '\0';
      }
      match mode
      case Between =>
        LexNul(rest, Between, "");
        LexNul(rest, InSingle, "");
        LexNul(rest, InDouble, "");
        LexNul(rest, InWord, [s[0]]);
      case InWord =>
        LexNul(rest, Between, "");
        LexNul(rest, InSingle, word);
        LexNul(rest, InDouble, word);
        LexNul(rest, InWord, word + [s[0]]);
      case InSingle =>
        LexNul(rest, InWord, word);
        LexNul(rest, InSingle, word + [s[0]]);
      case InDouble =>
        LexNul(rest, InWord, word);
        LexNul(rest, InDouble, word + [s[0]]);
    }
  }

  predicate PlainChar(c: char) { c != '\0' && !Blank(c) && !Special(c) && c != '|' && c != '\'' && c != '"' }

  predicate PlainWord(w: string) { w != "" && forall i :: 0 <= i < |w| ==> PlainChar(w[i]) }

  lemma {:induction false} LexPlain(w: string, rest: string, word: string)
    requires forall i :: 0 <= i < |w| ==> PlainChar(w[i])
    ensures Lex(w + rest, InWord, word) == Lex(rest, InWord, word + w)
  {
    if w == "" {
      assert w + rest == rest && word + w == word;
    } else {
      assert (w + rest)[1..] == w[1..] + rest;
      assert word + [w[0]] + w[1..] == word + w;
      LexPlain(w[1..], rest, word + [w[0]]);
    }
  }

  // ----------------------------------------------------------- lines of items

  /** A piece of a command line: a word that needs no quotes, a quoted value, or a pipe. */
  datatype Item = Plain(word: string) | Quoted(value: string) | Bar

  function ItemText(i: Item): string {
    match i
    case Plain(w) => w
    case Quoted(v) => ShellQuote(v)
    case Bar => "|"
  }

  function ItemToken(i: Item): Token {
    match i
    case Plain(w) => Word(w)
    case Quoted(v) => Word(v)
    case Bar => Pipe
  }

  predicate ItemOk(i: Item) {
    match i
    case Plain(w) => PlainWord(w)
    case Quoted(v) => NulFree(v)
    case Bar => true
  }

  function Render(items: seq<Item>): string {
    if items == [] then ""
    else if |items| == 1 then ItemText(items[0])
    else ItemText(items[0]) + " " + Render(items[1..])
  }

  function TokensOf(items: seq<Item>): seq<Token> {
    if items == [] then [] else [ItemToken(items[0])] + TokensOf(items[1..])
  }

  lemma EndOfWord(rest: string, word: string)
    requires rest == "" || rest[0] == ' '
    ensures Lex(rest, InWord, word) == Then([Word(word)], if rest == "" then Some([]) else Lex(rest[1..], Between, ""))
  {
    assert [Word(word)] + [] == [Word(word)];
  }

  lemma LexQuoted(v: string, rest: string)
    requires NulFree(v)
    ensures Lex(ShellQuote(v) + rest, Between, "") == Lex(rest, InWord, v)
  {
    var s := ShellQuote(v) + rest;
    assert s[0] == '\'' && s[1..] == Escape(v) + ['\''] + rest;
    assert Lex(s, Between, "") == Lex(s[1..], InSingle, "");
    LexEscaped(v, rest, "");
    assert "" + v == v;
  }

  /** After an item comes the end of the line or a blank. */
  lemma LexItem(i: Item, rest: string)
    requires ItemOk(i) && (rest == "" || rest[0] == ' ')
    ensures Lex(ItemText(i) + rest, Between, "")
        == Then([ItemToken(i)], if rest == "" then Some([]) else Lex(rest[1..], Between, ""))
  {
    match i
    case Plain(w) =>
      assert (w + rest)[1..] == w[1..] + rest;
      LexPlain(w[1..], rest, [w[0]]);
      assert [w[0]] + w[1..] == w;
      EndOfWord(rest, w);
    case Quoted(v) =>
      LexQuoted(v, rest);
      EndOfWord(rest, v);
    case Bar =>
      assert ("|" + rest)[1..] == rest;
  }

  lemma {:induction false} LexRendered(items: seq<Item>)
    requires forall i :: 0 <= i < |items| ==> ItemOk(items[i])
    ensures Tokens(Render(items)) == Some(TokensOf(items))
  {
    if |items| == 1 {
      assert ItemText(items[0]) + "" == ItemText(items[0]);
      LexItem(items[0], "");
    } else if |items| > 1 {
      var rest := " " + Render(items[1..]);
      assert Render(items) == ItemText(items[0]) + rest;
      assert rest[1..] == Render(items[1..]);
      LexItem(items[0], rest);
      LexRendered(items[1..]);
    }
  }

  // ----------------------------------------------------------- the join command

  /** What a join command is made from. */
  datatype Join = Join(url: string, code: string, name: Option<string>, workdir: Option<string>, persist: bool)

  function NameArgs(j: Join): seq<Item> {
    if j.name.Some? && j.name.value != "" then [Plain("--name"), Quoted(j.name.value)] else []
  }

  function WorkdirArgs(j: Join): seq<Item> {
    if j.workdir.Some? && j.workdir.value != "" then [Plain("--workdir"), Quoted(j.workdir.value)] else []
  }

  function PersistArgs(j: Join): seq<Item> { if j.persist then [Plain("--persist")] else [] }

  function Args(j: Join): seq<Item> {
    [Plain("--invite"), Quoted(j.code)] + NameArgs(j) + WorkdirArgs(j) + PersistArgs(j)
  }

  function Head(j: Join): seq<Item> {
    [Plain("curl"), Plain("-fsSL"), Quoted(j.url), Bar, Plain("bash"), Plain("-s"), Plain("--")]
  }

  /** The command line handed out by the controller. */
  function Command(j: Join): string { Render(Head(j) + Args(j)) }

  // ----------------------------------------------------------- the join script

  datatype Script = Script(invite: string, name: string, workdir: string, persist: bool)

  datatype Outcome = Ran(script: Script) | MissingValue(option: string) | Unknown(option: string) | InviteRequired

  /** The argument loop, then the check that an invite was given. */
  function ArgLoop(args: seq<string>, st: Script): Outcome
    decreases |args|
  {
    if args == [] then (if st.invite == "" then InviteRequired else Ran(st))
    else if args[0] == "--invite" then
      (if |args| < 2 then MissingValue(args[0]) else ArgLoop(args[2..], st.(invite := args[1])))
    else if args[0] == "--name" then
      (if |args| < 2 then MissingValue(args[0]) else ArgLoop(args[2..], st.(name := args[1])))
    else if args[0] == "--workdir" then
      (if |args| < 2 then MissingValue(args[0]) else ArgLoop(args[2..], st.(workdir := args[1])))
    else if args[0] == "--persist" then ArgLoop(args[1..], st.(persist := true))
    else Unknown(args[0])
  }

  const NoArguments := Script("", "", "", false)

  /** The loop as the script runs it, shifting its arguments. */
  method RunScript(arguments: seq<string>) returns (outcome: Outcome)
    ensures outcome == ArgLoop(arguments, NoArguments)
  {
    var args := arguments;
    var invite, name, workdir, persist := "", "", "", false;
    while args != []
      invariant ArgLoop(arguments, NoArguments) == ArgLoop(args, Script(invite, name, workdir, persist))
      decreases |args|
    {
      var option := args[0];
      if option == "--invite" {
        if |args| < 2 { return MissingValue(option); }
        invite := args[1];
        args := args[2..];
      } else if option == "--name" {
        if |args| < 2 { return MissingValue(option); }
        name := args[1];
        args := args[2..];
      } else if option == "--workdir" {
        if |args| < 2 { return MissingValue(option); }
        workdir := args[1];
        args := args[2..];
      } else if option == "--persist" {
        persist := true;
        args := args[1..];
      } else {
        return Unknown(option);
      }
    }
    outcome := if invite == "" then InviteRequired else Ran(Script(invite, name, workdir, persist));
  }

  // ------------------------------------------------------------- the round trip

  function Texts(tokens: seq<Token>): seq<string> {
    if tokens == [] then []
    else (match tokens[0] case Word(w) => [w] case Pipe => []) + Texts(tokens[1..])
  }

  /** Running a command line: download the script from a URL and pipe it to bash with these
      positional parameters. */
  function Execute(line: string): Option<(string, Outcome)> {
    match Tokens(line)
    case None => None
    case Some(t) =>
      if |t| >= 7 && t[0] == Word("curl") && t[1] == Word("-fsSL") && t[2].Word? && t[3] == Pipe
         && t[4] == Word("bash") && t[5] == Word("-s") && t[6] == Word("--") && Pipe !in t[7..]
      then Some((t[2].text, ArgLoop(Texts(t[7..]), NoArguments)))
      else None
  }

  lemma {:induction false} TokensPlus(a: seq<Item>, b: seq<Item>)
    ensures TokensOf(a + b) == TokensOf(a) + TokensOf(b)
  {
    if a == [] {
      assert a + b == b;
    } else {
      assert (a + b)[1..] == a[1..] + b;
      TokensPlus(a[1..], b);
    }
  }

  /** The value of an item that is a word. */
  function ItemWord(i: Item): string
    requires !i.Bar?
  {
    match i
    case Plain(w) => w
    case Quoted(v) => v
  }

  lemma {:induction false} TextsOfWords(items: seq<Item>, words: seq<string>)
    requires |words| == |items| && forall i :: 0 <= i < |items| ==> !items[i].Bar? && words[i] == ItemWord(items[i])
    ensures Texts(TokensOf(items)) == words && Pipe !in TokensOf(items)
  {
    if items != [] {
      TextsOfWords(items[1..], words[1..]);
      assert TokensOf(items)[1..] == TokensOf(items[1..]);
      assert words == [words[0]] + words[1..];
    }
  }

  /** The arguments as the script should see them. */
  function ArgWords(j: Join): seq<string> {
    ["--invite", j.code]
    + (if j.name.Some? && j.name.value != "" then ["--name", j.name.value] else [])
    + (if j.workdir.Some? && j.workdir.value != "" then ["--workdir", j.workdir.value] else [])
    + (if j.persist then ["--persist"] else [])
  }

  function Expected(j: Join): Script {
    Script(j.code, if j.name.Some? then j.name.value else "", if j.workdir.Some? then j.workdir.value else "",
        j.persist)
  }

  lemma ArgLoopReads(j: Join)
    requires j.code != ""
    ensures ArgLoop(ArgWords(j), NoArguments) == Ran(Expected(j))
  {
    var st := NoArguments.(invite := j.code);
    var persist := if j.persist then ["--persist"] else [];
    var workdir := (if j.workdir.Some? && j.workdir.value != "" then ["--workdir", j.workdir.value] else []) + persist;
    var name := (if j.name.Some? && j.name.value != "" then ["--name", j.name.value] else []) + workdir;
    assert ArgWords(j) == ["--invite", j.code] + name;
    assert ArgWords(j)[2..] == name;
    assert ArgLoop(ArgWords(j), NoArguments) == ArgLoop(name, st);
    var st1 := st.(name := if j.name.Some? then j.name.value else "");
    NamedLoop(name, workdir, st, st1, j);
    var st2 := st1.(workdir := if j.workdir.Some? then j.workdir.value else "");
    WorkdirLoop(workdir, persist, st1, st2, j);
    if j.persist {
      assert persist[1..] == [];
    }
  }

  lemma NamedLoop(args: seq<string>, rest: seq<string>, st: Script, st1: Script, j: Join)
    requires args == (if j.name.Some? && j.name.value != "" then ["--name", j.name.value] else []) + rest
    requires st.name == "" && st1 == st.(name := if j.name.Some? then j.name.value else "")
    ensures ArgLoop(args, st) == ArgLoop(rest, st1)
  {
    if j.name.Some? && j.name.value != "" {
      assert args[0] == "--name" && args[2..] == rest;
    } else {
      assert args == rest;
    }
  }

  lemma WorkdirLoop(args: seq<string>, rest: seq<string>, st: Script, st1: Script, j: Join)
    requires args == (if j.workdir.Some? && j.workdir.value != "" then ["--workdir", j.workdir.value] else []) + rest
    requires st.workdir == "" && st1 == st.(workdir := if j.workdir.Some? then j.workdir.value else "")
    ensures ArgLoop(args, st) == ArgLoop(rest, st1)
  {
    if j.workdir.Some? && j.workdir.value != "" {
      assert args[0] == "--workdir" && args[2..] == rest;
    } else {
      assert args == rest;
    }
  }

  lemma ValidNameIsNulFree(name: string)
    requires ValidName(name)
    ensures NulFree(name) && name != ""
  {
    assert forall i :: 0 <= i < |name| ==> Allowed(name[i]);
  }

  lemma ItemsOk(j: Join)
    requires NulFree(j.url) && NulFree(j.code) && (j.name.Some? ==> NulFree(j.name.value))
        && (j.workdir.Some? ==> NulFree(j.workdir.value))
    ensures forall i :: 0 <= i < |Head(j) + Args(j)| ==> ItemOk((Head(j) + Args(j))[i])
  {
    PlainWords();
    hide PlainWord, NulFree;
  }

  lemma PlainWords()
    ensures PlainWord("curl") && PlainWord("-fsSL") && PlainWord("bash") && PlainWord("-s") && PlainWord("--")
    ensures PlainWord("--invite") && PlainWord("--name") && PlainWord("--workdir") && PlainWord("--persist")
  {
    hide PlainChar;
    PlainLetters();
  }

  lemma PlainLetters()
    ensures forall c :: 'a' <= c <= 'z' || 'A' <= c <= 'Z' || c == '-' ==> PlainChar(c)
  {
  }

  lemma HeadTokens(j: Join)
    ensures TokensOf(Head(j)) == [Word("curl"), Word("-fsSL"), Word(j.url), Pipe, Word("bash"), Word("-s"), Word("--")]
  {
    hide ItemToken;
    ConsTokens(Plain("--"), []);
    ConsTokens(Plain("-s"), [Plain("--")]);
    ConsTokens(Plain("bash"), [Plain("-s"), Plain("--")]);
    ConsTokens(Bar, [Plain("bash"), Plain("-s"), Plain("--")]);
    ConsTokens(Quoted(j.url), [Bar, Plain("bash"), Plain("-s"), Plain("--")]);
    ConsTokens(Plain("-fsSL"), [Quoted(j.url), Bar, Plain("bash"), Plain("-s"), Plain("--")]);
    ConsTokens(Plain("curl"), [Plain("-fsSL"), Quoted(j.url), Bar, Plain("bash"), Plain("-s"), Plain("--")]);
    HeadItems(j);
  }

  lemma HeadItems(j: Join)
    ensures ItemToken(Plain("curl")) == Word("curl") && ItemToken(Plain("-fsSL")) == Word("-fsSL")
    ensures ItemToken(Quoted(j.url)) == Word(j.url) && ItemToken(Bar) == Pipe
    ensures ItemToken(Plain("bash")) == Word("bash") && ItemToken(Plain("-s")) == Word("-s")
        && ItemToken(Plain("--")) == Word("--")
  {
  }

  lemma ConsTokens(i: Item, rest: seq<Item>)
    ensures TokensOf([i] + rest) == [ItemToken(i)] + TokensOf(rest)
  {
    assert ([i] + rest)[1..] == rest;
  }

  lemma ArgsAreWords(j: Join)
    ensures |ArgWords(j)| == |Args(j)|
        && forall i :: 0 <= i < |Args(j)| ==> !Args(j)[i].Bar? && ArgWords(j)[i] == ItemWord(Args(j)[i])
  {
  }

  /** Running the rendered command downloads from the given URL and hands the script exactly the
      invite, name, workdir and persist flag it was made from, for every valid name and every
      workdir without a NUL, quotes, blanks and newlines included. */
  lemma JoinRoundTrip(j: Join)
    requires NulFree(j.url) && NulFree(j.code) && j.code != "" && (j.name.Some? ==> ValidName(j.name.value))
    requires j.workdir.Some? ==> NulFree(j.workdir.value)
    ensures Execute(Command(j)) == Some((j.url, Ran(Expected(j))))
  {
    hide Lex, Render, NulFree, ValidName, PlainWord, ArgLoop, Args, Head, ArgWords;
    if j.name.Some? { ValidNameIsNulFree(j.name.value); }
    ItemsOk(j);
    LexRendered(Head(j) + Args(j));
    TokensPlus(Head(j), Args(j));
    HeadTokens(j);
    ArgsAreWords(j);
    TextsOfWords(Args(j), ArgWords(j));
    ArgLoopReads(j);
    var t := TokensOf(Head(j) + Args(j));
    assert t[7..] == TokensOf(Args(j));
  }

  lemma {:induction false} EscapeNul(v: string)
    requires !NulFree(v)
    ensures !NulFree(Escape(v))
  {
    if v[0] == '\0' {
      assert Escape(v)[0] == '\0';
    } else {
      TailNul(v);
      EscapeNul(v[1..]);
      PlusNul(if v[0] == '\'' then QUOTED_QUOTE else [v[0]], Escape(v[1..]));
    }
  }

  lemma TailNul(v: string)
    requires !NulFree(v) && v[0] != '\0'
    ensures !NulFree(v[1..])
  {
    var i :| 0 <= i < |v| && v[i] == '\0';
    assert v[1..][i - 1] == '\0';
  }

  lemma PlusNul(a: string, b: string)
    ensures !NulFree(a) || !NulFree(b) ==> !NulFree(a + b)
  {
    if !NulFree(a) {
      var i :| 0 <= i < |a| && a[i] == '\0';
      assert (a + b)[i] == '\0';
    } else if !NulFree(b) {
      var i :| 0 <= i < |b| && b[i] == '\0';
      assert (a + b)[|a| + i] == '\0';
    }
  }

  lemma {:induction false} RenderedNul(items: seq<Item>, k: nat)
    requires k < |items| && items[k].Quoted? && !NulFree(items[k].value)
    ensures !NulFree(Render(items))
  {
    hide NulFree, Escape;
    if k == 0 {
      EscapeNul(items[0].value);
      PlusNul(['\''], Escape(items[0].value));
      PlusNul(['\''] + Escape(items[0].value), ['\'']);
      PlusNul(ItemText(items[0]), " ");
      PlusNul(ItemText(items[0]) + " ", Render(items[1..]));
    } else {
      RenderedNul(items[1..], k - 1);
      PlusNul(ItemText(items[0]) + " ", Render(items[1..]));
    }
  }

  lemma WorkdirPlace(j: Join) returns (k: nat)
    requires j.workdir.Some? && j.workdir.value != ""
    ensures k < |Head(j) + Args(j)| && (Head(j) + Args(j))[k] == Quoted(j.workdir.value)
  {
    k := |Head(j)| + 2 + |NameArgs(j)| + 1;
  }

  /** For every valid name and any workdir the round trip succeeds exactly when the workdir has
      no NUL; with one, no shell accepts the line. */
  lemma JoinRoundTripExactly(j: Join)
    requires NulFree(j.url) && NulFree(j.code) && j.code != "" && (j.name.Some? ==> ValidName(j.name.value))
    ensures Execute(Command(j)) == Some((j.url, Ran(Expected(j)))) <==> (j.workdir.Some? ==> NulFree(j.workdir.value))
    ensures (j.workdir.Some? && !NulFree(j.workdir.value)) ==> Execute(Command(j)) == None
  {
    if j.workdir.None? || NulFree(j.workdir.value) {
      hide ValidName, Execute, NulFree;
      JoinRoundTrip(j);
    } else {
      var k := WorkdirPlace(j);
      RenderedNul(Head(j) + Args(j), k);
      hide NulFree, Lex, Render, Head, Args;
      LexNul(Command(j), Between, "");
    }
  }

  lemma {:induction false} RenderPlus(a: seq<Item>, b: seq<Item>)
    requires a != [] && b != []
    ensures Render(a + b) == Render(a) + " " + Render(b)
  {
    if |a| == 1 {
      assert (a + b)[1..] == b;
    } else {
      assert (a + b)[1..] == a[1..] + b;
      RenderPlus(a[1..], b);
    }
  }

  /** The command is the fixed download pipeline followed by the arguments; the persistent one
      is the same with one more word. */
  lemma CommandText(j: Join)
    ensures Command(j) == Render(Head(j)) + " " + Render(Args(j))
    ensures !j.persist ==> Command(j.(persist := true)) == Command(j) + " " + "--persist"
  {
    RenderPlus(Head(j), Args(j));
    if !j.persist {
      var p := j.(persist := true);
      assert Head(p) + Args(p) == (Head(j) + Args(j)) + [Plain("--persist")];
      RenderPlus(Head(j) + Args(j), [Plain("--persist")]);
    }
  }
}
