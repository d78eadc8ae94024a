/** Quoting for the shell, and the command line that runs an execution. */
module ShellQuote {
  import opened Options

  // ---- How a shell reads a line (sections 2.2.1, 2.2.2 and 2.3 of the POSIX.1-2017 Shell Command
  //      Language).  A longer operator is a run of one-character ones. ----

  datatype Token = Word(text: string) | Operator(symbol: char)

  datatype Mode = Plain | SingleQuoted | Escaped

  /** The lexer, or the verdict that it met an active character that would be expanded. */
  datatype Lexer = Lexer(mode: Mode, word: Option<string>, tokens: seq<Token>) | Expands

  const BLANKS := {' ', '\t'}
  const OPERATORS := {';', '|', '&', '<', '>', '(', ')', '\n'}
  const ACTIVE := {'"', '$', '`', '*', '?', '[', ']', '#', '~', '!', '{', '}'}

  function Add(word: Option<string>, c: char): Option<string> {
    Some((if word.Some? then word.value else "") + [c])
  }

  function Flush(word: Option<string>, tokens: seq<Token>): seq<Token> {
    if word.Some? then tokens + [Word(word.value)] else tokens
  }

  function Feed(l: Lexer, c: char): Lexer {
    match l
    case Expands => Expands
    case Lexer(SingleQuoted, w, ts) =>
      if c == '\'' then Lexer(Plain, w, ts) else Lexer(SingleQuoted, Add(w, c), ts)
    case Lexer(Escaped, w, ts) =>
      if c == '\n' then Lexer(Plain, w, ts) else Lexer(Plain, Add(w, c), ts)
    case Lexer(Plain, w, ts) =>
      if c == '\'' then Lexer(SingleQuoted, if w.None? then Some("") else w, ts)
      else if c == '\\' then Lexer(Escaped, w, ts)
      else if c in BLANKS then Lexer(Plain, None, Flush(w, ts))
      else if c in OPERATORS then Lexer(Plain, None, Flush(w, ts) + [Operator(c)])
      else if c in ACTIVE then Expands
      else Lexer(Plain, Add(w, c), ts)
  }

  function FeedAll(l: Lexer, s: string): Lexer
    decreases |s|
  {
    if s == [] then l else FeedAll(Feed(l, s[0]), s[1..])
  }

  /** The tokens of a line, if no quote is left open and nothing is expanded. */
  function Lex(s: string): Option<seq<Token>> {
    match FeedAll(Lexer(Plain, None, []), s)
    case Lexer(Plain, w, ts) => Some(Flush(w, ts))
    case _ => None
  }

  // ---- The program ----

  /** Every quote closes the quoted text, stands there escaped, and opens it again. */
  function Escape(value: string): string {
    if value == [] then [] else (if value[0] == '\'' then "'\\''" else [value[0]]) + Escape(value[1..])
  }

  function Quote(value: string): string {
    if value == "" then "''" else "'" + Escape(value) + "'"
  }

  function Join(segments: seq<string>, separator: string): string {
    if segments == [] then "" else if |segments| == 1 then segments[0]
    else segments[0] + separator + Join(segments[1..], separator)
  }

  const SETUP := [
    "set -e",
    "export " + "HOME=" + "/home/carrier",
    "export " + "CODEX_HOME=" + "/home/carrier" + "/.codex",
    ". " + "/home/carrier" + "/.bash_profile" + " >/dev/null" + " 2>&1 || true"]

  /** The script that bash runs; the callback is a script for node, when one is configured. */
  function Script(dir: string, path: string, prompt: string, callback: Option<string>): string {
    var segments := SETUP + [
      Mkdir(dir),
      Cd(dir),
      CodexFront(dir, path) + Quote(prompt)];
    Join(if callback.Some? then segments + [Bare("node") + Bare("-e") + Quote(callback.value)] else segments, "; ")
  }

  function Mkdir(dir: string): string { Bare("mkdir") + Bare("-p") + Quote(dir) }

  function Cd(dir: string): string { Bare("cd") + Quote(dir) }

  function CodexFront(dir: string, path: string): string {
    Bare("codex") + Bare("exec") + Bare("--cd") + (Quote(dir) + " ") +
    (Bare(SKIP) + Bare("--full-auto") + Bare(OUTPUT)) + (Quote(path) + " ")
  }

  /** A word of the fixed text with the space after it. */
  function Bare(w: string): string { w + " " }

  const SKIP := "--skip-git" + "-repo-check"
  const OUTPUT := "--output" + "-last-message"

  function RunCommand(dir: string, path: string, prompt: string, callback: Option<string>): string {
    Bare("bash") + Bare("-lc") + Quote(Script(dir, path, prompt, callback))
  }

  // ---- Reading back ----

  lemma {:induction false} FeedAppend(l: Lexer, a: string, b: string)
    ensures FeedAll(l, a + b) == FeedAll(FeedAll(l, a), b)
    decreases |a|
  {
    if a == [] {
      assert a + b == b;
    } else {
      FeedAppend(Feed(l, a[0]), a[1..], b);
      assert (a + b)[1..] == a[1..] + b;
    }
  }

  /** Inside single quotes the escaped text reads as the text itself. */
  lemma {:induction false} FeedEscape(w: string, ts: seq<Token>, s: string)
    ensures FeedAll(Lexer(SingleQuoted, Some(w), ts), Escape(s)) == Lexer(SingleQuoted, Some(w + s), ts)
    decreases |s|
  {
    var l := Lexer(SingleQuoted, Some(w), ts);
    if s == [] {
      assert w + s == w;
    } else {
      var piece := if s[0] == '\'' then "'\\''" else [s[0]];
      FeedAppend(l, piece, Escape(s[1..]));
      assert FeedAll(l, piece) == Lexer(SingleQuoted, Some(w + [s[0]]), ts) by {
        if s[0] == '\'' {
          FeedFour(l, '\'', '\\', '\'', '\'');
        } else {
          assert piece[1..] == [];
        }
      }
      FeedEscape(w + [s[0]], ts, s[1..]);
      assert w + [s[0]] + s[1..] == w + s;
    }
  }

  lemma FeedFour(l: Lexer, a: char, b: char, c: char, d: char)
    ensures FeedAll(l, [a, b, c, d]) == Feed(Feed(Feed(Feed(l, a), b), c), d)
  {
    assert [a, b, c, d] == [a] + [b] + [c] + [d];
    FeedAppend(l, [a] + [b] + [c], [d]);
    FeedAppend(l, [a] + [b], [c]);
    FeedAppend(l, [a], [b]);
    FeedOne(l, a);
    FeedOne(Feed(l, a), b);
    FeedOne(Feed(Feed(l, a), b), c);
    FeedOne(Feed(Feed(Feed(l, a), b), c), d);
  }

  /** A quoted value is read as one word, the value, wherever a word may start. */
  lemma FeedQuote(ts: seq<Token>, s: string)
    ensures FeedAll(Lexer(Plain, None, ts), Quote(s)) == Lexer(Plain, Some(s), ts)
  {
    var l := Lexer(Plain, None, ts);
    assert Quote(s) == ['\''] + Escape(s) + ['\''];
    FeedAppend(l, ['\''] + Escape(s), ['\'']);
    FeedAppend(l, ['\''], Escape(s));
    FeedOne(l, '\'');
    FeedEscape("", ts, s);
    assert "" + s == s;
    FeedOne(Lexer(SingleQuoted, Some(s), ts), '\'');
  }

  lemma FeedOne(l: Lexer, c: char)
    ensures FeedAll(l, [c]) == Feed(l, c)
  {
  }

  /** Reading Quote(s) gives exactly one word, equal to s, for every string s. */
  lemma QuoteIsOneWord(s: string)
    ensures Lex(Quote(s)) == Some([Word(s)])
  {
    FeedQuote([], s);
    assert Flush(Some(s), []) == [Word(s)];
  }

  predicate Ordinary(c: char) {
    c != '\'' && c != '\\' && c !in BLANKS && c !in OPERATORS && c !in ACTIVE
  }

  lemma {:induction false} FeedOrdinary(w: Option<string>, ts: seq<Token>, s: string)
    requires s != [] && forall i :: 0 <= i < |s| ==> Ordinary(s[i])
    ensures FeedAll(Lexer(Plain, w, ts), s) == Lexer(Plain, Some((if w.Some? then w.value else "") + s), ts)
    decreases |s|
  {
    var v := if w.Some? then w.value else "";
    if |s| == 1 {
      assert s == [s[0]];
      FeedOne(Lexer(Plain, w, ts), s[0]);
    } else {
      FeedOrdinary(Add(w, s[0]), ts, s[1..]);
      assert v + [s[0]] + s[1..] == v + s;
    }
  }

  /** A bare word and the space after it. */
  lemma FeedWord(ts: seq<Token>, s: string)
    requires s != [] && forall i :: 0 <= i < |s| ==> Ordinary(s[i])
    ensures FeedAll(Lexer(Plain, None, ts), s + " ") == Lexer(Plain, None, ts + [Word(s)])
  {
    FeedAppend(Lexer(Plain, None, ts), s, " ");
    FeedOrdinary(None, ts, s);
    assert "" + s == s;
    FeedOne(Lexer(Plain, Some(s), ts), ' ');
  }

  /** A quoted value and the space or the semicolon after it. */
  lemma FeedQuoted(ts: seq<Token>, s: string)
    ensures FeedAll(Lexer(Plain, None, ts), Quote(s) + " ") == Lexer(Plain, None, ts + [Word(s)])
    ensures FeedAll(Lexer(Plain, None, ts), Quote(s) + "; ") == Lexer(Plain, None, ts + [Word(s), Operator(';')])
  {
    var l := Lexer(Plain, Some(s), ts);
    FeedQuote(ts, s);
    FeedAppend(Lexer(Plain, None, ts), Quote(s), " ");
    FeedOne(l, ' ');
    FeedAppend(Lexer(Plain, None, ts), Quote(s), "; ");
    assert "; " == [';'] + [' '];
    FeedAppend(l, [';'], [' ']);
    FeedOne(l, ';');
    FeedOne(Feed(l, ';'), ' ');
    assert ts + [Word(s)] + [Operator(';')] == ts + [Word(s), Operator(';')];
  }

  predicate Tame(c: char) {
    c != '\'' && c != '\\' && c !in ACTIVE
  }

  predicate AllTame(s: string) {
    forall i :: 0 <= i < |s| ==> Tame(s[i])
  }

  /** Text without quotes keeps the lexer between or in plain words. */
  lemma {:induction false} FeedTame(w: Option<string>, ts: seq<Token>, s: string)
    requires AllTame(s)
    ensures var l := FeedAll(Lexer(Plain, w, ts), s);
            l.Lexer? && l.mode == Plain && (s != [] && s[|s| - 1] == ' ' ==> l.word == None)
    decreases |s|
  {
    if s != [] {
      var l := Feed(Lexer(Plain, w, ts), s[0]);
      FeedTame(l.word, l.tokens, s[1..]);
    }
  }

  lemma ShortPieces()
    ensures AllTame("set -e") && AllTame("export ") && AllTame("HOME=") && AllTame("; ") && AllTame(". ")
  {
  }

  lemma PathPieces()
    ensures AllTame("/home/carrier") && AllTame("/.codex")
  {
  }

  lemma ProfilePieces()
    ensures AllTame("/.bash_profile") && AllTame("CODEX_HOME=")
  {
  }

  lemma RedirectionPieces()
    ensures AllTame(" >/dev/null") && AllTame(" 2>&1 || true")
  {
  }

  lemma TameAppend(a: string, b: string)
    requires AllTame(a) && AllTame(b)
    ensures AllTame(a + b)
  {
  }

  lemma LinesTame()
    ensures forall i :: 0 <= i < 4 ==> AllTame(SETUP[i])
  {
    ShortPieces();
    PathPieces();
    ProfilePieces();
    RedirectionPieces();
    TameAppend("export ", "HOME=");
    TameAppend("export " + "HOME=", "/home/carrier");
    TameAppend("export ", "CODEX_HOME=");
    TameAppend("export " + "CODEX_HOME=", "/home/carrier");
    TameAppend("export " + "CODEX_HOME=" + "/home/carrier", "/.codex");
    TameAppend(". ", "/home/carrier");
    TameAppend(". " + "/home/carrier", "/.bash_profile");
    TameAppend(". " + "/home/carrier" + "/.bash_profile", " >/dev/null");
    TameAppend(". " + "/home/carrier" + "/.bash_profile" + " >/dev/null", " 2>&1 || true");
  }

  lemma SetupTame()
    ensures AllTame(Join(SETUP, "; ") + "; ")
  {
    ShortPieces();
    LinesTame();
    JoinTame(SETUP);
    TameAppend(Join(SETUP, "; "), "; ");
  }

  lemma {:induction false} JoinTame(segments: seq<string>)
    requires forall i :: 0 <= i < |segments| ==> AllTame(segments[i])
    requires AllTame("; ")
    ensures AllTame(Join(segments, "; "))
  {
    if |segments| > 1 {
      JoinTame(segments[1..]);
    }
  }

  lemma {:induction false} JoinAppend(a: seq<string>, b: seq<string>)
    requires a != [] && b != []
    ensures Join(a + b, "; ") == Join(a, "; ") + "; " + Join(b, "; ")
  {
    if |a| == 1 {
      assert (a + b)[1..] == b;
    } else {
      JoinAppend(a[1..], b);
      assert (a + b)[1..] == a[1..] + b;
    }
  }

  /** The tokens of the lines that do not depend on the input. */
  function SetupTokens(): seq<Token> {
    match FeedAll(Lexer(Plain, None, []), Join(SETUP, "; ") + "; ")
    case Lexer(_, _, ts) => ts
    case Expands => []
  }

  function Commands(dir: string, path: string, prompt: string): seq<Token> {
    [Word("mkdir"), Word("-p"), Word(dir), Operator(';'),
     Word("cd"), Word(dir), Operator(';'),
     Word("codex"), Word("exec"), Word("--cd"), Word(dir), Word(SKIP), Word("--full-auto"),
     Word(OUTPUT), Word(path), Word(prompt)]
  }

  /** From one place where a word may start to the next. */
  ghost predicate Reads(text: string, meaning: seq<Token>) {
    forall ts :: FeedAll(Lexer(Plain, None, ts), text) == Lexer(Plain, None, ts + meaning)
  }

  /** Characters without a meaning of their own: letters, digits and - . / _ = */
  predicate Safe(c: char) {
    'a' <= c <= 'z' || 'A' <= c <= 'Z' || '-' <= c <= '9' || c == '_' || c == '='
  }

  predicate Plainly(w: string) {
    w != [] && forall i :: 0 <= i < |w| ==> Safe(w[i])
  }

  lemma ReadsWord(w: string)
    requires Plainly(w)
    ensures Reads(Bare(w), [Word(w)])
  {
    assert forall c :: Safe(c) ==> Ordinary(c);
    forall ts
      ensures FeedAll(Lexer(Plain, None, ts), Bare(w)) == Lexer(Plain, None, ts + [Word(w)])
    {
      FeedWord(ts, w);
    }
  }

  lemma FixedWords()
    ensures Plainly("mkdir") && Plainly("-p") && Plainly("cd") && Plainly("codex") && Plainly("exec") && Plainly("--cd")
    ensures Plainly("node") && Plainly("-e") && Plainly("bash") && Plainly("-lc")
  {
  }

  lemma LongWords()
    ensures Plainly(SKIP) && Plainly("--full-auto") && Plainly(OUTPUT)
  {
  }

  lemma ReadsQuoted(v: string)
    ensures Reads(Quote(v) + " ", [Word(v)]) && Reads(Quote(v) + "; ", [Word(v), Operator(';')])
  {
    forall ts
      ensures FeedAll(Lexer(Plain, None, ts), Quote(v) + " ") == Lexer(Plain, None, ts + [Word(v)])
      ensures FeedAll(Lexer(Plain, None, ts), Quote(v) + "; ") == Lexer(Plain, None, ts + [Word(v), Operator(';')])
    {
      FeedQuoted(ts, v);
    }
  }

  lemma ReadsBoth(a: string, x: seq<Token>, b: string, y: seq<Token>)
    requires Reads(a, x) && Reads(b, y)
    ensures Reads(a + b, x + y)
  {
    forall ts
      ensures FeedAll(Lexer(Plain, None, ts), a + b) == Lexer(Plain, None, ts + (x + y))
    {
      FeedAppend(Lexer(Plain, None, ts), a, b);
      assert ts + x + y == ts + (x + y);
    }
  }

  lemma ReadsMkdir(dir: string)
    ensures Reads(Mkdir(dir) + "; ", [Word("mkdir"), Word("-p"), Word(dir), Operator(';')])
  {
    FixedWords();
    var a, b, c := Bare("mkdir"), Bare("-p"), Quote(dir) + "; ";
    ReadsWord("mkdir");
    ReadsWord("-p");
    ReadsQuoted(dir);
    ReadsBoth(a, [Word("mkdir")], b, [Word("-p")]);
    ReadsBoth(a + b, [Word("mkdir")] + [Word("-p")], c, [Word(dir), Operator(';')]);
    assert a + b + c == Mkdir(dir) + "; ";
    assert [Word("mkdir")] + [Word("-p")] + [Word(dir), Operator(';')] ==
      [Word("mkdir"), Word("-p"), Word(dir), Operator(';')];
  }

  lemma ReadsCd(dir: string)
    ensures Reads(Cd(dir) + "; ", [Word("cd"), Word(dir), Operator(';')])
  {
    FixedWords();
    ReadsWord("cd");
    ReadsQuoted(dir);
    ReadsBoth(Bare("cd"), [Word("cd")], Quote(dir) + "; ", [Word(dir), Operator(';')]);
    assert Bare("cd") + (Quote(dir) + "; ") == Cd(dir) + "; ";
    assert [Word("cd")] + [Word(dir), Operator(';')] == [Word("cd"), Word(dir), Operator(';')];
  }

  function CodexTokens(dir: string, path: string): seq<Token> {
    [Word("codex"), Word("exec"), Word("--cd"), Word(dir), Word(SKIP), Word("--full-auto"), Word(OUTPUT), Word(path)]
  }

  lemma ReadsThree(u: string, v: string, w: string)
    requires Plainly(u) && Plainly(v) && Plainly(w)
    ensures Reads(Bare(u) + Bare(v) + Bare(w), [Word(u), Word(v), Word(w)])
  {
    ReadsPair(u, v);
    ReadsWord(w);
    ReadsBoth(Bare(u) + Bare(v), [Word(u), Word(v)], Bare(w), [Word(w)]);
    assert [Word(u), Word(v)] + [Word(w)] == [Word(u), Word(v), Word(w)];
  }

  lemma ReadsFour(a: string, x: seq<Token>, u: string, b: string, y: seq<Token>, v: string)
    requires Reads(a, x) && Reads(b, y)
    ensures Reads(a + (Quote(u) + " ") + b + (Quote(v) + " "), x + [Word(u)] + y + [Word(v)])
  {
    ReadsQuoted(u);
    ReadsQuoted(v);
    ReadsBoth(a, x, Quote(u) + " ", [Word(u)]);
    ReadsBoth(a + (Quote(u) + " "), x + [Word(u)], b, y);
    ReadsBoth(a + (Quote(u) + " ") + b, x + [Word(u)] + y, Quote(v) + " ", [Word(v)]);
  }

  lemma ReadsCodex(dir: string, path: string)
    ensures Reads(CodexFront(dir, path), CodexTokens(dir, path))
  {
    FixedWords();
    LongWords();
    ReadsThree("codex", "exec", "--cd");
    ReadsThree(SKIP, "--full-auto", OUTPUT);
    var x, y := [Word("codex"), Word("exec"), Word("--cd")], [Word(SKIP), Word("--full-auto"), Word(OUTPUT)];
    ReadsFour(Bare("codex") + Bare("exec") + Bare("--cd"), x, dir, Bare(SKIP) + Bare("--full-auto") + Bare(OUTPUT),
              y, path);
    assert x + [Word(dir)] + y + [Word(path)] == CodexTokens(dir, path);
  }

  lemma ReadsPair(u: string, v: string)
    requires Plainly(u) && Plainly(v)
    ensures Reads(Bare(u) + Bare(v), [Word(u), Word(v)])
  {
    ReadsWord(u);
    ReadsWord(v);
    ReadsBoth(Bare(u), [Word(u)], Bare(v), [Word(v)]);
    assert [Word(u)] + [Word(v)] == [Word(u), Word(v)];
  }

  /** A line that ends in a quoted value. */
  lemma LexEnd(front: string, ts: seq<Token>, v: string)
    requires FeedAll(Lexer(Plain, None, []), front) == Lexer(Plain, None, ts)
    ensures Lex(front + Quote(v)) == Some(ts + [Word(v)])
  {
    FeedAppend(Lexer(Plain, None, []), front, Quote(v));
    FeedQuote(ts, v);
  }

  lemma Continue(front: string, ts: seq<Token>, text: string, meaning: seq<Token>)
    requires FeedAll(Lexer(Plain, None, []), front) == Lexer(Plain, None, ts) && Reads(text, meaning)
    ensures FeedAll(Lexer(Plain, None, []), front + text) == Lexer(Plain, None, ts + meaning)
  {
    FeedAppend(Lexer(Plain, None, []), front, text);
  }

  lemma SetupRead()
    ensures FeedAll(Lexer(Plain, None, []), Join(SETUP, "; ") + "; ") == Lexer(Plain, None, SetupTokens())
  {
    var s := Join(SETUP, "; ") + "; ";
    SetupTame();
    assert s[|s| - 1] == ' ';
    FeedTame(None, [], s);
  }

  /** The text of the script up to the prompt. */
  function BeforePrompt(dir: string, path: string): string {
    (Join(SETUP, "; ") + "; ") + (Mkdir(dir) + "; ") + (Cd(dir) + "; ") + CodexFront(dir, path)
  }

  lemma ReadsBeforePrompt(dir: string, path: string)
    ensures FeedAll(Lexer(Plain, None, []), BeforePrompt(dir, path)) ==
            Lexer(Plain, None, SetupTokens() + [Word("mkdir"), Word("-p"), Word(dir), Operator(';')] +
                               [Word("cd"), Word(dir), Operator(';')] + CodexTokens(dir, path))
  {
    var a, ts := Join(SETUP, "; ") + "; ", SetupTokens();
    SetupRead();
    ReadsMkdir(dir);
    Continue(a, ts, Mkdir(dir) + "; ", [Word("mkdir"), Word("-p"), Word(dir), Operator(';')]);
    a, ts := a + (Mkdir(dir) + "; "), ts + [Word("mkdir"), Word("-p"), Word(dir), Operator(';')];
    ReadsCd(dir);
    Continue(a, ts, Cd(dir) + "; ", [Word("cd"), Word(dir), Operator(';')]);
    a, ts := a + (Cd(dir) + "; "), ts + [Word("cd"), Word(dir), Operator(';')];
    ReadsCodex(dir, path);
    Continue(a, ts, CodexFront(dir, path), CodexTokens(dir, path));
  }

  lemma JoinThree(front: seq<string>, m: string, c: string, x: string)
    requires front != []
    ensures Join(front + [m, c, x], "; ") == (Join(front, "; ") + "; ") + (m + "; ") + (c + "; ") + x
  {
    JoinAppend(front, [m, c, x]);
    assert [m, c, x] == [m] + [c, x] && [c, x] == [c] + [x];
    JoinAppend([m], [c, x]);
    JoinAppend([c], [x]);
  }

  lemma RegroupEnd(a: string, b: string, q: string)
    ensures a + (b + q) == (a + b) + q
  {
  }

  lemma ScriptText(dir: string, path: string, prompt: string)
    ensures Script(dir, path, prompt, None) == BeforePrompt(dir, path) + Quote(prompt)
  {
    JoinThree(SETUP, Mkdir(dir), Cd(dir), CodexFront(dir, path) + Quote(prompt));
    RegroupEnd((Join(SETUP, "; ") + "; ") + (Mkdir(dir) + "; ") + (Cd(dir) + "; "), CodexFront(dir, path),
               Quote(prompt));
  }

  lemma CallbackText(dir: string, path: string, prompt: string, script: string)
    ensures Script(dir, path, prompt, Some(script)) ==
            Script(dir, path, prompt, None) + "; " + (Bare("node") + Bare("-e") + Quote(script))
  {
    JoinAppend(SETUP + [Mkdir(dir), Cd(dir), CodexFront(dir, path) + Quote(prompt)],
               [Bare("node") + Bare("-e") + Quote(script)]);
  }

  function CallbackTokens(callback: Option<string>): seq<Token> {
    if callback.Some? then [Operator(';'), Word("node"), Word("-e"), Word(callback.value)] else []
  }

  lemma LexCallback(a: string, ts: seq<Token>, prompt: string, script: string)
    requires FeedAll(Lexer(Plain, None, []), a) == Lexer(Plain, None, ts)
    ensures Lex((a + Quote(prompt)) + "; " + (Bare("node") + Bare("-e") + Quote(script))) ==
            Some(ts + [Word(prompt), Operator(';'), Word("node"), Word("-e"), Word(script)])
  {
    var q, n := Quote(prompt) + "; ", Bare("node") + Bare("-e");
    ReadsQuoted(prompt);
    Continue(a, ts, q, [Word(prompt), Operator(';')]);
    FixedWords();
    ReadsPair("node", "-e");
    Continue(a + q, ts + [Word(prompt), Operator(';')], n, [Word("node"), Word("-e")]);
    LexEnd(a + q + n, ts + [Word(prompt), Operator(';')] + [Word("node"), Word("-e")], script);
    TextTogether(a, Quote(prompt), "; ", n, Quote(script));
    ListTogether(ts, Word(prompt), Operator(';'), Word("node"), Word("-e"), Word(script));
  }

  lemma TextTogether(a: string, b: string, c: string, d: string, e: string)
    ensures a + (b + c) + d + e == (a + b) + c + (d + e)
  {
  }

  lemma ListTogether(ts: seq<Token>, a: Token, b: Token, c: Token, d: Token, e: Token)
    ensures ts + [a, b] + [c, d] + [e] == ts + [a, b, c, d, e]
  {
  }

  function TokensBefore(dir: string, path: string): seq<Token> {
    SetupTokens() + [Word("mkdir"), Word("-p"), Word(dir), Operator(';')] + [Word("cd"), Word(dir), Operator(';')] +
    CodexTokens(dir, path)
  }

  lemma TokensTogether(setup: seq<Token>, dir: string, path: string, prompt: string, rest: seq<Token>)
    ensures setup + [Word("mkdir"), Word("-p"), Word(dir), Operator(';')] + [Word("cd"), Word(dir), Operator(';')] +
            CodexTokens(dir, path) + ([Word(prompt)] + rest) == setup + Commands(dir, path, prompt) + rest
  {
  }

  lemma ScriptReadsBack(dir: string, path: string, prompt: string, callback: Option<string>)
    ensures Lex(Script(dir, path, prompt, callback)) ==
            Some(SetupTokens() + Commands(dir, path, prompt) + CallbackTokens(callback))
  {
    var a, ts := BeforePrompt(dir, path), TokensBefore(dir, path);
    ScriptText(dir, path, prompt);
    ReadsBeforePrompt(dir, path);
    TokensTogether(SetupTokens(), dir, path, prompt, CallbackTokens(callback));
    if callback.None? {
      LexEnd(a, ts, prompt);
      assert [Word(prompt)] + [] == [Word(prompt)];
    } else {
      CallbackText(dir, path, prompt, callback.value);
      LexCallback(a, ts, prompt, callback.value);
      assert [Word(prompt)] + CallbackTokens(callback) ==
             [Word(prompt), Operator(';'), Word("node"), Word("-e"), Word(callback.value)];
    }
  }

  lemma RunLine(script: string)
    ensures Lex(Bare("bash") + Bare("-lc") + Quote(script)) == Some([Word("bash"), Word("-lc"), Word(script)])
  {
    FixedWords();
    ReadsPair("bash", "-lc");
    assert [] + [Word("bash"), Word("-lc")] == [Word("bash"), Word("-lc")];
    LexEnd(Bare("bash") + Bare("-lc"), [Word("bash"), Word("-lc")], script);
    assert [Word("bash"), Word("-lc")] + [Word(script)] == [Word("bash"), Word("-lc"), Word(script)];
  }

  /** Both levels of the command line read back exactly: the outer shell hands bash the script as one
      argument, and bash reads in it the directory, the path and the prompt (and the callback script)
      as single words, unchanged. */
  lemma RunCommandReadsBack(dir: string, path: string, prompt: string, callback: Option<string>)
    ensures Lex(RunCommand(dir, path, prompt, callback)) ==
            Some([Word("bash"), Word("-lc"), Word(Script(dir, path, prompt, callback))])
    ensures Lex(Script(dir, path, prompt, callback)) ==
            Some(SetupTokens() + Commands(dir, path, prompt) + CallbackTokens(callback))
  {
    RunLine(Script(dir, path, prompt, callback));
    ScriptReadsBack(dir, path, prompt, callback);
  }
}
