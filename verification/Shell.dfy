/** The part of the POSIX shell that the Job scripts use: token recognition with single and double quotes
    (sections 2.2.2, 2.2.3 and 2.3 of the Shell Command Language chapter of POSIX.1-2017), or-lists, sequential lists,
    and `sh -e`. Text that would need any other rule is refused. */
module Shell {
  import opened Text

  datatype Token = Word(text: string) | IONumber(digits: string) | Op(op: string)

  /** Where the lexer is: between tokens, in an unquoted stretch of a word, or inside quotes. `quoted` tells whether
      any part of the word was quoted. */
  datatype Mode = Blank | Bare(text: string, quoted: bool) | Single(text: string) | Double(text: string)

  /** Characters without a meaning of their own anywhere in a word. */
  predicate Plain(c: char) {
    'a' <= c <= 'z' || 'A' <= c <= 'Z' || '0' <= c <= '9' || c == '-' || c == '_' || c == '/' || c == '.' || c == ':'
  }

  predicate AllPlain(s: string) { forall i :: 0 <= i < |s| ==> Plain(s[i]) }

  predicate OperatorStart(c: char) { c == ';' || c == '|' || c == '&' || c == '>' || c == '<' }

  /** The longest operator at the start of s, or none that is modelled. */
  function OperatorAt(s: string): (n: nat)
    ensures n <= |s| && n <= 2
  {
    if HasPrefix(s, "||") || HasPrefix(s, ">&") then 2
    else if HasPrefix(s, "&&") || HasPrefix(s, ";;") || HasPrefix(s, ">>") || HasPrefix(s, ">|") then 0
    else if HasPrefix(s, ";") || HasPrefix(s, ">") then 1
    else 0
  }

  predicate AllDigits(s: string) { s != "" && forall i :: 0 <= i < |s| ==> IsDigit(s[i]) }

  predicate Outside(m: Mode) { m.Blank? || m.Bare? }

  /** The word that ends where `next` begins; an unquoted number before a redirection is not an argument. */
  function Delimit(m: Mode, next: string): seq<Token>
    requires Outside(m)
  {
    if m.Blank? then []
    else if AllDigits(m.text) && !m.quoted && next != "" && (next[0] == '>' || next[0] == '<') then [IONumber(m.text)]
    else [Word(m.text)]
  }

  function Prepend(tokens: seq<Token>, rest: Option<seq<Token>>): Option<seq<Token>> {
    match rest
    case None => None
    case Some(more) => Some(tokens + more)
  }

  function TextOf(m: Mode): string { if m.Blank? then "" else m.text }

  predicate Quoted(m: Mode) { m.Bare? && m.quoted }

  /** The tokens of s, read on from mode m; None if s is not a complete text of the modelled part of the language. */
  function Lex(s: string, m: Mode): Option<seq<Token>>
    decreases |s|
  {
    match m
    case Single(text) =>
      if s == "" then None
      else if s[0] == '\'' then Lex(s[1..], Bare(text, true))
      else Lex(s[1..], Single(text + [s[0]]))
    case Double(text) =>
      if s == "" || s[0] == '$' || s[0] == '`' || s[0] == '\\' then None
      else if s[0] == '"' then Lex(s[1..], Bare(text, true))
      else Lex(s[1..], Double(text + [s[0]]))
    case _ =>
      if s == "" then Some(Delimit(m, s))
      else if s[0] == ' ' then Prepend(Delimit(m, s), Lex(s[1..], Blank))
      else if s[0] == '\'' then Lex(s[1..], Single(TextOf(m)))
      else if s[0] == '"' then Lex(s[1..], Double(TextOf(m)))
      else if OperatorStart(s[0]) then
        var n := OperatorAt(s);
        if n == 0 then None else Prepend(Delimit(m, s) + [Op(s[..n])], Lex(s[n..], Blank))
      else if Plain(s[0]) then Lex(s[1..], Bare(TextOf(m) + [s[0]], Quoted(m)))
      else None
  }

  // ---------------------------------------------------------------------
  // Composing texts

  /** a is a whole number of tokens, whatever follows. */
  ghost predicate Reads(a: string, tokens: seq<Token>) {
    forall rest: string :: Lex(a + rest, Blank) == Prepend(tokens, Lex(rest, Blank))
  }

  lemma PrependTwice(a: seq<Token>, b: seq<Token>, rest: Option<seq<Token>>)
    ensures Prepend(a, Prepend(b, rest)) == Prepend(a + b, rest)
  {
    if rest.Some? {
      assert a + (b + rest.value) == a + b + rest.value;
    }
  }

  lemma ReadsBoth(a: string, ta: seq<Token>, b: string, tb: seq<Token>)
    requires Reads(a, ta) && Reads(b, tb)
    ensures Reads(a + b, ta + tb)
  {
    forall rest: string ensures Lex(a + b + rest, Blank) == Prepend(ta + tb, Lex(rest, Blank)) {
      assert a + b + rest == a + (b + rest);
      assert Lex(a + (b + rest), Blank) == Prepend(ta, Lex(b + rest, Blank));
      assert Lex(b + rest, Blank) == Prepend(tb, Lex(rest, Blank));
      PrependTwice(ta, tb, Lex(rest, Blank));
    }
  }

  /** A text read to its end. */
  lemma ReadsAll(a: string, ta: seq<Token>, b: string, tb: seq<Token>)
    requires Reads(a, ta) && Lex(b, Blank) == Some(tb)
    ensures Lex(a + b, Blank) == Some(ta + tb)
  {
    assert Lex(a + b, Blank) == Prepend(ta, Lex(b, Blank));
  }

  lemma PlainStep(s: string, m: Mode)
    requires s != "" && Plain(s[0]) && Outside(m)
    ensures Lex(s, m) == Lex(s[1..], Bare(TextOf(m) + [s[0]], Quoted(m)))
  {
  }

  lemma BlankStep(rest: string, m: Mode)
    requires Outside(m)
    ensures Lex(" " + rest, m) == Prepend(Delimit(m, " " + rest), Lex(rest, Blank))
  {
    assert (" " + rest)[1..] == rest;
  }

  /** An operator and the blank after it. */
  lemma OperatorStep(op: string, rest: string, m: Mode)
    requires Outside(m) && (op == ";" || op == "||")
    ensures Lex(op + " " + rest, m) == Prepend(Delimit(m, op + " " + rest) + [Op(op)], Lex(rest, Blank))
  {
    var s := op + " " + rest;
    assert s[..|op|] == op && s[|op|..] == " " + rest;
    assert s[0] == op[0] && s[|op|] == ' ';
    assert OperatorAt(s) == |op|;
    BlankStep(rest, Blank);
    assert Lex(" " + rest, Blank) == Prepend([], Lex(rest, Blank));
    PrependTwice(Delimit(m, s) + [Op(op)], [], Lex(rest, Blank));
    assert Delimit(m, s) + [Op(op)] + [] == Delimit(m, s) + [Op(op)];
  }

  /** Plain characters pile up in the current word. */
  lemma {:induction false} PlainRun(w: string, rest: string, text: string, quoted: bool)
    requires AllPlain(w)
    ensures Lex(w + rest, Bare(text, quoted)) == Lex(rest, Bare(text + w, quoted))
  {
    if w == "" {
      assert w + rest == rest && text + w == text;
    } else {
      assert (w + rest)[1..] == w[1..] + rest;
      PlainStep(w + rest, Bare(text, quoted));
      PlainRun(w[1..], rest, text + [w[0]], quoted);
      assert text + [w[0]] + w[1..] == text + w;
    }
  }

  lemma PlainWord(w: string, rest: string)
    requires AllPlain(w) && w != ""
    ensures Lex(w + rest, Blank) == Lex(rest, Bare(w, false))
  {
    assert (w + rest)[1..] == w[1..] + rest && "" + [w[0]] == [w[0]];
    PlainStep(w + rest, Blank);
    PlainRun(w[1..], rest, [w[0]], false);
    assert [w[0]] + w[1..] == w;
  }

  /** An unquoted word and the blank after it. */
  lemma ReadsWord(w: string)
    requires AllPlain(w) && w != ""
    ensures Reads(w + " ", [Word(w)])
  {
    forall rest: string ensures Lex(w + " " + rest, Blank) == Prepend([Word(w)], Lex(rest, Blank)) {
      assert w + " " + rest == w + (" " + rest);
      PlainWord(w, " " + rest);
      BlankStep(rest, Bare(w, false));
    }
  }

  /** An unquoted word, a semicolon and a blank. */
  lemma ReadsWordEnd(w: string)
    requires AllPlain(w) && w != ""
    ensures Reads(w + "; ", [Word(w), Op(";")])
  {
    forall rest: string ensures Lex(w + "; " + rest, Blank) == Prepend([Word(w), Op(";")], Lex(rest, Blank)) {
      assert w + "; " + rest == w + (";" + " " + rest);
      PlainWord(w, ";" + " " + rest);
      OperatorStep(";", rest, Bare(w, false));
      assert [Word(w)] + [Op(";")] == [Word(w), Op(";")];
    }
  }

  lemma ReadsBlank()
    ensures Reads(" ", [])
  {
    forall rest: string ensures Lex(" " + rest, Blank) == Prepend([], Lex(rest, Blank)) {
      BlankStep(rest, Blank);
    }
  }

  lemma ReadsOperator(op: string)
    requires op == ";" || op == "||"
    ensures Reads(op + " ", [Op(op)])
  {
    forall rest: string ensures Lex(op + " " + rest, Blank) == Prepend([Op(op)], Lex(rest, Blank)) {
      OperatorStep(op, rest, Blank);
      assert [] + [Op(op)] == [Op(op)];
    }
  }

  lemma RedirectOperator(s: string)
    requires |s| >= 2 && s[0] == '>' && (s[1] == '&' || Plain(s[1]))
    ensures OperatorAt(s) == if s[1] == '&' then 2 else 1
  {
    assert s[..1] == ">";
    if s[1] == '&' {
      assert s[..2] == ">&";
    } else {
      assert s[..2][0] == '>' && s[..2][1] == s[1];
    }
  }

  lemma OperatorRead(s: string, m: Mode)
    requires Outside(m) && s != "" && OperatorStart(s[0]) && OperatorAt(s) > 0
    ensures Lex(s, m) == Prepend(Delimit(m, s) + [Op(s[..OperatorAt(s)])], Lex(s[OperatorAt(s)..], Blank))
  {
  }

  /** A redirection right before a word. */
  lemma RedirectStep(op: string, w: string, rest: string, m: Mode)
    requires Outside(m) && (op == ">" || op == ">&") && AllPlain(w) && w != ""
    ensures Lex(op + w + " " + rest, m) == Prepend(Delimit(m, op + w + " " + rest) + [Op(op), Word(w)], Lex(rest, Blank))
  {
    var s := op + w + " " + rest;
    RedirectSplit(op, w, rest);
    RedirectOperator(s);
    OperatorRead(s, m);
    RedirectTail(Delimit(m, s), op, w, rest);
  }

  lemma RedirectSplit(op: string, w: string, rest: string)
    requires (op == ">" || op == ">&") && AllPlain(w) && w != ""
    ensures var s := op + w + " " + rest;
            |s| >= 2 && s[0] == '>' && (if op == ">" then Plain(s[1]) else s[1] == '&') &&
            s[..|op|] == op && s[|op|..] == w + " " + rest
  {
    var s := op + w + " " + rest;
    assert s[|op|] == w[0];
  }

  lemma RedirectTail(before: seq<Token>, op: string, w: string, rest: string)
    requires AllPlain(w) && w != ""
    ensures Prepend(before + [Op(op)], Lex(w + " " + rest, Blank)) == Prepend(before + [Op(op), Word(w)], Lex(rest, Blank))
  {
    ReadsWord(w);
    assert Lex(w + " " + rest, Blank) == Prepend([Word(w)], Lex(rest, Blank));
    PrependTwice(before + [Op(op)], [Word(w)], Lex(rest, Blank));
    assert before + [Op(op)] + [Word(w)] == before + [Op(op), Word(w)];
  }

  /** A redirection of standard output to a file, and a blank. */
  lemma ReadsOutputTo(w: string)
    requires AllPlain(w) && w != ""
    ensures Reads(">" + w + " ", [Op(">"), Word(w)])
  {
    forall rest: string ensures Lex(">" + w + " " + rest, Blank) == Prepend([Op(">"), Word(w)], Lex(rest, Blank)) {
      RedirectStep(">", w, rest, Blank);
      assert [] + [Op(">"), Word(w)] == [Op(">"), Word(w)];
    }
  }

  /** `2>&1` and a blank. */
  lemma ReadsErrorsToo()
    ensures Reads("2>&1 ", [IONumber("2"), Op(">&"), Word("1")])
  {
    forall rest: string ensures Lex("2>&1 " + rest, Blank) == Prepend([IONumber("2"), Op(">&"), Word("1")], Lex(rest, Blank)) {
      assert "2>&1 " + rest == "2" + (">&" + "1" + " " + rest);
      PlainWord("2", ">&" + "1" + " " + rest);
      RedirectStep(">&", "1", rest, Bare("2", false));
      assert [IONumber("2")] + [Op(">&"), Word("1")] == [IONumber("2"), Op(">&"), Word("1")];
    }
  }

  /** A blank at the end makes no difference. */
  lemma {:induction false} TrailingBlank(s: string, m: Mode)
    ensures Lex(s + " ", m) == Lex(s, m)
    decreases |s|
  {
    var t := s + " ";
    if s == "" {
      assert t == " " && t[1..] == "";
      assert Lex("", Blank) == Some([]);
      if Outside(m) {
        assert Delimit(m, t) + [] == Delimit(m, s);
      } else {
        assert m.Single? ==> Lex("", Single(m.text + " ")) == None;
        assert m.Double? ==> Lex("", Double(m.text + " ")) == None;
      }
    } else {
      assert t[0] == s[0] && t[1..] == s[1..] + " ";
      if m.Single? {
        TrailingBlank(s[1..], if s[0] == '\'' then Bare(m.text, true) else Single(m.text + [s[0]]));
      } else if m.Double? {
        TrailingBlank(s[1..], if s[0] == '"' then Bare(m.text, true) else Double(m.text + [s[0]]));
      } else {
        TrailingBlankOutside(s, m);
      }
    }
  }

  lemma {:induction false} TrailingBlankOutside(s: string, m: Mode)
    requires s != "" && Outside(m)
    ensures Lex(s + " ", m) == Lex(s, m)
    decreases |s|, 0
  {
    var t := s + " ";
    assert t[0] == s[0] && t[1..] == s[1..] + " ";
    assert Delimit(m, t) == Delimit(m, s);
    if OperatorStart(s[0]) {
      TrailingOperator(s);
      var n := OperatorAt(s);
      if n > 0 {
        assert t[..n] == s[..n] && t[n..] == s[n..] + " ";
        TrailingBlank(s[n..], Blank);
      }
    } else if s[0] == ' ' {
      TrailingBlank(s[1..], Blank);
    } else if s[0] == '\'' {
      TrailingBlank(s[1..], Single(TextOf(m)));
    } else if s[0] == '"' {
      TrailingBlank(s[1..], Double(TextOf(m)));
    } else if Plain(s[0]) {
      TrailingBlank(s[1..], Bare(TextOf(m) + [s[0]], Quoted(m)));
    }
  }

  lemma TrailingOperator(s: string)
    requires s != ""
    ensures OperatorAt(s + " ") == OperatorAt(s)
  {
    var t := s + " ";
    assert t[..1] == s[..1];
    if |s| == 1 {
      assert t[..2][1] == ' ';
    } else {
      assert t[..2] == s[..2];
    }
  }

  // ---------------------------------------------------------------------
  // Parsing and running

  function SplitOn(tokens: seq<Token>, separator: Token): (parts: seq<seq<Token>>)
    ensures |parts| >= 1
  {
    if tokens == [] then [[]]
    else
      var rest := SplitOn(tokens[1..], separator);
      if tokens[0] == separator then [[]] + rest else [[tokens[0]] + rest[0]] + rest[1..]
  }

  lemma {:induction false} SplitNone(tokens: seq<Token>, separator: Token)
    requires separator !in tokens
    ensures SplitOn(tokens, separator) == [tokens]
  {
    if tokens != [] {
      SplitNone(tokens[1..], separator);
      assert [tokens[0]] + tokens[1..] == tokens;
    }
  }

  lemma {:induction false} SplitFirst(a: seq<Token>, separator: Token, b: seq<Token>)
    requires separator !in a
    ensures SplitOn(a + [separator] + b, separator) == [a] + SplitOn(b, separator)
  {
    var all := a + [separator] + b;
    if a == [] {
      assert all[1..] == b;
    } else {
      assert all[1..] == a[1..] + [separator] + b;
      SplitFirst(a[1..], separator, b);
      assert [a[0]] + a[1..] == a;
    }
  }

  /** The arguments of a simple command: its words without redirections and their targets. */
  function Argv(tokens: seq<Token>): seq<string> {
    if tokens == [] then []
    else match tokens[0]
      case Word(text) => [text] + Argv(tokens[1..])
      case IONumber(_) => Argv(tokens[1..])
      case Op(_) => if |tokens| >= 2 then Argv(tokens[2..]) else []
  }

  function Words(texts: seq<string>): seq<Token> {
    seq(|texts|, i requires 0 <= i < |texts| => Word(texts[i]))
  }

  lemma {:induction false} ArgvOfWords(texts: seq<string>)
    ensures Argv(Words(texts)) == texts
  {
    if texts != [] {
      assert Words(texts)[1..] == Words(texts[1..]);
      ArgvOfWords(texts[1..]);
      assert [texts[0]] + texts[1..] == texts;
    }
  }

  type Argument = seq<string>

  function Simples(lists: seq<seq<Token>>): seq<Argument> {
    seq(|lists|, i requires 0 <= i < |lists| => Argv(lists[i]))
  }

  /** A script as its `;`-separated lists of `||`-separated simple commands. */
  function Parse(tokens: seq<Token>): seq<seq<Argument>> {
    var lists := SplitOn(tokens, Op(";"));
    seq(|lists|, i requires 0 <= i < |lists| => Simples(SplitOn(lists[i], Op("||"))))
  }

  datatype Ran = Ran(commands: seq<Argument>, ok: bool)

  /** An or-list: each command runs only if the ones before it failed. */
  function RunOr(commands: seq<Argument>, ok: Argument -> bool): (r: Ran) {
    if commands == [] then Ran([], false)
    else if ok(commands[0]) then Ran([commands[0]], true)
    else
      var rest := RunOr(commands[1..], ok);
      Ran([commands[0]] + rest.commands, rest.ok)
  }

  /** `sh -e`: the lists in turn, up to the first that fails. */
  function RunScript(lists: seq<seq<Argument>>, ok: Argument -> bool): (r: Ran) {
    if lists == [] then Ran([], true)
    else
      var first := RunOr(lists[0], ok);
      if !first.ok then first
      else
        var rest := RunScript(lists[1..], ok);
        Ran(first.commands + rest.commands, rest.ok)
  }
}
