/** The shell scripts of the restic Jobs, and what a shell makes of them. */
module Scripts {
  import opened Text
  import opened Shell

  // ---------------------------------------------------------------------
  // Quoting

  /** Every single quote replaced by a closing quote, a double-quoted quote and an opening quote. */
  function Escaped(s: string): string {
    if s == "" then ""
    else (if s[0] == '\'' then "'\"'\"'" else [s[0]]) + Escaped(s[1..])
  }

  function ShellQuoteOne(s: string): string { "'" + Escaped(s) + "'" }

  lemma {:induction false} EscapedReads(s: string, rest: string, text: string)
    ensures Lex(Escaped(s) + "'" + rest, Single(text)) == Lex(rest, Bare(text + s, true))
  {
    if s == "" {
      assert ("'" + rest)[1..] == rest && Escaped(s) + "'" + rest == "'" + rest;
      assert text + s == text;
    } else if s[0] == '\'' {
      var more := Escaped(s[1..]) + "'" + rest;
      assert Escaped(s) + "'" + rest == "'\"'\"'" + more;
      OneEscape(more, text);
      EscapedReads(s[1..], rest, text + "'");
      assert text + "'" + s[1..] == text + s;
    } else {
      var more := Escaped(s[1..]) + "'" + rest;
      assert Escaped(s) + "'" + rest == [s[0]] + more;
      assert ([s[0]] + more)[1..] == more;
      EscapedReads(s[1..], rest, text + [s[0]]);
      assert text + [s[0]] + s[1..] == text + s;
    }
  }

  /** Close, double-quoted quote, reopen: one single quote is added to the word. */
  lemma OneEscape(more: string, text: string)
    ensures Lex("'\"'\"'" + more, Single(text)) == Lex(more, Single(text + "'"))
  {
    var s := "'\"'\"'" + more;
    assert s[1..] == "\"'\"'" + more;
    assert s[1..][1..] == "'\"'" + more;
    assert s[1..][1..][1..] == "\"'" + more;
    assert s[1..][1..][1..][1..] == "'" + more;
    assert s[1..][1..][1..][1..][1..] == more;
    assert Lex("\"'\"'" + more, Bare(text, true)) == Lex("'\"'" + more, Double(text));
    assert Lex("'\"'" + more, Double(text)) == Lex("\"'" + more, Double(text + "'"));
    assert Lex("\"'" + more, Double(text + "'")) == Lex("'" + more, Bare(text + "'", true));
  }

  /** A quoted string anywhere outside quotes adds exactly itself to the current word. */
  lemma QuotedReads(s: string, rest: string, m: Mode)
    requires Outside(m)
    ensures Lex(ShellQuoteOne(s) + rest, m) == Lex(rest, Bare(TextOf(m) + s, true))
  {
    var more := Escaped(s) + "'" + rest;
    assert ShellQuoteOne(s) + rest == "'" + more;
    assert ("'" + more)[1..] == more;
    EscapedReads(s, rest, TextOf(m));
  }

  /** Unquoting a quoted string yields the single word it was made from. */
  lemma QuotedIsOneWord(s: string)
    ensures Lex(ShellQuoteOne(s), Blank) == Some([Word(s)])
  {
    QuotedReads(s, "", Blank);
    assert ShellQuoteOne(s) + "" == ShellQuoteOne(s) && "" + s == s;
  }

  /** Different strings are never quoted alike. */
  lemma QuoteInjective(s: string, t: string)
    ensures ShellQuoteOne(s) == ShellQuoteOne(t) ==> s == t
  {
    QuotedIsOneWord(s);
    QuotedIsOneWord(t);
  }

  lemma ReadsQuoted(s: string)
    ensures Reads(ShellQuoteOne(s) + " ", [Word(s)])
  {
    forall rest: string ensures Lex(ShellQuoteOne(s) + " " + rest, Blank) == Prepend([Word(s)], Lex(rest, Blank)) {
      assert ShellQuoteOne(s) + " " + rest == ShellQuoteOne(s) + (" " + rest);
      QuotedReads(s, " " + rest, Blank);
      BlankStep(rest, Bare(s, true));
      assert "" + s == s;
    }
  }

  lemma ReadsQuotedEnd(s: string)
    ensures Reads(ShellQuoteOne(s) + "; ", [Word(s), Op(";")])
  {
    forall rest: string ensures Lex(ShellQuoteOne(s) + "; " + rest, Blank) == Prepend([Word(s), Op(";")], Lex(rest, Blank)) {
      assert ShellQuoteOne(s) + "; " + rest == ShellQuoteOne(s) + (";" + " " + rest);
      QuotedReads(s, ";" + " " + rest, Blank);
      OperatorStep(";", rest, Bare(s, true));
      assert "" + s == s && [Word(s)] + [Op(";")] == [Word(s), Op(";")];
    }
  }

  // ---------------------------------------------------------------------
  // Text

  /** `%d` */
  function PrintInt(n: int): string { if n < 0 then "-" + Decimal(-n) else Decimal(n) }

  function Join(parts: seq<string>, separator: string): string {
    if parts == [] then ""
    else if |parts| == 1 then parts[0]
    else parts[0] + separator + Join(parts[1..], separator)
  }

  function Quotes(texts: seq<string>): seq<string> {
    seq(|texts|, i requires 0 <= i < |texts| => ShellQuoteOne(texts[i]))
  }

  /** One flag and its quoted value for each of the texts, each after a blank. */
  function Flags(flag: string, texts: seq<string>): string {
    if texts == [] then ""
    else Flags(flag, texts[..|texts| - 1]) + " " + flag + " " + ShellQuoteOne(texts[|texts| - 1])
  }

  const PREAMBLE := "restic unlock || true; "
  const OPENING := "restic snapshots >/dev/null 2>&1 || restic init; "
  const UPLOAD := "restic backup --json --retry-lock 5m "
  const FORGET := "restic forget --json --retry-lock 5m "
  const UNGROUPED := "--group-by '' "
  const KEEP := "--keep-last "
  const PRUNE_TAIL := " --prune || true"
  const RESTORE := "restic restore --json --retry-lock 5m "

  function PlanTag(planID: string): string { "plan:" + planID }

  function InstanceTag(instance: string): string { "created-by:" + instance }

  function ForgetClause(keepLast: int): string { FORGET + UNGROUPED + KEEP + PrintInt(keepLast) + PRUNE_TAIL }

  function UploadText(paths: seq<string>, excludes: seq<string>, planID: string, instance: string): string {
    PREAMBLE + OPENING + UPLOAD + Join(Quotes(paths), " ") + Flags("--exclude", excludes) +
    " --tag " + ShellQuoteOne(PlanTag(planID)) + " --tag " + ShellQuoteOne(InstanceTag(instance))
  }

  function BackupText(paths: seq<string>, excludes: seq<string>, planID: string, instance: string, keepLast: Option<int>): string {
    UploadText(paths, excludes, planID, instance) +
    match keepLast
    case None => ""
    case Some(n) => "; " + ForgetClause(n)
  }

  function PruneText(keepLast: int): string { PREAMBLE + ForgetClause(keepLast) }

  function RestoreText(snapshot: string, filters: seq<string>): string {
    PREAMBLE + RESTORE + ShellQuoteOne(snapshot) + " --target /data" + Flags("--include", filters)
  }

  /** The loop over excludes, and the one over path filters. */
  method AppendFlags(start: string, flag: string, texts: seq<string>) returns (b: string)
    ensures b == start + Flags(flag, texts)
  {
    b := start;
    for i := 0 to |texts|
      invariant b == start + Flags(flag, texts[..i])
    {
      assert texts[..i + 1][..i] == texts[..i];
      b := b + " " + flag + " ";
      b := b + ShellQuoteOne(texts[i]);
    }
    assert texts[..|texts|] == texts;
  }

  /** resticBackupJobScript. */
  method BackupScript(paths: seq<string>, excludes: seq<string>, planID: string, instance: string, keepLast: Option<int>)
    returns (b: string)
    ensures b == BackupText(paths, excludes, planID, instance, keepLast)
  {
    b := PREAMBLE + OPENING;
    b := b + UPLOAD;
    b := b + Join(Quotes(paths), " ");
    b := AppendFlags(b, "--exclude", excludes);
    b := b + " --tag " + ShellQuoteOne(PlanTag(planID));
    b := b + " --tag " + ShellQuoteOne(InstanceTag(instance));
    if keepLast.Some? {
      b := b + "; " + ForgetClause(keepLast.value);
    }
  }

  /** resticRestoreJobScript. */
  method RestoreScript(snapshot: string, filters: seq<string>) returns (b: string)
    ensures b == RestoreText(snapshot, filters)
  {
    b := PREAMBLE + RESTORE;
    b := b + ShellQuoteOne(snapshot) + " --target /data";
    b := AppendFlags(b, "--include", filters);
  }

  // ---------------------------------------------------------------------
  // The argument vectors the scripts are meant to run

  /** One flag and its value for each of the texts. */
  function FlagArgs(flag: string, texts: seq<string>): Argument {
    if texts == [] then [] else FlagArgs(flag, texts[..|texts| - 1]) + [flag, texts[|texts| - 1]]
  }

  function BackupArgv(paths: seq<string>, excludes: seq<string>, planID: string, instance: string): Argument {
    ["restic", "backup", "--json", "--retry-lock", "5m"] + paths + FlagArgs("--exclude", excludes) +
    ["--tag", PlanTag(planID), "--tag", InstanceTag(instance)]
  }

  function ForgetArgv(keepLast: int): Argument {
    ["restic", "forget", "--json", "--retry-lock", "5m", "--group-by", "", "--keep-last", PrintInt(keepLast), "--prune"]
  }

  function RestoreArgv(snapshot: string, filters: seq<string>): Argument {
    ["restic", "restore", "--json", "--retry-lock", "5m", snapshot, "--target", "/data"] + FlagArgs("--include", filters)
  }

  const OR := [Op("||")]
  const THEN := [Op(";")]
  const ANYHOW := [Op("||"), Word("true")]

  function PreambleTokens(): seq<Token> { Words(["restic", "unlock"]) + ANYHOW + THEN }

  function OpeningTokens(): seq<Token> {
    Words(["restic", "snapshots"]) + [Op(">"), Word("/dev/null"), IONumber("2"), Op(">&"), Word("1")] + OR +
    Words(["restic", "init"]) + THEN
  }

  function ForgetTokens(keepLast: int): seq<Token> { Words(ForgetArgv(keepLast)) + ANYHOW }

  function BackupTokens(paths: seq<string>, excludes: seq<string>, planID: string, instance: string, keepLast: Option<int>): seq<Token> {
    PreambleTokens() + OpeningTokens() + Words(BackupArgv(paths, excludes, planID, instance)) +
    match keepLast
    case None => []
    case Some(n) => THEN + ForgetTokens(n)
  }

  // ---------------------------------------------------------------------
  // Lexing the scripts

  lemma WordsConcat(a: seq<string>, b: seq<string>)
    ensures Words(a + b) == Words(a) + Words(b)
  {
  }

  /** Unquoted words, each followed by a blank. */
  function Spaced(words: seq<string>): string {
    if words == [] then "" else words[0] + " " + Spaced(words[1..])
  }

  predicate Unquoted(words: seq<string>) {
    forall i :: 0 <= i < |words| ==> AllPlain(words[i]) && words[i] != ""
  }

  lemma ReadsNothing()
    ensures Reads("", [])
  {
    forall rest: string ensures Lex("" + rest, Blank) == Prepend([], Lex(rest, Blank)) {
      assert "" + rest == rest;
      if Lex(rest, Blank).Some? { assert [] + Lex(rest, Blank).value == Lex(rest, Blank).value; }
    }
  }

  lemma {:induction false} ReadsSpaced(words: seq<string>)
    requires Unquoted(words)
    ensures Reads(Spaced(words), Words(words))
  {
    if words == [] {
      ReadsNothing();
    } else {
      ReadsWord(words[0]);
      ReadsSpaced(words[1..]);
      ReadsBoth(words[0] + " ", [Word(words[0])], Spaced(words[1..]), Words(words[1..]));
      assert Words(words) == [Word(words[0])] + Words(words[1..]);
    }
  }

  /** One more word in front. */
  lemma SpacedMore(w: string, words: seq<string>, tail: string, text: string)
    requires Spaced(words) == tail && text == w + " " + tail
    ensures Spaced([w] + words) == text
  {
    assert ([w] + words)[1..] == words;
  }

  lemma PreambleText()
    ensures PREAMBLE == "restic unlock " + ("||" + " ") + ("true" + "; ") && Spaced(["restic", "unlock"]) == "restic unlock "
  {
    SpacedMore("unlock", [], "", "unlock ");
    SpacedMore("restic", ["unlock"], "unlock ", "restic unlock ");
    assert [ "restic"] + ["unlock"] == ["restic", "unlock"] && ["unlock"] + [] == ["unlock"];
  }

  lemma ReadsPreamble()
    ensures Reads(PREAMBLE, PreambleTokens())
  {
    var unlock := Words(["restic", "unlock"]);
    PreambleText();
    ReadsSpaced(["restic", "unlock"]);
    ReadsOperator("||");
    ReadsWordEnd("true");
    ReadsBoth("restic unlock ", unlock, "||" + " ", OR);
    ReadsBoth("restic unlock " + ("||" + " "), unlock + OR, "true" + "; ", [Word("true"), Op(";")]);
    assert PreambleTokens() == unlock + OR + [Word("true"), Op(";")];
  }

  lemma OpeningText()
    ensures OPENING == "restic snapshots " + ">/dev/null " + "2>&1 " + "|| " + "restic " + "init; "
  {
  }

  lemma OpeningPieces()
    ensures Spaced(["restic", "snapshots"]) == "restic snapshots "
    ensures ">" + "/dev/null" + " " == ">/dev/null " && "||" + " " == "|| "
    ensures "restic" + " " == "restic " && "init" + "; " == "init; "
  {
    SpacedMore("snapshots", [], "", "snapshots ");
    SpacedMore("restic", ["snapshots"], "snapshots ", "restic snapshots ");
    assert ["restic"] + ["snapshots"] == ["restic", "snapshots"] && ["snapshots"] + [] == ["snapshots"];
  }

  lemma ReadsThree(a: string, ta: seq<Token>, b: string, tb: seq<Token>, c: string, tc: seq<Token>)
    requires Reads(a, ta) && Reads(b, tb) && Reads(c, tc)
    ensures Reads(a + b + c, ta + tb + tc)
  {
    ReadsBoth(a, ta, b, tb);
    ReadsBoth(a + b, ta + tb, c, tc);
  }

  lemma ReadsSix(a: string, ta: seq<Token>, b: string, tb: seq<Token>, c: string, tc: seq<Token>,
                 d: string, td: seq<Token>, e: string, te: seq<Token>, f: string, tf: seq<Token>)
    requires Reads(a, ta) && Reads(b, tb) && Reads(c, tc) && Reads(d, td) && Reads(e, te) && Reads(f, tf)
    ensures Reads(a + b + c + d + e + f, ta + tb + tc + td + te + tf)
  {
    ReadsThree(a, ta, b, tb, c, tc);
    ReadsThree(a + b + c, ta + tb + tc, d, td, e, te);
    ReadsBoth(a + b + c + d + e, ta + tb + tc + td + te, f, tf);
  }

  lemma ReadsOpeningPieces()
    ensures Reads("restic snapshots ", Words(["restic", "snapshots"]))
    ensures Reads(">/dev/null ", [Op(">"), Word("/dev/null")])
    ensures Reads("|| ", OR) && Reads("restic ", [Word("restic")]) && Reads("init; ", [Word("init"), Op(";")])
  {
    OpeningPieces();
    ReadsSpaced(["restic", "snapshots"]);
    ReadsOutputTo("/dev/null");
    ReadsOperator("||");
    ReadsWord("restic");
    ReadsWordEnd("init");
  }

  lemma ReadsOpening()
    ensures Reads(OPENING, OpeningTokens())
  {
    ReadsOpeningPieces();
    ReadsErrorsToo();
    var list, quiet, errors, init := Words(["restic", "snapshots"]), [Op(">"), Word("/dev/null")],
                                    [IONumber("2"), Op(">&"), Word("1")], [Word("init"), Op(";")];
    ReadsSix("restic snapshots ", list, ">/dev/null ", quiet, "2>&1 ", errors, "|| ", OR,
             "restic ", [Word("restic")], "init; ", init);
    OpeningText();
    assert OpeningTokens() == list + quiet + errors + OR + [Word("restic")] + init;
  }

  /** The words every restic command with a lock retry starts with. */
  function Locked(command: string): seq<string> { ["restic", command, "--json", "--retry-lock", "5m"] }

  lemma LockedText(command: string)
    ensures Spaced(Locked(command)) == "restic " + (command + " " + "--json --retry-lock 5m ")
  {
    SpacedMore("5m", [], "", "5m ");
    SpacedMore("--retry-lock", ["5m"], "5m ", "--retry-lock 5m ");
    SpacedMore("--json", ["--retry-lock", "5m"], "--retry-lock 5m ", "--json --retry-lock 5m ");
    var tail := ["--json", "--retry-lock", "5m"];
    assert ["--json"] + ["--retry-lock", "5m"] == tail && ["--retry-lock"] + ["5m"] == ["--retry-lock", "5m"] && ["5m"] + [] == ["5m"];
    SpacedMore(command, tail, "--json --retry-lock 5m ", command + " " + "--json --retry-lock 5m ");
    SpacedMore("restic", [command] + tail, command + " " + "--json --retry-lock 5m ", "restic " + (command + " " + "--json --retry-lock 5m "));
    assert Locked(command) == ["restic"] + ([command] + tail);
  }

  lemma ReadsLocked(command: string)
    requires command == "backup" || command == "forget" || command == "restore"
    ensures Reads("restic " + (command + " " + "--json --retry-lock 5m "), Words(Locked(command)))
  {
    LockedText(command);
    ReadsSpaced(Locked(command));
  }

  lemma UploadConstant()
    ensures UPLOAD == "restic " + ("backup" + " " + "--json --retry-lock 5m ")
  {
  }

  lemma ForgetConstant()
    ensures FORGET == "restic " + ("forget" + " " + "--json --retry-lock 5m ")
  {
  }

  lemma RestoreConstant()
    ensures RESTORE == "restic " + ("restore" + " " + "--json --retry-lock 5m ")
  {
  }

  /** Quoted texts with blanks between them, and a blank after them. */
  lemma {:induction false} ReadsJoin(texts: seq<string>)
    ensures Reads(Join(Quotes(texts), " ") + " ", Words(texts))
  {
    if texts == [] {
      ReadsBlank();
      assert Join(Quotes(texts), " ") + " " == " " && Words(texts) == [];
    } else {
      ReadsQuoted(texts[0]);
      var rest := texts[1..];
      assert Quotes(texts)[1..] == Quotes(rest);
      if |texts| == 1 {
        assert Words(texts) == [Word(texts[0])];
      } else {
        ReadsJoin(rest);
        ReadsBoth(ShellQuoteOne(texts[0]) + " ", [Word(texts[0])], Join(Quotes(rest), " ") + " ", Words(rest));
        assert Join(Quotes(texts), " ") + " " == (ShellQuoteOne(texts[0]) + " ") + (Join(Quotes(rest), " ") + " ");
        assert Words(texts) == [Word(texts[0])] + Words(rest);
      }
    }
  }

  lemma {:induction false} ReadsFlags(base: string, tokens: seq<Token>, flag: string, texts: seq<string>)
    requires Reads(base + " ", tokens) && AllPlain(flag) && flag != ""
    ensures Reads(base + Flags(flag, texts) + " ", tokens + Words(FlagArgs(flag, texts)))
  {
    if texts == [] {
      assert base + Flags(flag, texts) == base && tokens + Words([]) == tokens;
    } else {
      var front, last := texts[..|texts| - 1], texts[|texts| - 1];
      ReadsFlags(base, tokens, flag, front);
      var a, ta := base + Flags(flag, front) + " ", tokens + Words(FlagArgs(flag, front));
      ReadsTagged(a, ta, flag, last);
      assert base + Flags(flag, texts) + " " == a + (flag + " ") + (ShellQuoteOne(last) + " ");
      assert tokens + Words(FlagArgs(flag, texts)) == ta + [Word(flag), Word(last)];
    }
  }

  lemma ReadsTagged(a: string, ta: seq<Token>, flag: string, text: string)
    requires Reads(a, ta) && AllPlain(flag) && flag != ""
    ensures Reads(a + (flag + " ") + (ShellQuoteOne(text) + " "), ta + [Word(flag), Word(text)])
  {
    ReadsWord(flag);
    ReadsBoth(a, ta, flag + " ", [Word(flag)]);
    ReadsQuoted(text);
    ReadsBoth(a + (flag + " "), ta + [Word(flag)], ShellQuoteOne(text) + " ", [Word(text)]);
    assert ta + [Word(flag)] + [Word(text)] == ta + [Word(flag), Word(text)];
  }

  /** The paths, the excludes and the tags, after a text that reads to ta and the start of a command. */
  lemma ReadsCommandLine(a: string, ta: seq<Token>, start: seq<string>, paths: seq<string>, excludes: seq<string>, tag: string)
    requires Reads(a, ta + Words(start))
    ensures Reads(a + Join(Quotes(paths), " ") + Flags("--exclude", excludes) + " --tag " + ShellQuoteOne(tag) + " --tag ",
                  ta + Words(start + paths + FlagArgs("--exclude", excludes) + ["--tag", tag, "--tag"]))
  {
    ReadsJoin(paths);
    ReadsBoth(a, ta + Words(start), Join(Quotes(paths), " ") + " ", Words(paths));
    var b, tb := a + Join(Quotes(paths), " "), ta + Words(start) + Words(paths);
    assert b + " " == a + (Join(Quotes(paths), " ") + " ");
    ReadsFlags(b, tb, "--exclude", excludes);
    var c, tc := b + Flags("--exclude", excludes) + " ", tb + Words(FlagArgs("--exclude", excludes));
    ReadsTagged(c, tc, "--tag", tag);
    var d, td := c + ("--tag" + " ") + (ShellQuoteOne(tag) + " "), tc + [Word("--tag"), Word(tag)];
    ReadsWord("--tag");
    ReadsBoth(d, td, "--tag" + " ", [Word("--tag")]);
    TagText(b + Flags("--exclude", excludes), ShellQuoteOne(tag));
    CommandTokens(ta, start, paths, FlagArgs("--exclude", excludes), tag);
  }

  lemma TagText(c: string, tag: string)
    ensures c + " --tag " + tag + " --tag " == c + " " + ("--tag" + " ") + (tag + " ") + ("--tag" + " ")
  {
    assert " --tag " == " " + ("--tag" + " ");
  }

  lemma CommandTokens(ta: seq<Token>, start: seq<string>, paths: seq<string>, flags: seq<string>, tag: string)
    ensures ta + Words(start) + Words(paths) + Words(flags) + [Word("--tag"), Word(tag)] + [Word("--tag")] ==
            ta + Words(start + paths + flags + ["--tag", tag, "--tag"])
  {
    WordsConcat(start, paths);
    WordsConcat(start + paths, flags);
    WordsConcat(start + paths + flags, ["--tag", tag, "--tag"]);
    assert Words(["--tag", tag, "--tag"]) == [Word("--tag"), Word(tag)] + [Word("--tag")];
  }

  /** The backup script up to the value of its last tag, and what it has read by then. */
  function HeadText(paths: seq<string>, excludes: seq<string>, planID: string): string {
    PREAMBLE + OPENING + UPLOAD + Join(Quotes(paths), " ") + Flags("--exclude", excludes) +
    " --tag " + ShellQuoteOne(PlanTag(planID)) + " --tag "
  }

  function HeadArgs(paths: seq<string>, excludes: seq<string>, planID: string): seq<string> {
    Locked("backup") + paths + FlagArgs("--exclude", excludes) + ["--tag", PlanTag(planID), "--tag"]
  }

  lemma ReadsHead(paths: seq<string>, excludes: seq<string>, planID: string)
    ensures Reads(HeadText(paths, excludes, planID),
                  PreambleTokens() + OpeningTokens() + Words(HeadArgs(paths, excludes, planID)))
  {
    ReadsPreamble();
    ReadsOpening();
    UploadConstant();
    ReadsLocked("backup");
    ReadsThree(PREAMBLE, PreambleTokens(), OPENING, OpeningTokens(), UPLOAD, Words(Locked("backup")));
    ReadsCommandLine(PREAMBLE + OPENING + UPLOAD, PreambleTokens() + OpeningTokens(), Locked("backup"), paths, excludes, PlanTag(planID));
  }

  lemma PrintIntPlain(n: int)
    ensures AllPlain(PrintInt(n)) && PrintInt(n) != ""
  {
  }

  lemma ForgetText(keepLast: int)
    ensures ForgetClause(keepLast) == FORGET + ("--group-by" + " ") + (ShellQuoteOne("") + " ") + ("--keep-last" + " ") +
                                      (PrintInt(keepLast) + " ") + ("--prune" + " ") + ("||" + " ") + "true"
  {
    UngroupedText();
    PruneTail();
    Regrouped(FORGET, "--group-by" + " ", ShellQuoteOne("") + " ", "--keep-last" + " ", PrintInt(keepLast), "--prune" + " ", "||" + " ", "true");
  }

  lemma Regrouped(a: string, b: string, c: string, d: string, n: string, e: string, f: string, g: string)
    ensures a + (b + c) + d + n + (" " + e + f + g) == a + b + c + d + (n + " ") + e + f + g
  {
  }

  lemma UngroupedText()
    ensures UNGROUPED == ("--group-by" + " ") + (ShellQuoteOne("") + " ") && KEEP == "--keep-last" + " "
  {
    assert ShellQuoteOne("") == "''";
  }

  lemma PruneTail()
    ensures PRUNE_TAIL == " " + ("--prune" + " ") + ("||" + " ") + "true"
  {
  }

  /** The retention flags after a text a, up to the alternative of the or-list. */
  lemma ReadsRetention(a: string, ta: seq<Token>, n: string)
    requires Reads(a, ta) && AllPlain(n) && n != ""
    ensures Reads(a + ("--group-by" + " ") + (ShellQuoteOne("") + " ") + ("--keep-last" + " ") + (n + " ") + ("--prune" + " "),
                  ta + [Word("--group-by")] + [Word("")] + [Word("--keep-last")] + [Word(n)] + [Word("--prune")])
  {
    ReadsWord("--group-by");
    ReadsQuoted("");
    ReadsWord("--keep-last");
    ReadsWord(n);
    ReadsWord("--prune");
    ReadsSix(a, ta, "--group-by" + " ", [Word("--group-by")], ShellQuoteOne("") + " ", [Word("")],
             "--keep-last" + " ", [Word("--keep-last")], n + " ", [Word(n)], "--prune" + " ", [Word("--prune")]);
  }

  lemma EndsAnyhow(a: string, ta: seq<Token>)
    requires Reads(a, ta)
    ensures Lex(a + ("||" + " ") + "true", Blank) == Some(ta + ANYHOW)
  {
    ReadsOperator("||");
    ReadsBoth(a, ta, "||" + " ", OR);
    PlainWord("true", "");
    assert "true" + "" == "true";
    ReadsAll(a + ("||" + " "), ta + OR, "true", [Word("true")]);
    assert ta + OR + [Word("true")] == ta + ANYHOW;
  }

  /** The retention clause, read to its end. */
  lemma ForgetReads(keepLast: int)
    ensures Lex(ForgetClause(keepLast), Blank) == Some(ForgetTokens(keepLast))
  {
    var n, start := PrintInt(keepLast), Words(Locked("forget"));
    PrintIntPlain(keepLast);
    ForgetConstant();
    ReadsLocked("forget");
    ReadsRetention(FORGET, start, n);
    EndsAnyhow(FORGET + ("--group-by" + " ") + (ShellQuoteOne("") + " ") + ("--keep-last" + " ") + (n + " ") + ("--prune" + " "),
               start + [Word("--group-by")] + [Word("")] + [Word("--keep-last")] + [Word(n)] + [Word("--prune")]);
    ForgetText(keepLast);
    ForgetWords(keepLast);
  }

  lemma ForgetWords(keepLast: int)
    ensures Words(ForgetArgv(keepLast)) == Words(Locked("forget")) + [Word("--group-by")] + [Word("")] + [Word("--keep-last")] +
                                           [Word(PrintInt(keepLast))] + [Word("--prune")]
  {
  }

  lemma EndsWithTag(head: string, before: seq<Token>, tag: string)
    requires Reads(head, before)
    ensures Lex(head + ShellQuoteOne(tag), Blank) == Some(before + [Word(tag)])
  {
    QuotedIsOneWord(tag);
    ReadsAll(head, before, ShellQuoteOne(tag), [Word(tag)]);
  }

  lemma EndsForgetting(head: string, before: seq<Token>, tag: string, keepLast: int)
    requires Reads(head, before)
    ensures Lex(head + ShellQuoteOne(tag) + ("; " + ForgetClause(keepLast)), Blank) ==
            Some(before + [Word(tag)] + (THEN + ForgetTokens(keepLast)))
  {
    var quoted, forget := ShellQuoteOne(tag), ForgetClause(keepLast);
    ReadsQuotedEnd(tag);
    ReadsBoth(head, before, quoted + "; ", [Word(tag), Op(";")]);
    ForgetReads(keepLast);
    ReadsAll(head + (quoted + "; "), before + [Word(tag), Op(";")], forget, ForgetTokens(keepLast));
    assert head + (quoted + "; ") + forget == head + quoted + ("; " + forget);
    assert before + [Word(tag), Op(";")] + ForgetTokens(keepLast) == before + [Word(tag)] + (THEN + ForgetTokens(keepLast));
  }

  /** Printing is faithful: whatever the paths, excludes, IDs and retention are, a shell reads the backup script as the
      same fixed operators and commands, and the arguments of `restic backup` are exactly the flags, the paths, the
      excludes and the two tags. */
  lemma BackupScriptReads(paths: seq<string>, excludes: seq<string>, planID: string, instance: string, keepLast: Option<int>)
    ensures Lex(BackupText(paths, excludes, planID, instance, keepLast), Blank) ==
            Some(BackupTokens(paths, excludes, planID, instance, keepLast))
  {
    var head, tag := HeadText(paths, excludes, planID), InstanceTag(instance);
    var before := PreambleTokens() + OpeningTokens() + Words(HeadArgs(paths, excludes, planID));
    ReadsHead(paths, excludes, planID);
    UploadWords(paths, excludes, planID, instance);
    match keepLast {
      case None =>
        EndsWithTag(head, before, tag);
        assert UploadText(paths, excludes, planID, instance) + "" == head + ShellQuoteOne(tag);
        assert before + [Word(tag)] + [] == before + [Word(tag)];
      case Some(n) =>
        EndsForgetting(head, before, tag, n);
    }
  }

  lemma UploadWords(paths: seq<string>, excludes: seq<string>, planID: string, instance: string)
    ensures PreambleTokens() + OpeningTokens() + Words(HeadArgs(paths, excludes, planID)) + [Word(InstanceTag(instance))] ==
            PreambleTokens() + OpeningTokens() + Words(BackupArgv(paths, excludes, planID, instance))
  {
    var args, tag := HeadArgs(paths, excludes, planID), InstanceTag(instance);
    WordsConcat(args, [tag]);
    assert BackupArgv(paths, excludes, planID, instance) == args + [tag];
    assert Words([tag]) == [Word(tag)];
  }

  lemma PruneScriptReads(keepLast: int)
    ensures Lex(PruneText(keepLast), Blank) == Some(PreambleTokens() + ForgetTokens(keepLast))
  {
    ReadsPreamble();
    ForgetReads(keepLast);
    ReadsAll(PREAMBLE, PreambleTokens(), ForgetClause(keepLast), ForgetTokens(keepLast));
  }

  lemma ReadsRestoreStart(snapshot: string)
    ensures Reads(PREAMBLE + RESTORE + ShellQuoteOne(snapshot) + " --target /data" + " ",
                  PreambleTokens() + Words(Locked("restore")) + [Word(snapshot)] + [Word("--target")] + [Word("/data")])
  {
    var a, ta := PREAMBLE + RESTORE, PreambleTokens() + Words(Locked("restore"));
    ReadsPreamble();
    RestoreConstant();
    ReadsLocked("restore");
    ReadsBoth(PREAMBLE, PreambleTokens(), RESTORE, Words(Locked("restore")));
    ReadsTarget(a, ta, snapshot);
    RestoreStart(a, ShellQuoteOne(snapshot));
  }

  lemma ReadsTarget(a: string, ta: seq<Token>, snapshot: string)
    requires Reads(a, ta)
    ensures Reads(a + (ShellQuoteOne(snapshot) + " ") + ("--target" + " ") + ("/data" + " "),
                  ta + [Word(snapshot)] + [Word("--target")] + [Word("/data")])
  {
    ReadsQuoted(snapshot);
    ReadsBoth(a, ta, ShellQuoteOne(snapshot) + " ", [Word(snapshot)]);
    ReadsWord("--target");
    ReadsWord("/data");
    ReadsThree(a + (ShellQuoteOne(snapshot) + " "), ta + [Word(snapshot)],
               "--target" + " ", [Word("--target")], "/data" + " ", [Word("/data")]);
  }

  lemma RestoreStart(a: string, snapshot: string)
    ensures a + snapshot + " --target /data" + " " == a + (snapshot + " ") + ("--target" + " ") + ("/data" + " ")
  {
    assert " --target /data" == " " + ("--target" + " ") + "/data";
  }

  /** The restore script is read as the same two commands whatever the snapshot and the filters are. */
  lemma RestoreScriptReads(snapshot: string, filters: seq<string>)
    ensures Lex(RestoreText(snapshot, filters), Blank) == Some(PreambleTokens() + Words(RestoreArgv(snapshot, filters)))
  {
    var start := PREAMBLE + RESTORE + ShellQuoteOne(snapshot) + " --target /data";
    var tokens := PreambleTokens() + Words(Locked("restore")) + [Word(snapshot)] + [Word("--target")] + [Word("/data")];
    ReadsRestoreStart(snapshot);
    ReadsFlags(start, tokens, "--include", filters);
    ReadsToEnd(start + Flags("--include", filters), tokens + Words(FlagArgs("--include", filters)));
    RestoreWords(PreambleTokens(), snapshot, FlagArgs("--include", filters));
    assert RestoreArgv(snapshot, filters) == Locked("restore") + [snapshot, "--target", "/data"] + FlagArgs("--include", filters);
  }

  lemma ReadsToEnd(a: string, ta: seq<Token>)
    requires Reads(a + " ", ta)
    ensures Lex(a, Blank) == Some(ta)
  {
    ReadsAll(a + " ", ta, "", []);
    assert a + " " + "" == a + " " && ta + [] == ta;
    TrailingBlank(a, Blank);
  }

  lemma RestoreWords(ta: seq<Token>, snapshot: string, flags: seq<string>)
    ensures ta + Words(Locked("restore")) + [Word(snapshot)] + [Word("--target")] + [Word("/data")] + Words(flags) ==
            ta + Words(Locked("restore") + [snapshot, "--target", "/data"] + flags)
  {
    WordsConcat(Locked("restore") + [snapshot, "--target", "/data"], flags);
    WordsConcat(Locked("restore"), [snapshot, "--target", "/data"]);
  }

  // ---------------------------------------------------------------------
  // Running the scripts

  /** The tokens of a command line hold no operator. */
  lemma NoOperator(args: seq<string>, op: string)
    ensures Op(op) !in Words(args)
  {
  }

  const UNLOCK: Argument := ["restic", "unlock"]
  const SNAPSHOTS: Argument := ["restic", "snapshots"]
  const INIT: Argument := ["restic", "init"]
  const TRUE: Argument := ["true"]

  lemma SimplesTwo(a: seq<Token>, b: seq<Token>)
    requires Op("||") !in a && Op("||") !in b
    ensures Simples(SplitOn(a + OR + b, Op("||"))) == [Argv(a), Argv(b)]
  {
    SplitFirst(a, Op("||"), b);
    SplitNone(b, Op("||"));
  }

  lemma ArgvRedirected()
    ensures Argv(Words(SNAPSHOTS) + [Op(">"), Word("/dev/null"), IONumber("2"), Op(">&"), Word("1")]) == SNAPSHOTS
  {
    var redirections := [Op(">"), Word("/dev/null"), IONumber("2"), Op(">&"), Word("1")];
    var tokens := Words(SNAPSHOTS) + redirections;
    assert tokens[1..] == [Word("snapshots")] + redirections && tokens[1..][1..] == redirections;
    assert redirections[2..] == [IONumber("2"), Op(">&"), Word("1")];
    assert redirections[2..][1..] == [Op(">&"), Word("1")];
    assert redirections[2..][1..][2..] == [];
    assert Argv(redirections) == [];
    assert ["restic"] + (["snapshots"] + []) == SNAPSHOTS;
  }

  lemma AnyhowSimples(args: seq<string>)
    ensures Simples(SplitOn(Words(args) + ANYHOW, Op("||"))) == [args, TRUE]
  {
    NoOperator(args, "||");
    SimplesTwo(Words(args), [Word("true")]);
    assert Words(args) + OR + [Word("true")] == Words(args) + ANYHOW;
    ArgvOfWords(args);
    assert Argv([Word("true")]) == TRUE by { ArgvOfWords(TRUE); assert Words(TRUE) == [Word("true")]; }
  }

  lemma OpeningSimples()
    ensures var redirections := [Op(">"), Word("/dev/null"), IONumber("2"), Op(">&"), Word("1")];
            Simples(SplitOn(Words(SNAPSHOTS) + redirections + OR + Words(INIT), Op("||"))) == [SNAPSHOTS, INIT]
  {
    var redirections := [Op(">"), Word("/dev/null"), IONumber("2"), Op(">&"), Word("1")];
    NoOperator(INIT, "||");
    SimplesTwo(Words(SNAPSHOTS) + redirections, Words(INIT));
    ArgvRedirected();
    ArgvOfWords(INIT);
  }

  lemma AloneSimples(args: seq<string>)
    ensures Simples(SplitOn(Words(args), Op("||"))) == [args]
  {
    NoOperator(args, "||");
    SplitNone(Words(args), Op("||"));
    ArgvOfWords(args);
  }

  /** One more list in front. */
  lemma ParseMore(list: seq<Token>, rest: seq<Token>)
    requires Op(";") !in list
    ensures Parse(list + THEN + rest) == [Simples(SplitOn(list, Op("||")))] + Parse(rest)
  {
    SplitFirst(list, Op(";"), rest);
  }

  lemma ParseLast(list: seq<Token>)
    requires Op(";") !in list
    ensures Parse(list) == [Simples(SplitOn(list, Op("||")))]
  {
    SplitNone(list, Op(";"));
  }

  /** What the tail of the backup script parses to. */
  function Retention(keepLast: Option<int>): seq<seq<Argument>> {
    match keepLast
    case None => []
    case Some(n) => [[ForgetArgv(n), TRUE]]
  }

  lemma UploadParses(args: seq<string>, keepLast: Option<int>)
    ensures Parse(Words(args) + match keepLast case None => [] case Some(n) => THEN + ForgetTokens(n)) == [[args]] + Retention(keepLast)
  {
    NoOperator(args, ";");
    AloneSimples(args);
    if keepLast.None? {
      assert Words(args) + [] == Words(args);
      ParseLast(Words(args));
    } else {
      var n := keepLast.value;
      NoOperator(ForgetArgv(n), ";");
      ParseMore(Words(args), ForgetTokens(n));
      assert Words(args) + THEN + ForgetTokens(n) == Words(args) + (THEN + ForgetTokens(n));
      ParseLast(ForgetTokens(n));
      AnyhowSimples(ForgetArgv(n));
    }
  }

  /** The commands of the backup script: unlock anyhow; open or create the repository; back up; forget anyhow. */
  lemma BackupScriptParses(paths: seq<string>, excludes: seq<string>, planID: string, instance: string, keepLast: Option<int>)
    ensures Parse(BackupTokens(paths, excludes, planID, instance, keepLast)) ==
            [[UNLOCK, TRUE], [SNAPSHOTS, INIT], [BackupArgv(paths, excludes, planID, instance)]] + Retention(keepLast)
  {
    var args := BackupArgv(paths, excludes, planID, instance);
    var redirections := [Op(">"), Word("/dev/null"), IONumber("2"), Op(">&"), Word("1")];
    var opening := Words(SNAPSHOTS) + redirections + OR + Words(INIT);
    var upload := Words(args) + match keepLast case None => [] case Some(n) => THEN + ForgetTokens(n);
    NoOperator(UNLOCK, ";");
    ParseMore(Words(UNLOCK) + ANYHOW, opening + THEN + upload);
    AnyhowSimples(UNLOCK);
    NoOperator(SNAPSHOTS, ";");
    NoOperator(INIT, ";");
    ParseMore(opening, upload);
    OpeningSimples();
    UploadParses(args, keepLast);
    assert BackupTokens(paths, excludes, planID, instance, keepLast) ==
           Words(UNLOCK) + ANYHOW + THEN + (opening + THEN + upload);
  }

  lemma RunOne(a: Argument, ok: Argument -> bool)
    ensures RunOr([a], ok) == Ran([a], ok(a))
  {
    assert [a][1..] == [] && [a] + [] == [a];
  }

  lemma RunTwo(a: Argument, b: Argument, ok: Argument -> bool)
    ensures RunOr([a, b], ok) == if ok(a) then Ran([a], true) else Ran([a, b], ok(b))
  {
    assert [a, b][1..] == [b];
    RunOne(b, ok);
    assert [a] + [b] == [a, b];
  }

  lemma RunMore(list: seq<Argument>, lists: seq<seq<Argument>>, ok: Argument -> bool)
    ensures var first := RunOr(list, ok);
            RunScript([list] + lists, ok) ==
            if first.ok then Ran(first.commands + RunScript(lists, ok).commands, RunScript(lists, ok).ok) else first
  {
    assert ([list] + lists)[1..] == lists;
  }

  /** The alternative is tried only after a failure. */
  function Tried(a: Argument, otherwise: Argument, ok: Argument -> bool): seq<Argument> {
    if ok(a) then [a] else [a, otherwise]
  }

  /** Under `sh -e` the backup Job succeeds if and only if the repository opens or can be created, and the backup
      itself succeeds. The backup runs only on an open repository, and old snapshots are forgotten only after it
      succeeded. */
  lemma BackupJobSucceedsIff(paths: seq<string>, excludes: seq<string>, planID: string, instance: string, keepLast: Option<int>,
                             ok: Argument -> bool)
    requires ok(TRUE)
    ensures var backup := BackupArgv(paths, excludes, planID, instance);
            var opens := ok(SNAPSHOTS) || ok(INIT);
            RunScript(Parse(BackupTokens(paths, excludes, planID, instance, keepLast)), ok) ==
            Ran(Tried(UNLOCK, TRUE, ok) + (Tried(SNAPSHOTS, INIT, ok) +
                  (if !opens then []
                   else [backup] + if !ok(backup) || keepLast.None? then [] else Tried(ForgetArgv(keepLast.value), TRUE, ok))),
                opens && ok(backup))
  {
    var backup, tail := BackupArgv(paths, excludes, planID, instance), Retention(keepLast);
    BackupScriptParses(paths, excludes, planID, instance, keepLast);
    RunTail(keepLast, ok);
    RunOne(backup, ok);
    RunMore([backup], tail, ok);
    RunTwo(SNAPSHOTS, INIT, ok);
    RunMore([SNAPSHOTS, INIT], [[backup]] + tail, ok);
    RunTwo(UNLOCK, TRUE, ok);
    RunMore([UNLOCK, TRUE], [[SNAPSHOTS, INIT]] + ([[backup]] + tail), ok);
    assert [[UNLOCK, TRUE], [SNAPSHOTS, INIT], [backup]] + tail == [[UNLOCK, TRUE]] + ([[SNAPSHOTS, INIT]] + ([[backup]] + tail));
  }

  lemma RunTail(keepLast: Option<int>, ok: Argument -> bool)
    requires ok(TRUE)
    ensures RunScript(Retention(keepLast), ok) ==
            Ran(if keepLast.None? then [] else Tried(ForgetArgv(keepLast.value), TRUE, ok), true)
  {
    if keepLast.Some? {
      RunTwo(ForgetArgv(keepLast.value), TRUE, ok);
      RunMore([ForgetArgv(keepLast.value), TRUE], [], ok);
      assert [[ForgetArgv(keepLast.value), TRUE]] + [] == Retention(keepLast);
    }
  }

  lemma PruneParses(keepLast: int)
    ensures Parse(PreambleTokens() + ForgetTokens(keepLast)) == [[UNLOCK, TRUE], [ForgetArgv(keepLast), TRUE]]
  {
    var unlock, forget := Words(UNLOCK) + ANYHOW, ForgetTokens(keepLast);
    NoOperator(UNLOCK, ";");
    NoOperator(ForgetArgv(keepLast), ";");
    ParseMore(unlock, forget);
    ParseLast(forget);
    AnyhowSimples(UNLOCK);
    AnyhowSimples(ForgetArgv(keepLast));
    assert PreambleTokens() + forget == unlock + THEN + forget;
  }

  /** A prune Job always succeeds, whatever `restic unlock` and `restic forget` do. */
  lemma PruneJobAlwaysSucceeds(keepLast: int, ok: Argument -> bool)
    requires ok(TRUE)
    ensures Lex(PruneText(keepLast), Blank).Some?
    ensures RunScript(Parse(Lex(PruneText(keepLast), Blank).value), ok) ==
            Ran(Tried(UNLOCK, TRUE, ok) + Tried(ForgetArgv(keepLast), TRUE, ok), true)
  {
    PruneScriptReads(keepLast);
    PruneParses(keepLast);
    RunTail(Some(keepLast), ok);
    RunTwo(UNLOCK, TRUE, ok);
    RunMore([UNLOCK, TRUE], [[ForgetArgv(keepLast), TRUE]], ok);
  }

  lemma RestoreParses(snapshot: string, filters: seq<string>)
    ensures Parse(PreambleTokens() + Words(RestoreArgv(snapshot, filters))) == [[UNLOCK, TRUE], [RestoreArgv(snapshot, filters)]]
  {
    var unlock, args := Words(UNLOCK) + ANYHOW, RestoreArgv(snapshot, filters);
    NoOperator(UNLOCK, ";");
    NoOperator(args, ";");
    ParseMore(unlock, Words(args));
    ParseLast(Words(args));
    AnyhowSimples(UNLOCK);
    AloneSimples(args);
    assert PreambleTokens() + Words(args) == unlock + THEN + Words(args);
  }

  /** A restore Job succeeds if and only if `restic restore` does. */
  lemma RestoreJobSucceedsIff(snapshot: string, filters: seq<string>, ok: Argument -> bool)
    requires ok(TRUE)
    ensures Lex(RestoreText(snapshot, filters), Blank).Some?
    ensures RunScript(Parse(Lex(RestoreText(snapshot, filters), Blank).value), ok) ==
            Ran(Tried(UNLOCK, TRUE, ok) + [RestoreArgv(snapshot, filters)], ok(RestoreArgv(snapshot, filters)))
  {
    var args := RestoreArgv(snapshot, filters);
    RestoreScriptReads(snapshot, filters);
    RestoreParses(snapshot, filters);
    RunOne(args, ok);
    RunMore([args], [], ok);
    RunTwo(UNLOCK, TRUE, ok);
    RunMore([UNLOCK, TRUE], [[args]], ok);
    assert [[args]] + [] == [[args]];
  }

  // ---------------------------------------------------------------------
  // The commands, argument by argument

  /** The text is the decimal notation of n. */
  predicate Denotes(text: string, n: int) {
    if n < 0 then text != "" && text[0] == '-' && AllDigits(text[1..]) && Value(text[1..]) == -n
    else AllDigits(text) && Value(text) == n
  }

  lemma PrintIntDenotes(n: int)
    ensures Denotes(PrintInt(n), n)
  {
    if n < 0 {
      assert ("-" + Decimal(-n))[1..] == Decimal(-n);
      ValueOfDecimal(-n);
    } else {
      ValueOfDecimal(n);
    }
  }

  /** A flag and a value in turn, for each of the texts. */
  predicate FlagsThenValues(args: seq<string>, flag: string, texts: seq<string>) {
    |args| == 2 * |texts| && forall i :: 0 <= i < |texts| ==> args[2 * i] == flag && args[2 * i + 1] == texts[i]
  }

  lemma {:induction false} FlagArgsAlternate(flag: string, texts: seq<string>)
    ensures FlagsThenValues(FlagArgs(flag, texts), flag, texts)
  {
    if texts != [] {
      var front := texts[..|texts| - 1];
      FlagArgsAlternate(flag, front);
      forall i | 0 <= i < |texts|
        ensures FlagArgs(flag, texts)[2 * i] == flag && FlagArgs(flag, texts)[2 * i + 1] == texts[i]
      {
        if i < |front| {
          assert FlagArgs(flag, texts)[2 * i] == FlagArgs(flag, front)[2 * i];
          assert FlagArgs(flag, texts)[2 * i + 1] == FlagArgs(flag, front)[2 * i + 1];
        }
      }
    }
  }

  /** `restic backup` of these paths and excludes, tagged with the plan and the instance. */
  predicate BacksUp(args: Argument, paths: seq<string>, excludes: seq<string>, planID: string, instance: string) {
    && |args| >= |paths| + 9
    && args[..5] == ["restic", "backup", "--json", "--retry-lock", "5m"]
    && args[5..|paths| + 5] == paths
    && FlagsThenValues(args[|paths| + 5..|args| - 4], "--exclude", excludes)
    && args[|args| - 4..] == ["--tag", "plan:" + planID, "--tag", "created-by:" + instance]
  }

  /** `restic forget` of all but the newest n snapshots, over the whole repository. */
  predicate Forgets(args: Argument, n: int) {
    && |args| == 10
    && args[..8] == ["restic", "forget", "--json", "--retry-lock", "5m", "--group-by", "", "--keep-last"]
    && Denotes(args[8], n)
    && args[9] == "--prune"
  }

  /** `restic restore` of the snapshot into /data, narrowed by the filters. */
  predicate Restores(args: Argument, snapshot: string, filters: seq<string>) {
    && |args| >= 8
    && args[..8] == ["restic", "restore", "--json", "--retry-lock", "5m", snapshot, "--target", "/data"]
    && FlagsThenValues(args[8..], "--include", filters)
  }

  lemma BackupArgvBacksUp(paths: seq<string>, excludes: seq<string>, planID: string, instance: string)
    ensures BacksUp(BackupArgv(paths, excludes, planID, instance), paths, excludes, planID, instance)
  {
    var args, flags := BackupArgv(paths, excludes, planID, instance), FlagArgs("--exclude", excludes);
    FlagArgsAlternate("--exclude", excludes);
    assert args[|paths| + 5..|args| - 4] == flags;
  }

  lemma ForgetArgvForgets(n: int)
    ensures Forgets(ForgetArgv(n), n)
  {
    PrintIntDenotes(n);
  }

  lemma RestoreArgvRestores(snapshot: string, filters: seq<string>)
    ensures Restores(RestoreArgv(snapshot, filters), snapshot, filters)
  {
    FlagArgsAlternate("--include", filters);
    assert RestoreArgv(snapshot, filters)[8..] == FlagArgs("--include", filters);
  }

  /** The commands a shell finds in a script. */
  function Commands(script: string): Option<seq<seq<Argument>>> {
    match Lex(script, Blank)
    case None => None
    case Some(tokens) => Some(Parse(tokens))
  }

  /** What the backup Job runs: unlock or go on; list the snapshots or create the repository; back up just these paths
      and excludes under just these tags; and, with a retention, forget all but the newest that many, or go on. */
  lemma BackupScriptCommands(paths: seq<string>, excludes: seq<string>, planID: string, instance: string, keepLast: Option<int>)
    ensures var lists := Commands(BackupText(paths, excludes, planID, instance, keepLast));
            lists.Some? &&
            |lists.value| == (if keepLast.Some? then 4 else 3) &&
            lists.value[0] == [["restic", "unlock"], ["true"]] &&
            lists.value[1] == [["restic", "snapshots"], ["restic", "init"]] &&
            |lists.value[2]| == 1 && BacksUp(lists.value[2][0], paths, excludes, planID, instance) &&
            (keepLast.Some? ==>
               |lists.value[3]| == 2 && Forgets(lists.value[3][0], keepLast.value) && lists.value[3][1] == ["true"])
  {
    BackupScriptReads(paths, excludes, planID, instance, keepLast);
    BackupScriptParses(paths, excludes, planID, instance, keepLast);
    BackupArgvBacksUp(paths, excludes, planID, instance);
    if keepLast.Some? {
      ForgetArgvForgets(keepLast.value);
    }
  }

  /** What the prune Job runs: unlock or go on, then forget all but the newest that many, or go on. */
  lemma PruneScriptCommands(keepLast: int)
    ensures var lists := Commands(PruneText(keepLast));
            lists.Some? && |lists.value| == 2 &&
            lists.value[0] == [["restic", "unlock"], ["true"]] &&
            |lists.value[1]| == 2 && Forgets(lists.value[1][0], keepLast) && lists.value[1][1] == ["true"]
  {
    PruneScriptReads(keepLast);
    PruneParses(keepLast);
    ForgetArgvForgets(keepLast);
  }

  /** What the restore Job runs: unlock or go on, then restore just this snapshot and these paths. */
  lemma RestoreScriptCommands(snapshot: string, filters: seq<string>)
    ensures var lists := Commands(RestoreText(snapshot, filters));
            lists.Some? && |lists.value| == 2 &&
            lists.value[0] == [["restic", "unlock"], ["true"]] &&
            |lists.value[1]| == 1 && Restores(lists.value[1][0], snapshot, filters)
  {
    RestoreScriptReads(snapshot, filters);
    RestoreParses(snapshot, filters);
    RestoreArgvRestores(snapshot, filters);
  }
}
