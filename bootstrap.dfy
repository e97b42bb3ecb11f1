/**
 * The self-deleting remote bootstrap script (`getDeploymentCode`, `getRemoteCommands`):
 * PHP source text produced from the configuration, as a fixed template of nine steps.
 * Only the text is modelled; what the shell pipelines in it do when they run is not.
 */
module Bootstrap {
  import opened Text
  import opened Escaping
  import opened Archive

  /** The script's fixed file name (`SCRIPT_NAME`). */
  const ScriptName := "deploy.php"

  /** The migration variant chosen by a truthy `--refresh` option. */
  const RefreshSuffix := ":refresh --seed"

  const ExecOpen := "exec('"
  const ExecClose := ", $debug);"

  /** The indentation of every line of the template. */
  const Indent := "            "

  /** One line of the template. */
  function Line(s: string): string {
    Indent + s + "\n"
  }

  // ---------------------------------------------------------------------------
  // Custom remote commands

  /** The statement that runs one custom command, its text escaped by `e`. */
  function RemoteCommand(e: Escape, cmd: string): string {
    "exec('" + Escaped(e, cmd) + "', $debug);"
  }

  /**
   * `getRemoteCommands`: one statement per configured command, in the same order.
   * The deployment command itself escapes with `QuotesOnly`.
   */
  function RemoteCommands(e: Escape, cmds: seq<string>): (r: seq<string>)
    ensures |r| == |cmds|
    ensures forall i :: 0 <= i < |cmds| ==> r[i] == RemoteCommand(e, cmds[i])
  {
    if cmds == [] then [] else [RemoteCommand(e, cmds[0])] + RemoteCommands(e, cmds[1..])
  }

  /** Reads one `exec('<literal>', $debug);` statement: the command it runs and the text after it. */
  function ParseExec(s: string): (r: Option<(string, string)>)
    ensures r.Some? ==> |r.value.1| < |s|
  {
    if |s| < |ExecOpen| || s[..|ExecOpen|] != ExecOpen then None
    else match ReadQuoted(s[|ExecOpen|..])
      case None => None
      case Some((cmd, rest)) =>
        if |rest| < |ExecClose| || rest[..|ExecClose|] != ExecClose then None
        else Some((cmd, rest[|ExecClose|..]))
  }

  /** Reads a run of statements back into the commands they run, in order. */
  function ParseExecs(s: string): Option<seq<string>>
    decreases |s|
  {
    if s == "" then Some([])
    else match ParseExec(s)
      case None => None
      case Some((cmd, rest)) =>
        match ParseExecs(rest)
        case None => None
        case Some(cmds) => Some([cmd] + cmds)
  }

  /** Every command of the list is read back by the escape. */
  predicate AllReadBack(e: Escape, cmds: seq<string>) {
    forall i :: 0 <= i < |cmds| ==> ReadsBack(e, cmds[i])
  }

  lemma ExecStatementShape(lit: string)
    ensures "exec('" + lit + "', $debug);" == ExecOpen + (lit + "'" + ExecClose)
  {
  }

  /**
   * Whatever follows the statement, PHP reads it as running exactly `cmd`, whenever the
   * escape reads `cmd` back: always with backslashes escaped, and as the source writes it
   * when the command has no backslash.
   */
  lemma RemoteCommandParses(e: Escape, cmd: string, rest: string)
    requires ReadsBack(e, cmd)
    ensures ParseExec(RemoteCommand(e, cmd) + rest) == Some((cmd, rest))
  {
    var lit := Escaped(e, cmd);
    ExecStatementShape(lit);
    var s := RemoteCommand(e, cmd) + rest;
    assert s == ExecOpen + (lit + "'" + (ExecClose + rest));
    assert s[..|ExecOpen|] == ExecOpen;
    assert s[|ExecOpen|..] == lit + "'" + (ExecClose + rest);
    EscapedRoundTrip(e, cmd, ExecClose + rest);
    assert (ExecClose + rest)[..|ExecClose|] == ExecClose;
    assert (ExecClose + rest)[|ExecClose|..] == rest;
  }

  /**
   * The custom-command block reads back as exactly the configured commands (count, order
   * and text) whenever the escape reads every one of them back.
   */
  lemma {:induction false} RemoteCommandsRoundTrip(e: Escape, cmds: seq<string>)
    requires AllReadBack(e, cmds)
    ensures ParseExecs(Concat(RemoteCommands(e, cmds))) == Some(cmds)
  {
    if cmds != [] {
      var stmts := RemoteCommands(e, cmds);
      assert stmts == [RemoteCommand(e, cmds[0])] + RemoteCommands(e, cmds[1..]);
      ConcatAppend([RemoteCommand(e, cmds[0])], RemoteCommands(e, cmds[1..]));
      var rest := Concat(RemoteCommands(e, cmds[1..]));
      assert Concat(stmts) == RemoteCommand(e, cmds[0]) + rest;
      assert ReadsBack(e, cmds[0]);
      RemoteCommandParses(e, cmds[0], rest);
      assert AllReadBack(e, cmds[1..]) by {
        forall i | 0 <= i < |cmds[1..]| ensures ReadsBack(e, cmds[1..][i]) {
          assert cmds[1..][i] == cmds[i + 1];
        }
      }
      RemoteCommandsRoundTrip(e, cmds[1..]);
      assert [cmds[0]] + cmds[1..] == cmds;
    }
  }

  /** With backslashes escaped too, every list of commands reads back exactly. */
  lemma CorrectedRemoteCommandsRoundTrip(cmds: seq<string>)
    ensures ParseExecs(Concat(RemoteCommands(QuotesAndBackslashes, cmds))) == Some(cmds)
  {
    RemoteCommandsRoundTrip(QuotesAndBackslashes, cmds);
  }

  /** For backslash-free commands the corrected statements are the ones the source writes. */
  lemma RemoteCommandsAgreeWithoutBackslash(cmds: seq<string>)
    requires AllReadBack(QuotesOnly, cmds)
    ensures RemoteCommands(QuotesOnly, cmds) == RemoteCommands(QuotesAndBackslashes, cmds)
  {
    forall i | 0 <= i < |cmds|
      ensures RemoteCommand(QuotesOnly, cmds[i]) == RemoteCommand(QuotesAndBackslashes, cmds[i])
    {
      assert ReadsBack(QuotesOnly, cmds[i]);
      EscapesAgreeWithoutBackslash(cmds[i]);
    }
  }

  /**
   * As written, a command ending in a backslash escapes the closing quote of its own
   * literal: the statement no longer reads as one `exec` call of the command.
   */
  lemma TrailingBackslashBreaksLiteral(p: string)
    requires '\'' !in p && '\\' !in p
    ensures ParseExec(RemoteCommand(QuotesOnly, p + "\\")) == None
  {
    var cmd := p + "\\";
    assert '\'' !in cmd;
    EscapeQuotesIdentity(cmd);
    ExecStatementShape(cmd);
    var s := RemoteCommand(QuotesOnly, cmd);
    var t := p + (['\\', '\''] + ExecClose);
    assert cmd + "'" + ExecClose == t;
    assert s == ExecOpen + t;
    assert s[..|ExecOpen|] == ExecOpen && s[|ExecOpen|..] == t;
    assert '\'' !in ExecClose;
    UnterminatedWithoutQuote(ExecClose);
    ReadEscaped('\'', ExecClose);
    UnterminatedAfterPlainPrefix(p, ['\\', '\''] + ExecClose);
  }

  /** The smallest such command: `echo \`. */
  lemma EchoBackslashBreaksLiteral()
    ensures ParseExec(RemoteCommand(QuotesOnly, "echo \\")) == None
  {
    TrailingBackslashBreaksLiteral("echo ");
    assert "echo " + "\\" == "echo \\";
  }

  /** As written, the block for that one command does not read back as the command: it does not parse. */
  lemma TrailingBackslashBreaksBlock(p: string)
    requires '\'' !in p && '\\' !in p
    ensures ParseExecs(Concat(RemoteCommands(QuotesOnly, [p + "\\"]))) == None
  {
    var stmt := RemoteCommand(QuotesOnly, p + "\\");
    assert Concat(RemoteCommands(QuotesOnly, [p + "\\"])) == stmt + Concat([]);
    assert stmt + "" == stmt;
    TrailingBackslashBreaksLiteral(p);
  }

  /**
   * An escaped quote after plain text does not end the literal: it runs on through the
   * plain text `y` up to the next quote.
   */
  lemma EscapedQuoteRunsOn(p: string, y: string, r: string)
    requires Plain(p) && Plain(y)
    ensures ReadQuoted(p + (['\\', '\''] + (y + ("'" + r)))) == Some((p + ("'" + y), r))
  {
    var q := "'" + r;
    assert q[1..] == r;
    ReadThroughPlain(y, q, "", r);
    assert y + "" == y;
    var e := y + q;
    ReadEscaped('\'', e);
    ReadThroughPlain(p, ['\\', '\''] + e, "'" + y, r);
  }

  /** A statement whose literal closes anywhere but before `, $debug);` does not parse. */
  lemma ClosedTooEarly(lit: string, cmd: string, r: string)
    requires ReadQuoted(lit) == Some((cmd, r))
    requires |r| >= |ExecClose| && r[0] != ExecClose[0]
    ensures ParseExec(ExecOpen + lit) == None
  {
    var s := ExecOpen + lit;
    assert s[..|ExecOpen|] == ExecOpen && s[|ExecOpen|..] == lit;
    assert r[..|ExecClose|][0] == r[0];
  }

  /** A literal that never closes still never closes behind a prefix without quotes or backslashes. */
  lemma {:induction false} UnterminatedAfterPlainPrefix(p: string, tail: string)
    requires '\'' !in p && '\\' !in p
    requires ReadQuoted(tail) == None
    ensures ReadQuoted(p + tail) == None
  {
    if p == [] {
      assert p + tail == tail;
    } else {
      assert p[0] in p;
      assert forall c :: c in p[1..] ==> c in p;
      UnterminatedAfterPlainPrefix(p[1..], tail);
      assert p + tail == [p[0]] + (p[1..] + tail);
      ReadPlain(p[0], p[1..] + tail);
    }
  }

  // ---------------------------------------------------------------------------
  // Purge exclusions

  /** The egrep alternative protecting one path: `/p$`, anchored at the end. */
  function PurgePattern(p: string): string {
    "/" + p + "$"
  }

  function PurgePatterns(ps: seq<string>): (r: seq<string>)
    ensures |r| == |ps|
    ensures forall i :: 0 <= i < |ps| ==> r[i] == PurgePattern(ps[i])
  {
    if ps == [] then [] else [PurgePattern(ps[0])] + PurgePatterns(ps[1..])
  }

  /** `$excludeFromPurge`: the alternatives joined with `|`, and one more `|` in front unless empty. */
  function PurgeFragment(ps: seq<string>): string {
    var joined := Join("|", PurgePatterns(ps));
    if Truthy(joined) then "|" + joined else joined
  }

  /**
   * The fragment is empty exactly when there are no purge exclusions, and otherwise
   * holds one `|/p$` alternative per pattern, in order.
   */
  lemma PurgeFragmentAlternatives(ps: seq<string>)
    ensures PurgeFragment(ps) == "" <==> ps == []
    ensures PurgeFragment(ps) == Concat(Prefixed("|", PurgePatterns(ps)))
  {
    var pats := PurgePatterns(ps);
    if ps != [] {
      JoinHead("|", pats);
      assert Join("|", pats)[0] == '/';
      PrefixedJoin("|", pats);
    }
  }

  // ---------------------------------------------------------------------------
  // Migration

  /** The migration statement run after unpacking. */
  function MigrationLine(phpCli: string, refresh: bool): string {
    "exec('" + phpCli + " artisan migrate" + (if refresh then RefreshSuffix else "") + " --force', $debug);"
  }

  lemma NoColonInFixedText()
    ensures ':' !in "exec('" && ':' !in " artisan migrate --force', $debug);"
  {
  }

  lemma MigrationLineShape(phpCli: string)
    ensures MigrationLine(phpCli, false) == "exec('" + phpCli + " artisan migrate --force', $debug);"
    ensures MigrationLine(phpCli, true) == "exec('" + phpCli + " artisan migrate" + RefreshSuffix + " --force', $debug);"
  {
  }

  /**
   * The statement asks for `:refresh --seed` exactly when the refresh flag is set,
   * for any interpreter path that does not itself contain that text.
   */
  lemma MigrationRefreshIff(phpCli: string, refresh: bool)
    requires !Contains(phpCli, RefreshSuffix)
    ensures Contains(MigrationLine(phpCli, refresh), RefreshSuffix) <==> refresh
  {
    var line := MigrationLine(phpCli, refresh);
    var front := "exec('" + phpCli + " artisan migrate";
    if refresh {
      assert line == front + RefreshSuffix + " --force', $debug);";
      assert line[|front|..|front| + |RefreshSuffix|] == RefreshSuffix;
      assert OccursAt(line, RefreshSuffix, |front|);
    } else if Contains(line, RefreshSuffix) {
      MigrationLineShape(phpCli);
      var back := " artisan migrate --force', $debug);";
      assert line == "exec('" + phpCli + back;
      var i :| 0 <= i <= |line| - |RefreshSuffix| && OccursAt(line, RefreshSuffix, i);
      NoMatchAcrossCli(phpCli, back, i);
    }
  }

  /** The search in MigrationRefreshIff: a match must start inside the path and cannot run on into the fixed text. */
  lemma NoMatchAcrossCli(phpCli: string, back: string, i: int)
    requires !Contains(phpCli, RefreshSuffix)
    requires back == " artisan migrate --force', $debug);"
    ensures !OccursAt("exec('" + phpCli + back, RefreshSuffix, i)
  {
    var line := "exec('" + phpCli + back;
    var n := |RefreshSuffix|;
    NoColonInFixedText();
    if 0 <= i <= |line| - n {
      if i < 6 || i >= 6 + |phpCli| {
        assert line[i] != ':';
        assert line[i..i + n][0] == line[i] && RefreshSuffix[0] == ':';
      } else if i + n <= 6 + |phpCli| {
        assert line[i..i + n] == phpCli[i - 6..i - 6 + n];
        assert !OccursAt(phpCli, RefreshSuffix, i - 6);
      } else {
        var k := 6 + |phpCli| - i;
        assert line[i + k] == ' ' && line[i..i + n][k] == line[i + k];
        if k == 8 {
          assert line[i + 9] == 'a' && line[i..i + n][9] == line[i + 9];
        } else {
          assert RefreshSuffix[k] != ' ';
        }
      }
    }
  }

  // ---------------------------------------------------------------------------
  // The script as a template of steps

  /**
   * What the script is generated from. `escape` is how the custom commands are escaped:
   * the deployment command uses `QuotesOnly`; `QuotesAndBackslashes` gives the corrected script.
   */
  datatype Template = Template(phpCli: string, refresh: bool, remote: seq<string>, purgeExcludes: seq<string>, escape: Escape)

  /** The steps of the script, each with the comment that heads it in the generated text. */
  datatype Step =
    | PurgeOwnDir       // delete every entry of $PWD except the script itself and the purge exclusions
    | PurgeHidden       // delete hidden entries except `.` and `..`
    | PurgeReleaseRoot  // delete the parent's entries except the archive and `public`
    | ChangeDir         // chdir('..')
    | Unpack            // tar -xf the archive
    | Migrate           // artisan migrate, or migrate:refresh --seed
    | RunCustom         // the configured remote commands
    | RemoveArchive     // rm -rf the archive
    | EmitLog           // echo json_encode($debug)

  /** The fixed order of the steps. */
  const StepOrder: seq<Step> :=
    [PurgeOwnDir, PurgeHidden, PurgeReleaseRoot, ChangeDir, Unpack, Migrate, RunCustom, RemoveArchive, EmitLog]

  /** Everything before the first step: the opening tag and the two variables. */
  const Prelude: string :=
    "\n" + Line("<?php") + "\n" + Line("// vars") + Line("$debug = [];") + Line("$archive = '" + ArchiveName + "';")
    + "\n" + Line("// delete old files")

  /** The text of one step. */
  function StepText(t: Template, step: Step): string {
    match step
    case PurgeOwnDir =>
      Line("exec('ls -d -1 $PWD/** | egrep -v \"('.__FILE__.'$" + PurgeFragment(t.purgeExcludes) + ")\" | xargs rm -rf', $debug);")
    case PurgeHidden =>
      Line("exec('ls -d -1 $PWD/.** | egrep -v \"(/..?$)\" | xargs rm -rf', $debug);")
    case PurgeReleaseRoot =>
      "\n" + Line("$exclude = '(/'.$archive.'$|/public$)';")
      + Line("exec('ls -d -1 $PWD/../** | egrep -v \"'.$exclude.'\" | xargs rm -rf', $debug);")
    case ChangeDir =>
      "\n" + Line("// change dir") + Line("chdir('..');")
    case Unpack =>
      "\n" + Line("// unzip deployment archive") + Line("exec('tar -xf $PWD/' . $archive, $debug);")
    case Migrate =>
      "\n" + Line("// run migrations") + Line(MigrationLine(t.phpCli, t.refresh))
    case RunCustom =>
      CustomHead + Concat(RemoteCommands(t.escape, t.remote)) + "\n"
    case RemoveArchive =>
      RemovalFront + "'" + RemovalRest
    case EmitLog =>
      "\n" + Line("// output") + Indent + "echo json_encode($debug);" + "\n\t\t"
  }

  /** What stands in front of the custom-command statements, on their line of the template. */
  const CustomHead := "\n" + Line("// run custom commands") + Indent

  /**
   * The archive-removal step, `exec('rm -rf $PWD/' . $archive, $debug);` under its comment,
   * in two parts: up to the quote that opens the command, and after that quote.
   */
  const RemovalFront := "\n" + Line("// delete archive & self") + Indent + "exec("

  const RemovalRest := "rm -rf $PWD/' . $archive, $debug);" + "\n"

  /** The steps' texts, in the fixed order. */
  function StepTexts(t: Template): (r: seq<string>)
    ensures |r| == |StepOrder|
    ensures forall k :: 0 <= k < |StepOrder| ==> r[k] == StepText(t, StepOrder[k])
  {
    seq(|StepOrder|, k requires 0 <= k < |StepOrder| => StepText(t, StepOrder[k]))
  }

  /** `getDeploymentCode`: the whole script. */
  function DeploymentCode(t: Template): string {
    Prelude + Concat(StepTexts(t))
  }

  /** Where the text of the k-th step starts in the script. */
  function StepOffset(t: Template, k: nat): nat
    requires k <= |StepOrder|
  {
    |Prelude| + |Concat(StepTexts(t)[..k])|
  }

  /**
   * The k-th step's text stands in the script at StepOffset(t, k), and the next step's
   * text starts right where it ends; the last one ends the script.
   */
  lemma StepAt(t: Template, k: nat)
    requires k < |StepOrder|
    ensures var code := DeploymentCode(t);
            var text := StepText(t, StepOrder[k]);
            StepOffset(t, k) + |text| <= |code|
            && code[StepOffset(t, k)..StepOffset(t, k) + |text|] == text
            && (k + 1 < |StepOrder| ==> StepOffset(t, k + 1) == StepOffset(t, k) + |text|)
            && (k + 1 == |StepOrder| ==> StepOffset(t, k) + |text| == |code|)
  {
    PieceAt(Prelude, StepTexts(t), k);
  }

  /** Every earlier step ends before every later one begins. */
  lemma {:induction false} StepsInOrder(t: Template, i: nat, j: nat)
    requires i < j < |StepOrder|
    ensures StepOffset(t, i) + |StepText(t, StepOrder[i])| <= StepOffset(t, j)
    decreases j - i
  {
    StepAt(t, i);
    if i + 1 < j {
      StepsInOrder(t, i + 1, j);
      StepAt(t, i + 1);
    }
  }

  /** Only the migration step depends on the refresh flag. */
  lemma StepIgnoresRefresh(t: Template, step: Step)
    requires step != Migrate
    ensures StepText(t.(refresh := false), step) == StepText(t.(refresh := true), step)
  {
  }

  /**
   * The refresh flag controls exactly one suffix: the script with refresh is the script
   * without it, with `:refresh --seed` inserted at one place and nothing else changed.
   */
  lemma RefreshInsertsOnlySuffix(t: Template)
    ensures Inserted(DeploymentCode(t.(refresh := false)), DeploymentCode(t.(refresh := true)), RefreshSuffix)
  {
    var lo := StepTexts(t.(refresh := false));
    var hi := StepTexts(t.(refresh := true));
    StepTextsOffMigrate(t);
    MigrationStepSplit(t);
    MigrateIsSixth();
    SpliceWitness(Prelude, lo, hi, 5, MigrationFront(t.phpCli), RefreshSuffix, MigrationBack);
  }

  /** The migration is the step at index 5. */
  lemma MigrateIsSixth()
    ensures StepOrder[5] == Migrate
  {
  }

  /** The step texts with and without refresh agree on every step but the migration (index 5). */
  lemma StepTextsOffMigrate(t: Template)
    ensures var lo := StepTexts(t.(refresh := false));
            var hi := StepTexts(t.(refresh := true));
            lo[..5] == hi[..5] && lo[6..] == hi[6..]
  {
    var lo := StepTexts(t.(refresh := false));
    var hi := StepTexts(t.(refresh := true));
    forall k | 0 <= k < |StepOrder| && k != 5
      ensures lo[k] == hi[k]
    {
      StepIgnoresRefresh(t, StepOrder[k]);
    }
    assert lo[..5] == hi[..5];
    assert lo[6..] == hi[6..];
  }

  /** The migration step up to the migrate command. */
  function MigrationFront(phpCli: string): string {
    "\n" + Line("// run migrations") + Indent + "exec('" + phpCli + " artisan migrate"
  }

  /** The migration step after the optional suffix. */
  const MigrationBack := " --force', $debug);" + "\n"

  /** With and without refresh, the migration step differs by the inserted suffix alone. */
  lemma MigrationStepSplit(t: Template)
    ensures StepText(t.(refresh := false), Migrate) == MigrationFront(t.phpCli) + MigrationBack
    ensures StepText(t.(refresh := true), Migrate) == MigrationFront(t.phpCli) + RefreshSuffix + MigrationBack
  {
  }

  /**
   * The script holds, inside its custom-command step, the block of statements for the
   * configured remote commands; that block reads back as exactly those commands, in order,
   * whenever the escape reads each of them back (for the source's escape: whenever no
   * command contains a backslash).
   */
  lemma ScriptRunsCustomCommands(t: Template)
    ensures Contains(DeploymentCode(t), Concat(RemoteCommands(t.escape, t.remote)))
    ensures AllReadBack(t.escape, t.remote) ==> ParseExecs(Concat(RemoteCommands(t.escape, t.remote))) == Some(t.remote)
  {
    var block := Concat(RemoteCommands(t.escape, t.remote));
    var text := CustomStepAt(t);
    SliceOfPiece(DeploymentCode(t), StepOffset(t, 6), text, CustomHead, block, "\n");
    if AllReadBack(t.escape, t.remote) {
      RemoteCommandsRoundTrip(t.escape, t.remote);
    }
  }

  /** The custom-command step's text, and where it stands in the script. */
  function CustomStepAt(t: Template): (text: string)
    ensures var code := DeploymentCode(t);
            StepOffset(t, 6) + |text| <= |code| && code[StepOffset(t, 6)..StepOffset(t, 6) + |text|] == text
    ensures text == CustomHead + Concat(RemoteCommands(t.escape, t.remote)) + "\n"
    ensures text == StepTexts(t)[6]
  {
    assert StepOrder[6] == RunCustom;
    StepAt(t, 6);
    StepText(t, RunCustom)
  }

  /** Without backslashes in the commands, the script as written is the corrected script. */
  lemma ScriptsAgreeWithoutBackslash(t: Template)
    requires AllReadBack(QuotesOnly, t.remote)
    ensures DeploymentCode(t.(escape := QuotesOnly)) == DeploymentCode(t.(escape := QuotesAndBackslashes))
  {
    RemoteCommandsAgreeWithoutBackslash(t.remote);
    var lo, hi := t.(escape := QuotesOnly), t.(escape := QuotesAndBackslashes);
    assert StepText(lo, RunCustom) == StepText(hi, RunCustom);
    assert StepTexts(lo) == StepTexts(hi);
  }

  /**
   * The text a custom command ending in a backslash swallows in the script as written: the
   * rest of its own line and the next step up to the quote that opens `exec('rm -rf …`.
   */
  const SwallowedText := ExecClose + "\n" + RemovalFront

  /**
   * In the script as written, the literal of a custom command `p\` does not close where its
   * statement ends: it runs on to the quote of the archive-removal statement, so the text
   * PHP reads as the command also holds the rest of the line and the next step, and what
   * follows that quote is not `, $debug);`: the statement does not parse. (`code` is the
   * script and `o` the place of the custom-command step in it.)
   */
  lemma TrailingBackslashRunsIntoNextStep(t: Template, p: string, c: string, code: string, o: nat)
    requires c == p + "\\" && t.escape == QuotesOnly && t.remote == [c]
    requires Plain(p)
    requires code == DeploymentCode(t) && o == StepOffset(t, 6)
    ensures ReadingAt(code, o + |CustomHead|, RemoteCommand(QuotesOnly, c))
            == Misread(Some(p + "'" + SwallowedText))
  {
    var after := SingleCommandLayout(t, c);
    BackslashReading(code, o, p, c, after);
  }

  /** The same, for any text laid out as the steps around a single custom command are. */
  lemma BackslashReading(code: string, o: nat, p: string, c: string, after: string)
    requires c == p + "\\" && Plain(p)
    requires o <= |code|
    requires code[o..] == CustomHead + (RemoteCommand(QuotesOnly, c) + "\n")
                          + (RemovalFront + ("'" + RemovalRest)) + after
    ensures ReadingAt(code, o + |CustomHead|, RemoteCommand(QuotesOnly, c))
            == Misread(Some(p + "'" + SwallowedText))
  {
    var stmt := RemoteCommand(QuotesOnly, c);
    var removal := RemovalFront + ("'" + RemovalRest);
    BackslashStatementText(p, stmt, removal);
    SwallowedTextIsPlain();
    RestNotClosing(after);
    StatementRunsOn(code, o, CustomHead, stmt, "\n", removal, after, p, SwallowedText, RemovalRest);
  }

  /** How PHP reads a statement that stands at some place in a script. */
  datatype Reading =
    | Runs(cmd: string, rest: string)   // one `exec` call of `cmd`, then `rest`
    | Misread(denoted: Option<string>)  // no `exec` call; what the literal denotes, if it closes
    | NotThere                          // the statement does not stand there

  /** How PHP reads `stmt` where it stands in `code`, at `i`. */
  function ReadingAt(code: string, i: nat, stmt: string): Reading {
    if i + |stmt| <= |code| && code[i..i + |stmt|] == stmt then
      match ParseExec(code[i..])
      case Some((cmd, rest)) => Runs(cmd, rest)
      case None => Misread(if i + |ExecOpen| <= |code| then Denoted(code[i + |ExecOpen|..]) else None)
    else NotThere
  }

  /** The string a literal body denotes, if the literal closes. */
  function Denoted(t: string): Option<string> {
    match ReadQuoted(t)
    case None => None
    case Some((body, _)) => Some(body)
  }

  /**
   * Behind a head, a statement whose literal holds `p`, an escaped quote and the plain
   * text `sw` before the next quote: PHP misreads it, and its literal denotes `p'sw`.
   */
  lemma StatementRunsOn(code: string, o: nat, head: string, stmt: string, n: string, removal: string,
                        after: string, p: string, sw: string, rr: string)
    requires o <= |code| && code[o..] == head + (stmt + n) + removal + after
    requires stmt + n + removal == ExecOpen + (p + (['\\', '\''] + (sw + ("'" + rr))))
    requires Plain(p) && Plain(sw)
    requires |rr + after| >= |ExecClose| && (rr + after)[0] != ExecClose[0]
    ensures ReadingAt(code, o + |head|, stmt) == Misread(Some(p + "'" + sw))
  {
    SliceAfterHead(code, o, head, stmt, n, removal, after, ExecOpen, p, ['\\', '\''], sw, "'", rr);
    var r := rr + after;
    var lit := p + (['\\', '\''] + (sw + ("'" + r)));
    EscapedQuoteRunsOn(p, sw, r);
    ClosedTooEarly(lit, p + ("'" + sw), r);
    Assoc(p, "'", sw);
  }

  /** The swallowed text has no quote and no backslash, so a literal reads straight through it. */
  lemma SwallowedTextIsPlain()
    ensures '\'' !in SwallowedText && '\\' !in SwallowedText
  {
    var comment := "// delete archive & self";
    assert Plain(ExecClose) && Plain("\n") && Plain(Indent) && Plain(comment) && Plain("exec(");
    PlainJoin(Indent, comment);
    PlainJoin(Indent + comment, "\n");
    PlainJoin("\n", Line(comment));
    PlainJoin("\n" + Line(comment), Indent);
    PlainJoin("\n" + Line(comment) + Indent, "exec(");
    PlainJoin(ExecClose, "\n");
    PlainJoin(ExecClose + "\n", RemovalFront);
  }

  /** What follows the quote in the archive-removal step is not the end of a statement. */
  lemma RestNotClosing(after: string)
    ensures |RemovalRest + after| >= |ExecClose| && (RemovalRest + after)[0] != ExecClose[0]
  {
    assert (RemovalRest + after)[0] == RemovalRest[0] == 'r';
  }

  /**
   * For a template with one remote command, the script from the custom-command step on:
   * the head, the statement and its line break, the archive-removal step, then the result.
   */
  function SingleCommandLayout(t: Template, c: string): (after: string)
    requires t.remote == [c]
    ensures var code := DeploymentCode(t);
            StepOffset(t, 6) <= |code|
            && code[StepOffset(t, 6)..]
               == CustomHead + (RemoteCommand(t.escape, c) + "\n") + (RemovalFront + ("'" + RemovalRest)) + after
  {
    var x, y := CustomStepAt(t), RemovalStepAt(t);
    SingleCommandStep(t, c);
    CustomThenRemoval(t)
  }

  /** The custom-command step of a template with one remote command. */
  lemma SingleCommandStep(t: Template, c: string)
    requires t.remote == [c]
    ensures CustomStepAt(t) == CustomHead + (RemoteCommand(t.escape, c) + "\n")
  {
    var stmt := RemoteCommand(t.escape, c);
    assert RemoteCommands(t.escape, [c]) == [stmt];
    assert Concat([stmt]) == stmt + Concat([]);
  }

  /**
   * Behind a head, a statement whose text with what follows it regroups as an opening,
   * `p`, `q`, the swallowed text, a quote and the rest: the slices StatementRunsOn reads.
   */
  lemma SliceAfterHead(code: string, o: nat, head: string, stmt: string, n: string, removal: string,
                       after: string, e: string, p: string, q: string, sw: string, k: string, rr: string)
    requires o <= |code| && code[o..] == head + (stmt + n) + removal + after
    requires stmt + n + removal == e + (p + (q + (sw + (k + rr))))
    ensures var i := o + |head|;
            i + |stmt| <= |code| && code[i..i + |stmt|] == stmt
            && code[i..] == e + (p + (q + (sw + (k + (rr + after)))))
            && i + |e| <= |code| && code[i + |e|..] == p + (q + (sw + (k + (rr + after))))
  {
    var i := o + |head|;
    assert code[i..] == code[o..][|head|..];
    assert code[o..][|head|..] == stmt + n + removal + after;
    assert code[i..i + |stmt|] == code[i..][..|stmt|];
    assert code[i + |e|..] == code[i..][|e|..];
  }

  /** The archive-removal step's text, cut at the quote that opens its `exec('rm -rf …`. */
  function RemovalStepAt(t: Template): (text: string)
    ensures text == StepTexts(t)[7]
    ensures text == RemovalFront + ("'" + RemovalRest)
  {
    assert StepOrder[7] == RemoveArchive;
    StepText(t, RemoveArchive)
  }

  /**
   * The custom-command step and the archive-removal step stand side by side in the
   * script; the result is what comes after both.
   */
  function CustomThenRemoval(t: Template): (after: string)
    ensures var code := DeploymentCode(t);
            StepOffset(t, 6) <= |code|
            && code[StepOffset(t, 6)..] == CustomStepAt(t) + RemovalStepAt(t) + after
  {
    var code, x, y := DeploymentCode(t), CustomStepAt(t), RemovalStepAt(t);
    TwoPiecesAt(code, Prelude, StepTexts(t), 6, StepOffset(t, 6), x, y);
    code[StepOffset(t, 6) + |x| + |y|..]
  }

  /**
   * The statement for `p\`, a line break and the archive-removal step: the opening of the
   * statement, `p`, an escaped quote, the swallowed text, then a quote and the rest.
   */
  lemma BackslashStatementText(p: string, stmt: string, removal: string)
    requires '\'' !in p && '\\' !in p
    requires stmt == RemoteCommand(QuotesOnly, p + "\\") && removal == RemovalFront + ("'" + RemovalRest)
    ensures stmt + "\n" + removal == ExecOpen + (p + (['\\', '\''] + (SwallowedText + ("'" + RemovalRest))))
  {
    BackslashStatement(p);
    Regroup7(stmt, "\n", removal, ExecOpen, p, ['\\', '\''], ExecClose, RemovalFront, "'", RemovalRest, SwallowedText);
  }

  /** The statement for `p\` as written: `p`, then a backslash and a quote, then `, $debug);`. */
  lemma BackslashStatement(p: string)
    requires '\'' !in p && '\\' !in p
    ensures RemoteCommand(QuotesOnly, p + "\\") == ExecOpen + (p + ['\\', '\''] + ExecClose)
  {
    assert '\'' !in p + "\\";
    EscapeQuotesIdentity(p + "\\");
    ExecStatementShape(p + "\\");
    assert p + "\\" + "'" == p + ['\\', '\''];
  }

  /** The grouping BackslashStatementText needs, over plain variables. */
  lemma Regroup7(s: string, n: string, removal: string, e: string, p: string, q: string, c: string,
                 f: string, k: string, r: string, sw: string)
    requires s == e + (p + q + c) && removal == f + (k + r) && sw == c + n + f
    ensures s + n + removal == e + (p + (q + (sw + (k + r))))
  {
  }

  /** The middle of a piece of a text occurs in the text. */
  lemma SliceOfPiece(code: string, o: nat, text: string, head: string, block: string, tail: string)
    requires o + |text| <= |code| && code[o..o + |text|] == text
    requires text == head + block + tail
    ensures Contains(code, block)
  {
    var i := o + |head|;
    forall k | 0 <= k < |block|
      ensures code[i..i + |block|][k] == block[k]
    {
      assert code[i + k] == code[o..o + |text|][|head| + k];
      assert text[|head| + k] == block[k];
    }
    assert code[i..i + |block|] == block;
    assert OccursAt(code, block, i);
  }
}
