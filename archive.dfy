/**
 * The release archive: its fixed name and the shell command lines that build it
 * (`createTarArchive`). The commands themselves run outside the model; what is
 * proved is which words the shell is handed.
 */
module Archive {
  import opened Text

  /** The archive's fixed file name (`ARCHIVE_NAME`). */
  const ArchiveName := "deploy.tar"

  /** One `--exclude=v` flag per exclude pattern, in order. */
  function ExcludeFlags(excludes: seq<string>): (r: seq<string>)
    ensures |r| == |excludes|
    ensures forall i :: 0 <= i < |excludes| ==> r[i] == "--exclude=" + excludes[i]
  {
    if excludes == [] then [] else ["--exclude=" + excludes[0]] + ExcludeFlags(excludes[1..])
  }

  /**
   * The exclude part of the tar command. `None` stands for a configured `excludes`
   * value that is not an array, for which the part stays empty.
   */
  function ExcludePart(excludes: Option<seq<string>>): string {
    match excludes
    case None => ""
    case Some(vs) => Join(" ", ExcludeFlags(vs))
  }

  /** `tar -czf deploy.tar <includes> <excludes>`, built as the source concatenates it. */
  function TarCommand(includes: seq<string>, excludes: Option<seq<string>>): string {
    "tar -czf " + ArchiveName + " " + Join(" ", includes) + " " + ExcludePart(excludes)
  }

  /** `mv deploy.tar <storage>/app`: moves the fresh archive into the local staging directory. */
  function MoveCommand(stagingDir: string): string {
    "mv " + ArchiveName + " " + stagingDir
  }

  /** The arguments the exclude part contributes. */
  function ExcludeArgs(excludes: Option<seq<string>>): seq<string> {
    match excludes
    case None => []
    case Some(vs) => ExcludeFlags(vs)
  }

  /** A non-empty text without spaces: one shell word. */
  predicate IsWord(w: string) {
    w != "" && ' ' !in w
  }

  /** Every entry of `ws` is one shell word. */
  predicate AllWords(ws: seq<string>) {
    forall i :: 0 <= i < |ws| ==> IsWord(ws[i])
  }

  /** The length of the run of non-space characters at the front of `s`. */
  function WordLength(s: string): (n: nat)
    ensures n <= |s|
    ensures ' ' !in s[..n]
    ensures n < |s| ==> s[n] == ' '
  {
    if s == [] || s[0] == ' ' then 0
    else
      var n := 1 + WordLength(s[1..]);
      assert s[..n] == [s[0]] + s[1..][..n - 1];
      n
  }

  /** The words of a command line separated by spaces, as a shell splits a line without quotes. */
  function Words(s: string): seq<string>
    decreases |s|
  {
    if s == [] then []
    else if s[0] == ' ' then Words(s[1..])
    else [s[..WordLength(s)]] + Words(s[WordLength(s)..])
  }

  /** A space after `a` ends the first word no later than `a` does. */
  lemma {:induction false} WordLengthBeforeSpace(a: string, b: string)
    ensures WordLength(a + " " + b) == WordLength(a)
  {
    if a != [] && a[0] != ' ' {
      assert (a + " " + b)[1..] == a[1..] + " " + b;
      WordLengthBeforeSpace(a[1..], b);
    }
  }

  /** Splitting distributes over a space. */
  lemma {:induction false} WordsOfSpaced(a: string, b: string)
    ensures Words(a + " " + b) == Words(a) + Words(b)
    decreases |a|
  {
    var s := a + " " + b;
    if a == [] {
      assert s[1..] == b;
    } else if a[0] == ' ' {
      assert s[1..] == a[1..] + " " + b;
      WordsOfSpaced(a[1..], b);
    } else {
      var n := WordLength(a);
      WordLengthBeforeSpace(a, b);
      assert s[..n] == a[..n];
      assert s[n..] == a[n..] + " " + b;
      WordsOfSpaced(a[n..], b);
    }
  }

  /** A single word splits into itself. */
  lemma WordsOfWord(w: string)
    requires IsWord(w)
    ensures Words(w) == [w]
  {
    var n := WordLength(w);
    assert w[..n] == w;
    assert w[n..] == [];
  }

  /** A word followed by a space splits off as that word. */
  lemma WordThen(w: string, x: string)
    requires IsWord(w)
    ensures Words(w + " " + x) == [w] + Words(x)
  {
    WordsOfWord(w);
    WordsOfSpaced(w, x);
  }

  /** The literal front of the tar command, cut at its spaces. */
  lemma TarFlagsSplit()
    ensures "tar -czf " == "tar" + " " + "-czf" + " "
  {
  }

  /** Regrouping the front of the tar command so that each word is followed by the rest. */
  lemma SpacedFront(p: string, a: string, b: string, c: string, x: string)
    requires p == a + " " + b + " "
    ensures p + c + " " + x == a + " " + (b + " " + (c + " " + x))
  {
  }

  /** The fixed front of the tar command splits into the command, its flag and the archive name. */
  lemma TarPrefixWords(x: string)
    ensures Words("tar -czf " + ArchiveName + " " + x) == ["tar", "-czf", ArchiveName] + Words(x)
  {
    var t3 := ArchiveName + " " + x;
    var t2 := "-czf" + " " + t3;
    WordThen(ArchiveName, x);
    WordThen("-czf", t3);
    WordThen("tar", t2);
    TarFlagsSplit();
    SpacedFront("tar -czf ", "tar", "-czf", ArchiveName, x);
  }

  /** Joining words with single spaces and splitting again gives the words back. */
  lemma {:induction false} WordsOfJoin(ws: seq<string>)
    requires AllWords(ws)
    ensures Words(Join(" ", ws)) == ws
  {
    if ws == [] {
    } else if |ws| == 1 {
      WordsOfWord(ws[0]);
    } else {
      WordsOfWord(ws[0]);
      WordsOfJoin(ws[1..]);
      WordsOfSpaced(ws[0], Join(" ", ws[1..]));
    }
  }

  /**
   * When every include and exclude is a single word, the shell runs tar with exactly:
   * the create flags, the archive name, every include in order, then one exclude flag
   * per pattern in order (none when `excludes` is not a list).
   */
  lemma TarCommandWords(includes: seq<string>, excludes: Option<seq<string>>)
    requires AllWords(includes)
    requires excludes.Some? ==> AllWords(excludes.value)
    ensures Words(TarCommand(includes, excludes)) == ["tar", "-czf", ArchiveName] + includes + ExcludeArgs(excludes)
  {
    var inc := Join(" ", includes);
    var exc := ExcludePart(excludes);
    WordsOfJoin(includes);
    match excludes {
      case None =>
        assert Words(exc) == [];
      case Some(vs) =>
        assert AllWords(ExcludeFlags(vs));
        WordsOfJoin(ExcludeFlags(vs));
    }
    assert Words(exc) == ExcludeArgs(excludes);
    WordsOfSpaced(inc, exc);
    assert TarCommand(includes, excludes) == "tar -czf " + ArchiveName + " " + (inc + " " + exc);
    TarPrefixWords(inc + " " + exc);
  }
}
