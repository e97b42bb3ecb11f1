# deploy:server, modelled in Dafny

`deploy:server <server>` is a Laravel console command that releases a project to a server
reachable only through a storage disk (FTP, in practice). It runs six stages in a fixed order:

1. run the configured local `before` commands;
2. build `deploy.tar` with `tar` from the configured includes and excludes, and move it into
   `storage/app`;
3. put the archive and a generated PHP bootstrap script, `public/deploy.php`, on the disk;
4. request the script over HTTP and relay its log when `--debug` is truthy, then delete the
   script from the disk;
5. put the server's configured extra uploads;
6. delete the local archive.

The bootstrap script unpacks the archive on the server. It purges the old release, except
the configured purge exclusions, runs the migrations (with `:refresh --seed` when `--refresh`
is truthy) and runs the configured remote commands. Finally it deletes the archive and prints
its own log as JSON.

The model has five modules:

- `Text`: PHP string notions. This covers truthiness (`""` and `"0"` are false), `implode`
  and substring search.
- `Escaping`: how a command is embedded in a PHP single-quoted literal, and a reader for such
  literals that follows PHP's own rules (`\'` and `\\` are escapes, nothing else is). The
  command escapes only single quotes (`QuotesOnly`). `QuotesAndBackslashes` is the corrected
  escape, described in the findings at the end.
- `Archive`: the `tar` and `mv` command lines, and the words a shell splits them into.
- `Bootstrap`: the bootstrap script as text, generated from a template of nine steps in a
  fixed order. The template records which escape the custom commands get. The command's
  script uses the source's escape; the same template with the corrected escape gives the
  corrected script.
- `Orchestrator`: the command itself. It is a class `DeployServerCommand` whose fields are the
  local filesystem and the disk (maps from path to content) and a trace of observable events:
  console lines, stage headings, local commands, the HTTP request, and writes and deletions.
  Each stage is a method proved equal to a state function. Whole-run lemmas over those functions
  state what the source promises.

The unpacked content of the archive (`built`) and the log lines the remote script answers
with (`logs`) are parameters of `Handle`. Shell commands and the HTTP request only append an
event to the trace.

## Where the documented design and the code differ

The model follows the code:

- Purge exclusions come from the global configuration key only (line 105). A per-server list
  of purge exclusions is never read.
- No stage checks a result itself. The one failure the model keeps is a missing local
  upload source: reading it throws, which ends the command before clean-up. Other failures
  end the command through an exception thrown by a library call, not through a check in
  the code. A request that cannot connect or is answered with a 4xx or 5xx status throws
  in `get` (line 164), so `handle` stops before the script is deleted (line 175). A `tar` or
  `mv` that leaves no archive in `storage/app` makes reading it back (line 188) throw,
  since `createArchive` has already deleted the old one. Both are listed under "## Left
  out". An empty include list is passed to `tar` unchecked.
- `uploadFiles` reads the archive back from `storage/app/deploy.tar`. The model requires it to
  be there, and `createArchive` always puts it there.

## Model

| member | source | states |
|---|---|---|
| Escaping.EscapeQuotes | src/Ebess/Console/DeployServerCommand.php:273 | the source's escape, `str_replace("'", "\\'", …)`: each single quote becomes backslash and quote, and every other character, a backslash included, is kept |
| Escaping.Escaped | src/Ebess/Console/DeployServerCommand.php:273 | the escape a template names: the source's quote-only escape, or the corrected one |
| Escaping.EscapedRoundTrip | src/Ebess/Console/DeployServerCommand.php:273 | whichever escape is chosen, a command it reads back (any command for the corrected escape, a backslash-free one for the source's) reads back exactly from its literal, and the literal ends at the intended quote |
| Escaping.EscapeQuotesLength | src/Ebess/Console/DeployServerCommand.php:273 | the quote escape adds exactly one character per single quote |
| Escaping.EscapeQuotesIdentity | src/Ebess/Console/DeployServerCommand.php:273 | a command without single quotes is embedded unchanged |
| Escaping.EscapeQuotesRoundTrip | src/Ebess/Console/DeployServerCommand.php:273 | for a command without backslashes, PHP reads the escaped literal back as exactly the command, and the literal ends at the intended closing quote whatever follows |
| Escaping.EscapeLiteralRoundTrip | src/Ebess/Console/DeployServerCommand.php:273 | with backslashes escaped too, every command reads back exactly from its literal, whatever follows |
| Escaping.EscapesAgreeWithoutBackslash | src/Ebess/Console/DeployServerCommand.php:273 | on commands without backslashes the corrected escape and the source's escape give the same text |
| Escaping.UnterminatedWithoutQuote | src/Ebess/Console/DeployServerCommand.php:273 | text with no single quote never closes a literal |
| Bootstrap.RemoteCommand | src/Ebess/Console/DeployServerCommand.php:273 | one `exec('…', $debug);` statement around the escaped command; with `QuotesOnly` it is the source's statement |
| Bootstrap.RemoteCommands | src/Ebess/Console/DeployServerCommand.php:272-274 | one statement per configured remote command, same count and same order, under the chosen escape |
| Bootstrap.RemoteCommandParses | src/Ebess/Console/DeployServerCommand.php:273 | a statement whose command the escape reads back, followed by anything, parses as one `exec` call of exactly that command, and the parse resumes right after it |
| Bootstrap.RemoteCommandsRoundTrip | src/Ebess/Console/DeployServerCommand.php:272-274 | when every command reads back under the chosen escape (for the source's, none holds a backslash), the concatenated statements parse back into exactly the configured commands: count, order and text |
| Bootstrap.CorrectedRemoteCommandsRoundTrip | src/Ebess/Console/DeployServerCommand.php:272-274 | with the corrected escape the concatenated statements parse back into exactly the configured commands, for every list of commands |
| Bootstrap.RemoteCommandsAgreeWithoutBackslash | src/Ebess/Console/DeployServerCommand.php:272-274 | when no command holds a backslash, the source's statements and the corrected ones are the same text |
| Bootstrap.TrailingBackslashBreaksLiteral | src/Ebess/Console/DeployServerCommand.php:273 | as written, a command `p\` (p without quotes or backslashes) gives a statement that does not parse as an `exec` call on its own |
| Bootstrap.EchoBackslashBreaksLiteral | src/Ebess/Console/DeployServerCommand.php:273 | the concrete command `echo \` already breaks its statement |
| Bootstrap.TrailingBackslashBreaksBlock | src/Ebess/Console/DeployServerCommand.php:272-274 | as written, the custom-command block for the single command `p\` does not parse back into that command |
| Bootstrap.TrailingBackslashRunsIntoNextStep | src/Ebess/Console/DeployServerCommand.php:315-319 | in the script as written, the literal of the single command `p\` closes only at the quote that opens `exec('rm -rf …` of the next step: it denotes `p'` followed by the rest of its line and the start of that step, and the statement does not parse |
| Bootstrap.PurgePatterns | src/Ebess/Console/DeployServerCommand.php:284-286 | one `/p$` alternative per purge exclusion, in order |
| Bootstrap.PurgeFragment | src/Ebess/Console/DeployServerCommand.php:284-290 | `$excludeFromPurge`: the `/p$` alternatives joined with bars, with one more bar in front unless the join is empty |
| Bootstrap.PurgeFragmentAlternatives | src/Ebess/Console/DeployServerCommand.php:284-290 | the purge fragment is empty exactly when there are no exclusions, and otherwise holds, for each exclusion in order, a bar followed by `/p$` |
| Bootstrap.MigrationLine | src/Ebess/Console/DeployServerCommand.php:313 | the migration statement: the configured PHP binary running `artisan migrate`, with `:refresh --seed` when refresh is on, then `--force` |
| Bootstrap.MigrationRefreshIff | src/Ebess/Console/DeployServerCommand.php:313 | the migration statement contains `:refresh --seed` if and only if refresh is requested (for a PHP path that does not itself contain it) |
| Bootstrap.MigrationStepSplit | src/Ebess/Console/DeployServerCommand.php:312-313 | with and without refresh, the migration step differs only by the inserted suffix |
| Bootstrap.DeploymentCode | src/Ebess/Console/DeployServerCommand.php:282-323 | the whole script: the opening tag and variables, then the nine step texts in the fixed order |
| Bootstrap.StepAt | src/Ebess/Console/DeployServerCommand.php:292-323 | each step's text stands in the script at its offset, each step starts where the previous one ends, and the last one ends the script |
| Bootstrap.StepsInOrder | src/Ebess/Console/DeployServerCommand.php:299-322 | the steps appear in the fixed order: purge, change dir, unpack, migrate, custom commands, delete archive, output |
| Bootstrap.StepIgnoresRefresh | src/Ebess/Console/DeployServerCommand.php:292-323 | every step other than the migration ignores the refresh option |
| Bootstrap.RefreshInsertsOnlySuffix | src/Ebess/Console/DeployServerCommand.php:313 | the script with refresh is the script without it, with `:refresh --seed` inserted at one place and nothing else changed |
| Bootstrap.ScriptRunsCustomCommands | src/Ebess/Console/DeployServerCommand.php:315-316 | the script, as written or corrected, contains the block of custom-command statements; when every command reads back under the script's escape (for the source's, none holds a backslash), that block parses back into exactly the configured remote commands |
| Bootstrap.ScriptsAgreeWithoutBackslash | src/Ebess/Console/DeployServerCommand.php:282-323 | when no remote command holds a backslash, the script as written and the corrected script are the same text |
| Archive.TarCommand | src/Ebess/Console/DeployServerCommand.php:249-259 | `tar -czf deploy.tar`, the includes joined with spaces, then the exclude part, each separated by one space as the source concatenates them |
| Archive.MoveCommand | src/Ebess/Console/DeployServerCommand.php:260 | `mv deploy.tar` followed by the local staging directory |
| Archive.ExcludeFlags | src/Ebess/Console/DeployServerCommand.php:253-255 | one `--exclude=v` flag per exclude pattern, in order |
| Archive.WordsOfJoin | src/Ebess/Console/DeployServerCommand.php:249 | space-free words joined with spaces split back into the same words |
| Archive.TarCommandWords | src/Ebess/Console/DeployServerCommand.php:249-259 | when includes and excludes are single words, tar receives `-czf deploy.tar`, then every include in order, then one exclude flag per pattern in order (no flags when `excludes` is not a list) |
| Orchestrator.DeployUrl | src/Ebess/Console/DeployServerCommand.php:164 | the request URL: the configured deploy URL, `/deploy.php`, then `?archive=deploy.tar` |
| Orchestrator.ScriptTemplate | src/Ebess/Console/DeployServerCommand.php:282-323 | the script is generated from the server's PHP binary, the truthiness of `--refresh`, the global remote commands and purge exclusions, and the source's quote-only escape |
| Orchestrator.ReleaseFiles | src/Ebess/Console/DeployServerCommand.php:187-190 | the two files `uploadFiles` puts: the archive read back from `storage/app`, then the script as written under `public/` |
| Orchestrator.HandleState | src/Ebess/Console/DeployServerCommand.php:114-138 | `handle` on states: the banner, then the five stages up to the extra uploads, which stop at the first missing source; clean-up and the closing lines follow only when every upload source exists |
| Orchestrator.Dashes | src/Ebess/Console/DeployServerCommand.php:120 | a rule of n dashes has length n and holds only dashes; the banner rule has 72 |
| Orchestrator.CommandEventsShape | src/Ebess/Console/DeployServerCommand.php:147-150 | each `before` command is echoed as `- <command>` and then run, in configured order, and nothing else happens |
| Orchestrator.LogEventsShape | src/Ebess/Console/DeployServerCommand.php:168-170 | each log entry becomes exactly one console line `\t- <entry>`, in order |
| Orchestrator.DeployServerCommand.constructor | src/Ebess/Console/DeployServerCommand.php:86-93 | the command starts over the given stores and resolved setup, with nothing done |
| Orchestrator.DeployServerCommand.Info | src/Ebess/Console/DeployServerCommand.php:121 | printing a console line adds that line to the trace and changes neither store |
| Orchestrator.DeployServerCommand.Announce | src/Ebess/Console/DeployServerCommand.php:145 | printing a stage heading adds it to the trace and changes neither store |
| Orchestrator.DeployServerCommand.Banner | src/Ebess/Console/DeployServerCommand.php:120-125 | the six banner lines are printed in order and nothing else changes |
| Orchestrator.DeployServerCommand.Footer | src/Ebess/Console/DeployServerCommand.php:134-137 | the four closing lines are printed in order and nothing else changes |
| Orchestrator.DeployServerCommand.Handle | src/Ebess/Console/DeployServerCommand.php:114-138 | the stores, trace and outcome after the command equal HandleState: banner, six stages, closing lines; a missing upload source ends it before clean-up |
| Orchestrator.DeployServerCommand.RunBefore | src/Ebess/Console/DeployServerCommand.php:143-153 | the heading, then each `before` command echoed and run in order; both stores unchanged |
| Orchestrator.DeployServerCommand.CreateArchive | src/Ebess/Console/DeployServerCommand.php:227-240 | an existing archive is deleted first (and only then), then the new archive is built and moved; nothing else changes |
| Orchestrator.DeployServerCommand.CreateTarArchive | src/Ebess/Console/DeployServerCommand.php:247-263 | the tar and mv commands run in that order and leave the built archive in `storage/app` |
| Orchestrator.DeployServerCommand.UploadFiles | src/Ebess/Console/DeployServerCommand.php:183-198 | the local archive, then the script as the source generates it (quote-only escape), are put on the disk in that order; the local store is unchanged |
| Orchestrator.DeployServerCommand.RunDeploymentScript | src/Ebess/Console/DeployServerCommand.php:158-178 | the script is requested, its log is relayed exactly when `--debug` is truthy, and the script is deleted from the disk |
| Orchestrator.DeployServerCommand.UploadSpecificFiles | src/Ebess/Console/DeployServerCommand.php:214-221 | the configured uploads are put in order up to the first missing local source, whose path is the outcome |
| Orchestrator.DeployServerCommand.CleanUpAfter | src/Ebess/Console/DeployServerCommand.php:203-209 | the heading is printed and the local archive deleted, nothing else |
| Orchestrator.UploadRunOutcome | src/Ebess/Console/DeployServerCommand.php:218-220 | the uploads complete if and only if every source exists; otherwise they stop at the first missing source, after putting every earlier upload, in order |
| Orchestrator.UploadRunFrame | src/Ebess/Console/DeployServerCommand.php:218-220 | a disk key no upload writes keeps its presence and content |
| Orchestrator.UploadRunLastWrite | src/Ebess/Console/DeployServerCommand.php:218-220 | when every source exists, a key holds the content of the last upload to it |
| Orchestrator.HandleAdded | src/Ebess/Console/DeployServerCommand.php:114-138 | a run only appends to the trace, and what it appends is HandleEvents |
| Orchestrator.HandleStageOrder | src/Ebess/Console/DeployServerCommand.php:127-132 | the stage headings appear once each in the fixed order; the clean-up heading appears if and only if the run completed |
| Orchestrator.HandleCommands | src/Ebess/Console/DeployServerCommand.php:127-128 | the local shell runs the `before` commands in order, then tar, then mv, and nothing else |
| Orchestrator.HandleLogLines | src/Ebess/Console/DeployServerCommand.php:166-170 | the relayed log lines of a run are exactly the script's log entries, in order, when `--debug` is truthy, and none otherwise |
| Orchestrator.HandleRemoteOps | src/Ebess/Console/DeployServerCommand.php:127-132 | the disk and HTTP operations are, in order: put archive, put script, request the script URL, delete the script, then one put per configured upload (all of them when the run completes) |
| Orchestrator.HandleLocalArchive | src/Ebess/Console/DeployServerCommand.php:232-234 | an old archive is deleted before the build and the new one at clean-up, and no other local file changes; no archive is left after a complete run, and the new one is left after a stopped run |
| Orchestrator.HandleDisk | src/Ebess/Console/DeployServerCommand.php:187-195 | as far as the command's own disk operations go (the script run on the server purges files and removes the archive, lines 300-304 and 319, which is not tracked): the run completes exactly when every upload source exists; the archive holds the built content and the script is gone unless an upload overwrites them; untouched keys keep their content; after a complete run each destination holds its last upload |
| Orchestrator.UploadsOver | src/Ebess/Console/DeployServerCommand.php:214-221 | the disk facts of HandleDisk, for any disk that the release files were put on and the script deleted from |

## Left out

- Local command execution: `exec` is an event in the trace. The commands' effects and exit
  statuses are not modelled, and neither is the shell running the script's pipelines (`ls`,
  `egrep`, `xargs rm -rf`, `tar -xf`, migrations) on the server.
- What the archive contains: `tar` and `mv` are events, and the content they leave at
  `storage/app/deploy.tar` is the parameter `built`. The temporary `deploy.tar` in the working
  directory is not modelled, and neither is a failure of `tar` or `mv`.
- Orchestrator.DeployServerCommand.UploadFiles: requires the archive to be in `storage/app`,
  which holds when `tar` and `mv` worked (`CreateArchive` always leaves it there). When they
  leave none, the source's read at line 188 throws; that exception is not modelled.
- The HTTP client and the JSON decoding: the request is an event, and the decoded log is the
  parameter `logs`. The model assumes the request succeeds and its answer decodes to a list.
  A connection failure or a 4xx or 5xx answer makes Guzzle's `get` (line 164) throw, which
  ends `handle` before the script is deleted from the disk (line 175); that path is not
  modelled, and neither is an answer that does not decode to a list. The script's effects
  on the disk (the purge, the unpacking, the script deleting the archive) are not tracked.
- Configuration lookup: the constructor takes the already resolved `setup` values. Looking up
  the server entry by its name and the disk by its `disk` name is not modelled.
- Paths on the disk: `DiskKey` only strips a leading `/`, which is the one normalisation these
  paths need. Other normalisation the storage library may apply is not modelled.
- Excludes that are not an array leave the exclude part empty. They are `None`; their actual
  value is not kept.
- Uploads are a sequence of (source, destination) pairs in configured order. A PHP associative
  array cannot repeat a source key; the sequence can, which only widens the model.
- Bootstrap.MigrationRefreshIff: requires that the configured PHP path does not itself contain
  `:refresh --seed`. Otherwise the statement contains it whatever the option.
- Archive.TarCommandWords: states the words tar receives only when every include and exclude
  is itself a single space-free word. Other entries are split by the shell in ways not stated.
- Stage headings: in the trace they are `Announce(stage)` events, not console text.
  `HeadingText` gives the line each prints, including the source's spelling
  "run commands before deloyment.".

## Findings

| source | as written | input that shows it | evidently intended | confidence | as-written member | corrected member |
|---|---|---|---|---|---|---|
| src/Ebess/Console/DeployServerCommand.php:273 | each remote command is embedded in a single-quoted PHP literal, and only its single quotes are escaped | the single remote command `p\` (for instance `echo \`): the trailing backslash and the closing quote form `\'`, so the literal runs on and closes at the quote that opens `exec('rm -rf $PWD/'` of the next step (line 319); the text after that quote is not `, $debug);`, so the generated script does not parse | escape backslashes as well as quotes, so that every command reads back exactly | not executed | Bootstrap.TrailingBackslashRunsIntoNextStep | Bootstrap.CorrectedRemoteCommandsRoundTrip |

The command's script, which `UploadFiles` puts on the disk, is the one the source generates:
its template uses `QuotesOnly`. `Bootstrap.TrailingBackslashBreaksBlock` states the same
defect for the custom-command block alone: it does not parse back into its command. The
corrected escape, `QuotesAndBackslashes` (`Escaping.EscapeLiteral`), reads every command
back. `Bootstrap.RemoteCommandsAgreeWithoutBackslash` and
`Bootstrap.ScriptsAgreeWithoutBackslash` show that both escapes give the same statements and
the same script whenever no command holds a backslash. So everything proved about the
corrected script holds of the source's script in that case.
