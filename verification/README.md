# A model of the Suricata/nDPI configuration service

The service keeps one Suricata configuration file in order. Two programs edit
the file. A reconciler patches it from a template, and a host agent comments
or uncomments the nDPI plugin line. After an edit Suricata has to be
restarted. This project models that core in Dafny and proves what it keeps,
what it achieves, and where it falls short.

Code that works in place is modelled in place, and each method is proved
equal to a function of what it started from. The theorems are about those
functions and about runs of a state machine.

| files | what they model |
|---|---|
| `Text`, `Comments`, `Blocks` | lines and bytes, comment marks, indented blocks |
| `PatchSpec`, `PatchTemplate`, `Patcher`, `GoSlices` | the patcher as functions, what it takes from a template, and the patcher as code over a Go slice with a shared backing array |
| `PatchConvergence`, `PatchFrame`, `PatchTails`, `PatchReadings` | what a pass leaves, where each line of its output comes from, and what the next pass reads |
| `PatchOverlap`, `PatchRestored`, `PatchPasses` | files in which the second stage edits the unix section, and what repeated passes do whether or not it does |
| `PatchDelay`, `PatchUntidy`, `PatchKept` | how a file becomes tidy, what the second pass over an untidy file does, and what no pass over a tidy one loses |
| `PatchTheorems`, `PatchEffect`, `PatchShipped` | what repeated patching does |
| `Toggle`, `NdpiToggle`, `ToggleTheorems`, `ToggleVersions`, `Agreement` | the toggler, a second reader and writer of the file with its own splitter |
| `Disk`, `Reconcile`, `Handlers` | a file system whose operations fail, atomic replacement, plan and reconcile, the host agent's handlers |
| `Host`, `HostSteps`, `HostTheorems`, `HostRuns` | any number of requests interleaved at single operations, each able to fail or be killed; what each step means; single requests from start to end |
| `TwoWriters` | the reconciler and the toggler undoing each other's work |
| `Templates`, `Renderer`, `Backoff` | strict rendering, the readiness probe |
| `PatchExamples`, `ToggleExamples`, `WritersExample` | concrete inputs on which the code does less than one might expect, and inputs that meet the theorems' conditions |

`dafny verify dfyconfig.toml` checks everything.

## What comes out

**How many passes a file needs.** A pass uncomments the plugin line by one
mark, so a file with *h* marks on it needs max(1, *h*) passes. A file without
a `plugins:` header needs two if the unix section comes to stand at its end or
if the template's header is indented by more than one, and otherwise one. That
is the count for a tidy file: no carriage returns at the end of lines that are
kept, and nothing behind the unix section that the next pass would take for a
part of it. Any other file is tidied first, in at most one pass per carriage
return and one more for such a deep line (`DelayBound`). `PatchConverges`
proves the total exact for every template and every file: the bytes repeat
from that pass on and not before. One shape of untidy file is through at once:
the second pass takes its plugin line for a part of the unix section, cuts it,
and writes it again (`UntidyRepeats`, `RegrownExample`).

**Sections that overlap.** If the `plugins:` header or the plugin line is a
commented line of the unix section, or the entry is to be inserted inside that
section or right behind it and deeper than its header, the second stage edits
the block that the first has put in, and the first stage of the next pass undoes
it (`OverlapReports`, `Restored`). What stands beside the block is patched as
usual, so the bytes still repeat, but each pass reports a change and the patch
never takes effect (`OverlapStays`, `PatchTakesEffect`, `OverlapExample`).

**When a second patch changes nothing.** Exactly when the file is tidy, one
pass is enough, and it is not a file that never goes quiet
(`PatchIsIdempotent`). There are three kinds of those. The sections overlap.
Or a line of the template's unix section ends in a carriage return, which the
file's copy has lost when it is read (`DirtyTemplateReports`). Or the unix
section ends the file and the template's does not end in a blank line: then
each pass reads the final newline as one more line of the block, finds the
block different, and reports a change. The shipped template has this layout, so a
configuration that has plugins but no `unix-command:` section makes every
reconciliation restart Suricata (`ShippedLayoutNeverQuiet`, `ShippedExample`).

**What is lost.** Over a tidy file no number of passes loses a line outside the
unix section, or takes more than comment marks off it (`TidyKeepsLines`). Over
others one can be lost: if the line behind the file's unix section is indented
deeper than the template's header, the first pass keeps that line and the second
deletes it, so that stage one is idempotent exactly for shallow files
(`StageOneIdempotent`, `SwallowedLine`, `SwallowedExample`). What a pass has
written is shallow (`ReadingIsShallow`).

**The flag.** The first stage's flag is exact. The second stage's flag misses
one edit: a commented `plugins:` header over an active plugin line is rewritten
without a report (`StageTwoFlag`, `UnreportedPass`, `SilentHeader`).

**Toggling.** After a toggle, status reports the requested state exactly when
the line had at most one mark (or was being disabled) and still fits the
scanner. Enabling a line with two marks writes the file, answers "enabled",
and leaves it off. Disabling a line of nearly 64 KB writes a file that can no
longer be read (`StatusAfterToggle`, `TwoMarksExample`, `LongLineExample`).

**No lock is needed for toggles.** In every interleaving of toggles the file
is the original with its plugin line in one of three forms, give or take
trailing blank lines, and the last writer wins (`TogglesKeepTheFile`,
`LastWriterWins`).

**Two writers.** When the toggler has disabled the plugin line of a file that
the patcher is through with, the next reconciliation writes back the bytes from
before, reports a change, and restarts Suricata; and the toggler can do the same
again (`DisableIsUndone`, `UndoneExample`, `WritersUndoEachOther`). Nothing in the file says which
of the two is meant to win.

**Running and stored configuration.** Suricata runs on the file unless a
restart is outstanding, or one failed, or its request died; or it was down
from the start and nothing has changed the file (`QuietMeansCurrent`).
Retrying a request after its restart failed repairs that if and only if the
file does not yet say what is asked for. It usually does, since the request
wrote it: then retries answer "ok" and restart nothing (`RetryRepairs`,
`FailedRestartExample`).

**Backoff.** The conversion of the growing sleep to a 64-bit duration
overflows with attempt 63 and not earlier. The only caller waits three
seconds, which allows at most six probes (`OverflowPoint`, `SixProbes`).

## Conditions

Convergence and idempotence are stated for every template that parses and every
file. The conditions inside the statements are these.

- `Tidy`: as above.
- `Disjoint`: the sections do not overlap in the first pass. A template whose
  unix header is not indented deeper than its plugins header, and whose
  uncommented unix section holds no `plugins:` line, is so with every file
  (`TemplateIsDisjoint`).
- `CleanTemplate`: no line of the template's unix section ends in a carriage
  return.

## Model

| member | source | states |
|---|---|---|
| Text.SplitOfJoin | integration/patch_suricata_config.go:49-52 | splitting at newlines inverts joining, on every non-empty list of lines |
| Text.JoinOfSplit | integration/patch_suricata_config.go:49-52 | joining inverts splitting, on every string |
| Text.FoldOfJoin | integration/patch_suricata_config.go:50 | CRLF folding takes one CR off every line but the last and changes nothing else |
| Text.TerminateOfJoin | integration/patch_suricata_config.go:42-45 | completing the final newline means that the last line becomes, or already is, the empty one |
| Text.SplitLinesOfWritten | integration/patch_suricata_config.go:42-52 | what a pass reads back is what was written, with the final empty line and one CR less per line |
| Text.TrimSpaceIs | integration/patch_suricata_config.go:55 | trimming is the only cut that removes nothing but white space and leaves none at the ends |
| Comments.UncommentReveals | integration/patch_suricata_config.go:54-60 | trimming an uncommented line gives what normalizing the commented one gave |
| Comments.NormalizeUncommented | integration/patch_suricata_config.go:54-60 | with one mark, uncommenting makes a line active and keeps its normalized text |
| Comments.UncommentKeepsIndent | integration/ndpi_toggle.go:154-166 | uncommenting keeps the indent, so a line stays in or out of its block |
| Comments.NormalizeContains | integration/ndpi_toggle.go:126-138 | searching the normalized line and the raw line for a word without blanks or marks agree |
| Comments.HasIsContains | integration/patch_suricata_config.go:97-105 | mentioning the plugin does not depend on comment marks, and no blank line mentions it |
| Comments.UncommentOfComment | integration/ndpi_toggle.go:145-166 | commenting an active line and uncommenting it is the identity; the commented line has exactly one mark |
| Comments.CommentsKeepCR | integration/ndpi_toggle.go:145-166 | neither operation makes a line end in CR that did not |
| Comments.UncommentOfDropCR | integration/ndpi_toggle.go:154-166 | uncommenting and dropping a carriage return commute |
| Comments.CommentOfDropCR | integration/ndpi_toggle.go:145-152 | commenting an active line and dropping a carriage return commute |
| Comments.DropCRKeepsKey | integration/patch_suricata_config.go:54-72 | a dropped carriage return changes neither the normalized text nor the indent |
| Blocks.FirstIs | integration/patch_suricata_config.go:107-130 | a scan's result is determined by: nothing before it answers, and it answers or is the end |
| Blocks.HeaderUncommented | integration/patch_suricata_config.go:194-196 | an uncommented header is still that header, active, at the same indent |
| Blocks.MentionUncommented | integration/patch_suricata_config.go:211-216 | an uncommented plugin line is still found by every scanner, and is no header |
| Blocks.ScanStopsAtBlockEnd | integration/patch_suricata_config.go:198-219 | with equal indents, the third scanner finds the block's first plugin line, or stops exactly at the block's end when there is none |
| PatchSpec.EntryIsWellFormed | integration/patch_suricata_config.go:184-187 | the entry taken from the template starts with a dash, mentions the plugin, and is one line |
| PatchSpec.UncommentedBlockIsBlock | integration/patch_suricata_config.go:132-142 | uncommenting a block keeps it a block under its header |
| PatchSpec.ParsedIsWellFormed | integration/patch_suricata_config.go:13-22 | what every successful reading of a template guarantees |
| PatchTemplate.TemplateIs | integration/patch_suricata_config.go:9-22 | for every accepted template: the first plugins header gives the indent; the first line of its block that mentions the plugin, trimmed and behind a dash if it has none, is the entry; the block of the first unix header, each line less one mark, is the unix section, and without such a header there is none |
| PatchTemplate.TemplateErrors | integration/patch_suricata_config.go:13-20 | a template is refused exactly if it has no plugins header, or if the block of the first one does not mention the plugin |
| PatchTemplate.EntryLineIs | integration/patch_suricata_config.go:222-223 | the inserted line is the given number of blanks and then the entry |
| PatchConvergence.BlockStaysTogether | integration/patch_suricata_config.go:151-153 | the template block in place is found as exactly itself |
| PatchConvergence.EnsureUnixPlaces | integration/patch_suricata_config.go:144-168 | stage one puts the template's block under the first unix header |
| PatchConvergence.EnsureUnixAgain | integration/patch_suricata_config.go:151-160 | on a written file stage one is quiet, except that a trailing block is cut from its final newline and reported |
| PatchConvergence.ScanStopsBeforeUnix | integration/patch_suricata_config.go:201-219 | the plugin scan never enters the unix block behind it |
| PatchConvergence.TemplateWorksBeside | integration/patch_suricata_config.go:182-234 | with disjoint template sections stage two works beside the unix block, in every file |
| PatchConvergence.EnsurePluginUncomments | integration/patch_suricata_config.go:189-226 | with a plugin line in reach, header and line lose one mark each, the header becomes active, and the unix block stays where it is if neither is a commented line of it |
| PatchConvergence.EnsurePluginInserts | integration/patch_suricata_config.go:221-226 | without one, the entry goes where the scan stopped, is then found there, and the unix block stays whole |
| PatchConvergence.NextRound | integration/patch_suricata_config.go:9-47 | on a written file a pass removes one mark from the plugin line, keeps all other lines, and reports exactly a mark or a trailing unix block |
| PatchConvergence.AfterRounds | integration/patch_suricata_config.go:9-47 | where the file stands after n passes, with n marks fewer |
| PatchConvergence.FixpointWithPlugins | integration/patch_suricata_config.go:9-47 | for a shallow file with a header and no overlap, round n + 1 repeats round n if and only if n reaches the number of marks; when the flag is set |
| PatchConvergence.SecondRound | integration/patch_suricata_config.go:229-233 | the second pass over a file that had no header: what it leaves, and exactly when it equals the first |
| PatchConvergence.FixpointWithoutPlugins | integration/patch_suricata_config.go:9-47 | for a shallow file without a header, round n + 1 repeats round n if and only if n is 2, or 1 under the stated condition |
| PatchFrame.PatchFrame | integration/patch_suricata_config.go:9-47 | the frame, for every file: the lines outside the unix block in order; the template's block in one piece where the old one stood or at the end, but for an entry inserted into it; the missing entry or section; nothing else; exactly the first plugins header and the plugin line in its reach lose a mark, each at most one |
| PatchFrame.HeaderIsOutside | integration/patch_suricata_config.go:189-192 | the header that stage two finds is one of the file's own lines outside its unix block |
| PatchTails.UncommentKeepsTail | integration/ndpi_toggle.go:154-166 | uncommenting keeps the carriage returns at a line's end |
| PatchTails.PassWithin | integration/patch_suricata_config.go:9-47 | no pass lengthens a run of carriage returns at a line's end |
| PatchReadings.StageTwoBlock | integration/patch_suricata_config.go:189-226 | where stage two works beside the unix block, the block stays whole and a deep line behind it stays behind it |
| PatchReadings.TemplateIsDisjoint | integration/patch_suricata_config.go:182-234 | a condition on the template alone under which the sections do not overlap in any file |
| PatchReadings.ReadingIsShallow | integration/patch_suricata_config.go:144-168 | whatever the file was, what a pass has written is shallow |
| PatchReadings.TidyPass | integration/patch_suricata_config.go:42-52 | over a file without carriage returns the next pass reads exactly the lines that were written |
| PatchOverlap.OverlapReports | integration/patch_suricata_config.go:144-234 | if stage two does not work beside the unix block, the next pass finds a unix section that is not the template's, with or without a blank line behind it |
| PatchOverlap.DirtyReading | integration/patch_suricata_config.go:132-160 | the same for a template with a carriage return at the end of a line of its unix section |
| PatchOverlap.GrownReports | integration/patch_suricata_config.go:107-130 | the same if a deep line stands behind the block |
| PatchRestored.Restored | integration/patch_suricata_config.go:144-160 | stage one puts the block back, whatever lines it takes for the block, and keeps every line beside it |
| PatchRestored.PassOvergrows | integration/patch_suricata_config.go:182-234 | what stage two leaves is the lines beside the block, each edited as specified, and lines that stage one takes for the block |
| PatchRestored.OutsideShortens | integration/patch_suricata_config.go:49-52 | for every template, the kept lines lose one carriage return from one pass to the next |
| PatchPasses.PassAgain | integration/patch_suricata_config.go:9-47 | for every template and with or without overlap, one more pass takes one mark off the plugin line beside the block, and writes the same lines if and only if there was at most one |
| PatchPasses.MarksCount | integration/patch_suricata_config.go:9-47 | hence the exact number of passes for a file with a header |
| PatchPasses.SectionCount | integration/patch_suricata_config.go:229-233 | and for a file without one |
| PatchPasses.OverlapStays | integration/patch_suricata_config.go:182-234 | sections that overlap in the first pass overlap in every pass |
| PatchDelay.DelayBound | integration/patch_suricata_config.go:49-52 | how many passes tidying takes at most |
| PatchDelay.AfterDelay | integration/patch_suricata_config.go:9-47 | from then on the readings are those of the tidied file |
| PatchUntidy.UntidyRepeats | integration/patch_suricata_config.go:9-47 | the second pass over an untidy file writes the same lines as the first if and only if its plugin line is the template's entry and stands, deeper than the unix header, right behind the unix block, with nothing behind it that could belong to the block and no carriage returns |
| PatchKept.TidyKeepsLines | integration/patch_suricata_config.go:9-47 | n passes over a tidy file keep every line outside the unix block outside it, in order, less at most comment marks |
| PatchTheorems.BytesAndLines | integration/patch_suricata_config.go:9-47 | n passes on bytes are n readings on lines, for every file |
| PatchTheorems.TidyLinesRepeat | integration/patch_suricata_config.go:9-47 | for a tidy file and every template, pass n + 1 repeats pass n if and only if n reaches the stated number |
| PatchTheorems.TidyReports | integration/patch_suricata_config.go:9-47 | and a pass reports a change exactly before that, or always if the template or the overlap or the end of the file forces it |
| PatchTheorems.PatchConverges | integration/patch_suricata_config.go:9-47 | for every template and file the exact number of passes to a byte fixpoint, and once the file is tidy exactly which passes report a change |
| PatchTheorems.PassesBound | integration/patch_suricata_config.go:9-47 | a bound on that number |
| PatchTheorems.SecondReport | integration/patch_suricata_config.go:9-47 | the second pass over a tidy file reports no change if and only if one pass was enough and the file goes quiet |
| PatchTheorems.DirtyTemplateReports | integration/patch_suricata_config.go:132-160 | a template with a carriage return in its unix section makes every second pass report a change |
| PatchTheorems.OverlapNeverQuiet | integration/patch_suricata_config.go:144-234 | so do sections that overlap |
| PatchTheorems.PatchIsIdempotent | integration/patch_suricata_config.go:9-47 | for every template and file, a second patch returns the same bytes and no change if and only if the file is tidy, one pass is enough, and the file goes quiet |
| PatchTheorems.StageOneIdempotent | integration/patch_suricata_config.go:144-168 | repeating stage one changes nothing if and only if the file is shallow |
| PatchTheorems.SwallowedLine | integration/patch_suricata_config.go:107-130 | in every other file the repetition loses lines |
| PatchTheorems.MarginIsShallow | integration/patch_suricata_config.go:107-130 | headers at the margin make a file shallow |
| PatchEffect.StageOneFlag | integration/patch_suricata_config.go:144-168 | stage one reports a change if and only if its lines differ |
| PatchEffect.StageTwoFlag | integration/patch_suricata_config.go:189-233 | stage two's lines differ if and only if it reports a change or the header was commented |
| PatchEffect.UnreportedPass | integration/patch_suricata_config.go:24-46 | without a report the bytes are the folded, newline-terminated input if and only if the header was active |
| PatchEffect.PatchTakesEffect | integration/patch_suricata_config.go:9-47 | after n passes, one of them over the tidied file, header and plugin line are active and the unix section is the template's up to one trailing blank line, if and only if n is large enough, the sections do not overlap and the template's unix section has no carriage returns |
| PatchEffect.EffectIsFirst | integration/patch_suricata_config.go:97-105 | the active line is then the block's first mention of the plugin, where header and template are indented alike |
| PatchShipped.LayoutParses | config/suricata.yaml.tpl:1-7 | a template laid out like the shipped one parses, and meets the convergence conditions |
| PatchShipped.ShippedLayoutNeverQuiet | config/suricata.yaml.tpl:1-7 | with it, a file with plugins and without a unix section makes every pass report a change, forever |
| PatchShipped.RepositoryTemplate | config/suricata.yaml.tpl:1-7 | the shipped file's own lines have that layout |
| PatchExamples.ShippedExample | config/suricata.yaml.tpl:1-7 | with the shipped template and a file that only has a plugins header the bytes are final after one pass, and every pass reports a change |
| PatchExamples.ShippedBytes | config/suricata.yaml.tpl:1-7 | with the shipped template, in plain text, the patch of a file with nothing but a plugins header: its plugin line and its unix section, literally |
| PatchExamples.SwallowedExample | integration/patch_suricata_config.go:107-130 | a template and a file with a line that the first pass keeps and the second deletes, in bytes |
| PatchExamples.OverlapExample | integration/patch_suricata_config.go:144-234 | a template with a plugins line in its unix section and a file whose bytes repeat while every pass reports a change |
| PatchExamples.SilentHeader | integration/patch_suricata_config.go:194-196 | a template and a file with a commented header over an active entry, rewritten without a report |
| PatchExamples.RegrownExample | integration/patch_suricata_config.go:144-234 | a template whose unix section stands in its plugins section, and an untidy file whose bytes repeat at once |
| ToggleExamples.TwoMarksExample | integration/ndpi_toggle.go:55-62 | enabling a line with two marks writes the file, and status still says disabled |
| ToggleExamples.LongLineExample | integration/ndpi_toggle.go:115-122 | disabling a line that just fits the scanner writes a file that status cannot read |
| ToggleExamples.OneLineIsToggleable | integration/ndpi_toggle.go:37-101 | a file that meets the conditions of the results on interleaved toggles |
| ToggleExamples.FailedRestartExample | pkg/hostagent/handlers.go:118-152 | a run from an initial state to a failed restart that no number of retries repairs |
| ToggleExamples.ToggleText | integration/ndpi_toggle.go:145-166 | disabling and enabling a file, in plain text |
| ToggleExamples.LineEndsText | integration/patch_suricata_config.go:49-72 | splitting, normalizing, indenting and uncommenting lines with carriage returns and tabs, in plain text |
| GoSlices.Append | integration/patch_suricata_config.go:164-166 | append shows the old elements and the new ones, in place or in a fresh array as capacity decides |
| GoSlices.Splice | integration/patch_suricata_config.go:223 | the nested append inserts one line, even when it overwrites the array it reads from |
| Patcher.FindBlock | integration/patch_suricata_config.go:74-95 | returns the specified block and its header's indent, or reports that there is none |
| Patcher.FindBlockRange | integration/patch_suricata_config.go:107-130 | succeeds exactly when the first scanner does, with the same block as a range and the same indent |
| Patcher.FindPluginLine | integration/patch_suricata_config.go:97-105 | returns the trimmed first line that mentions the plugin, if there is one |
| Patcher.MakeBlockUncommented | integration/patch_suricata_config.go:132-142 | every line of the block loses one mark |
| Patcher.EnsureBlockExact | integration/patch_suricata_config.go:144-168 | the in-place stage one equals its specification on the lines at entry, flag included |
| Patcher.ScanForPlugin | integration/patch_suricata_config.go:198-219 | where the scan behind the header stops, and whether on a plugin line |
| Patcher.EnsurePluginsNDPI | integration/patch_suricata_config.go:182-234 | the in-place stage two equals its specification on the lines at entry, flag included |
| Patcher.ReadTemplate | integration/patch_suricata_config.go:10-22 | both template errors, and what is taken from a good template |
| Patcher.PatchSuricataConfigFromTemplate | integration/patch_suricata_config.go:9-47 | the whole pass equals the specified patch: bytes, flag and errors |
| Toggle.ReadWritten | integration/ndpi_toggle.go:91-124 | the toggler reads back what it wrote, less a trailing blank line, or fails on a line too long for the scanner |
| Toggle.DropCRKeepsMatch | integration/ndpi_toggle.go:126-143 | a dropped CR changes neither the match nor the comment state |
| Toggle.FirstMatchIsFirst | integration/ndpi_toggle.go:47-50 | the picked line is the first that matches |
| Toggle.ReadLinesIs | integration/ndpi_toggle.go:103-124 | the lines are the pieces between newlines, without an empty last one, less one carriage return each; none if one has 65536 bytes or more |
| Toggle.DecideIs | integration/ndpi_toggle.go:37-101 | no matching line is an error; if the first one is as asked for, nothing is written; otherwise exactly that line is rewritten, and the bytes are the lines joined, with a final newline |
| Toggle.StatusIs | integration/ndpi_toggle.go:18-31 | status reports the place and the state of the first matching line, or that there is none |
| Toggle.BaseIs | integration/ndpi_toggle.go:127 | the base name is what stands behind the last slash, trailing slashes not counted |
| Toggle.MatchOnRawLine | integration/ndpi_toggle.go:126-138 | for a base name without blanks and marks a match does not depend on trimming and marks |
| ToggleTheorems.OneMarkIsMarks | integration/ndpi_toggle.go:154-166 | one mark in the eyes of the matcher is one application of uncommentLine |
| ToggleTheorems.ToggledMatches | integration/ndpi_toggle.go:126-166 | a toggled line still matches and is in the requested state |
| ToggleTheorems.PickedAgain | integration/ndpi_toggle.go:24-29 | after the rewrite the same line is the first match |
| ToggleTheorems.ReplacedStatus | integration/ndpi_toggle.go:37-124 | the lines that are read after a toggle, or the scanner error |
| ToggleTheorems.StatusAfterToggle | integration/ndpi_toggle.go:18-101 | status reports the requested state at the same line if and only if there was at most one mark to remove and the line fits the scanner |
| ToggleTheorems.ToggleTwice | integration/ndpi_toggle.go:37-101 | repeating the toggle keeps the file if and only if there was at most one mark to remove and the line fits the scanner |
| ToggleTheorems.OneMarkSettles | integration/ndpi_toggle.go:37-101 | and for any plugin path if the matcher sees one mark |
| ToggleTheorems.DisableThenEnable | integration/ndpi_toggle.go:37-101 | disabling and enabling restores all lines as they are read back, or fails exactly when the commented line is too long |
| ToggleTheorems.RoundTripBytes | integration/ndpi_toggle.go:91-124 | the round trip restores the bytes if and only if there was no trailing blank line and no carriage return at a line's end |
| ToggleVersions.RereadIsVersion | integration/ndpi_toggle.go:91-124 | what is read back from a version of the original is one, in the same state |
| ToggleVersions.FamilyIsClosed | integration/ndpi_toggle.go:37-101 | a toggle started from any version of the original writes a version of the original, in the requested state |
| ToggleVersions.VersionStatus | integration/ndpi_toggle.go:18-31 | status on such a version reports its state at the original's line |
| Agreement.MatchIsMention | integration/ndpi_toggle.go:126-138 | for a path that ends in ndpi.so the toggler's lines are the patcher's lines with a dash |
| Agreement.ReadClosed | integration/ndpi_toggle.go:103-124 | the toggler's splitter and the patcher's agree on written files, up to the last empty line |
| Agreement.RoundsKeepTop | integration/patch_suricata_config.go:189-226 | no number of passes changes the lines above the header that stage one left |
| Agreement.ReadingsFit | integration/patch_suricata_config.go:9-47 | if the kept lines, the block and the entry fit the scanner, so does everything later passes read |
| Agreement.PatchedReportsEnabled | integration/ndpi_toggle.go:18-31 | a file in which the patch has taken effect is reported as enabled, at the patcher's own line, if in the tidied file that line has a dash and nothing above the plugins header matches, and all lines fit the scanner |
| TwoWriters.CommentUndone | integration/patch_suricata_config.go:211-216 | a pass over a settled file whose plugin line was commented reports a change and writes the lines it had before |
| TwoWriters.DisableIsUndone | integration/ndpi_toggle.go:37-101 | a disabling toggle of a file that the patcher is through with does replace it, and the next patch returns the bytes from before and reports a change |
| Disk.FileSystem.Fill | integration/atomic_write.go:23-41 | filling the temporary file touches no other name at any moment; on success it has the data and the mode; it fails only if a step does |
| Disk.FileSystem.WriteFileAtomic | integration/atomic_write.go:10-53 | at every moment the path holds its old file or the complete new one; an error leaves it unchanged; no temporary file is left that can be removed; and it fails only if a step does |
| Disk.ScratchIsElsewhere | integration/reconcile_config.go:96 | the scratch file is never the target |
| NdpiToggle.ScanLines | integration/ndpi_toggle.go:113-123 | the scanner loop: all lines, or an error for one that is too long |
| NdpiToggle.NDPIStatus | integration/ndpi_toggle.go:18-31 | state, index and text of the first matching line, or the error that prevents it |
| NdpiToggle.SetNDPIEnabled | integration/ndpi_toggle.go:37-101 | the file is replaced exactly when the decision on its bytes says so and the write succeeds, under its own mode, or 0644 if that cannot be found out; old or new bytes at every moment; nothing left behind that can be removed |
| Handlers.SwitchNDPI | pkg/hostagent/handlers.go:118-188 | exactly one restart if the file was replaced and none otherwise; on "changed" the service runs on the new bytes; an edit fails only if the file cannot be used or a step of writing it fails |
| Handlers.SuricataEnsure | pkg/hostagent/handlers.go:37-81 | the first action is a dial; it is answered exactly if the call says already running, and then nothing follows; otherwise exactly one restart follows, in second place, and then a poll before the deadline and a pause of 250 ms in turn, until a poll is answered, if the call says started, or else the deadline has passed |
| Templates.MatchAt | integration/render_template.go:12 | finds the placeholder at a position if there is one |
| Templates.NoOverlap | integration/render_template.go:12 | no placeholder begins inside another |
| Templates.MatchIsNamed | integration/render_template.go:19-27 | no placeholder of the template is passed over |
| Templates.NameIsMatched | integration/render_template.go:19-27 | and no other name is collected |
| Templates.FlattenOfScan | integration/render_template.go:19-27 | the segments put together are the template |
| Templates.ScanReads | integration/render_template.go:19-27 | the scan is a reading: names are names, and no literal begins a match |
| Templates.OneReading | integration/render_template.go:71-74 | it is the only one, so both passes see the same names |
| Templates.RenderedIs | integration/render_template.go:18-77 | rendering succeeds exactly when every name of the template is in the environment or is the interface name with a nonempty detected value; the output is the reading of the template with each placeholder replaced by that value; which names an error lists, and when detection is to blame |
| Templates.DetectedExample | integration/render_template.go:49-58 | a detected interface in the output, in plain text, and the two errors without one |
| Templates.NameText | integration/render_template.go:12 | what is a placeholder and what is not, in plain text |
| Templates.RenderIdentity | integration/render_template.go:35-37 | a template without placeholders renders to itself |
| Renderer.CollectNames | integration/render_template.go:19-27 | the first pass collects exactly the names of the reading |
| Renderer.SortStrings | integration/render_template.go:29-33 | the names in order, each once |
| Renderer.BelowIs | integration/render_template.go:33 | the order is that of bytes: at the first difference, or the shorter one first |
| Renderer.LookUp | integration/render_template.go:39-48 | values of the names that are set; the names that are not |
| Renderer.AutoDetectEnv | integration/render_template.go:79-100 | detection runs only for a missing interface name, and its error is passed on |
| Renderer.ReplaceAll | integration/render_template.go:71-74 | the second pass replaces every placeholder once, by a value that is defined |
| Renderer.RenderTemplateStrict | integration/render_template.go:18-77 | output, missing names or detection error as specified; the report lists the names sorted and each once |
| Reconcile.FirstExistingPath | integration/paths.go:8-15 | the first candidate that exists |
| Reconcile.FirstExistingIs | integration/paths.go:8-15 | nothing before the target exists, and there is no target only if no candidate exists |
| Reconcile.PlanConfig | integration/plan_config.go:24-71 | the target is the first candidate that exists; sizes and hashes are those of that file and of the patch that the rendered template makes of it; a change and a restart are announced exactly if that patch reports one; after a failure only the paths known by then are filled in; no progress flag is set |
| Reconcile.OutlookIs | integration/plan_config.go:36-60 | the checks in their order, and the error of the first that fails |
| Reconcile.TestScratch | integration/reconcile_config.go:96-114 | suricata -T sees exactly the patched bytes; nothing but the scratch file is touched; a rejected one is gone unless it cannot be removed |
| Reconcile.Swap | integration/reconcile_config.go:116-121 | the target is old or complete at every moment, and the scratch file is gone either way unless it cannot be removed |
| Reconcile.CommandsInOrder | integration/reconcile_config.go:96-149 | no command before the scratch file is written; then suricata -T on the patched bytes there; and a restart, on the patched bytes, exactly if they were accepted and installed |
| Reconcile.Install | integration/reconcile_config.go:91-149 | flags in order, commands in order on the patched bytes, target replaced if and only if applied, under its own mode, or 0644 if that cannot be found out; the files afterwards, exactly, but for what cannot be removed |
| Reconcile.ReconcileConfig | integration/reconcile_config.go:36-150 | restarted implies applied implies validated implies would-change, on every exit; sizes, hashes and would-change are those of a dry run on the files as they were; once applied, hash and size are those of the target; without a change nothing is written and no command runs; otherwise the transaction as above |
| Reconcile.OutlookAfterInstall | integration/plan_config.go:24-71 | the dry run after an installation patches the installed bytes |
| Reconcile.NextPlan | integration/plan_config.go:24-71 | after a successful reconciliation the next plan sees the same bytes and no change if and only if the file was tidy, one pass was enough and the file goes quiet; for a tidy file the report announces a change exactly otherwise, and equal hashes and sizes if not |
| HostSteps.ReadIs | pkg/hostagent/handlers.go:118-188 | what a request decides on reading the file: nothing to do is a success, an unusable file a failure, and otherwise the bytes and where they go |
| HostSteps.StatIs | integration/ndpi_toggle.go:82-89 | the mode that is written is the file's, or 0644 |
| HostSteps.EnsureDials | pkg/hostagent/handlers.go:43-53 | an ensure request dials first; an answer ends it without touching anything |
| HostSteps.RestartIs | pkg/hostagent/handlers.go:55-64 | what Suricata runs on changes only by a restart of a request that owes one or found the socket dead; success loads the file, failure is on record |
| HostSteps.OwesRestart | pkg/hostagent/handlers.go:135-143 | a restart is owed only after the rename to the configuration file, and a dead service is restarted only after a probe found it so |
| HostSteps.AnswersOk | pkg/hostagent/handlers.go:37-188 | a request answers ok exactly if it read that nothing is to be done, a probe was answered, or its restart succeeded |
| Host.FileStep | integration/atomic_write.go:43-45 | in every step of every request, only a rename changes the file, to its job's bytes, and leaves a restart owed |
| Host.OwnedStep | integration/atomic_write.go:16-53 | no step of one request disturbs another's temporary file |
| Host.ConsistentStep | pkg/hostagent/handlers.go:118-188 | every step keeps: Suricata runs on the file, unless a restart is outstanding or failed, or it never ran and the file is the original |
| HostTheorems.RunKeepsInvariants | pkg/hostagent/handlers.go:37-188 | both invariants hold after every run |
| HostTheorems.QuietMeansCurrent | pkg/hostagent/handlers.go:37-188 | at rest without failures Suricata runs on the file, or has been down from the start with the file unchanged |
| HostTheorems.TogglesKeepTheFile | integration/ndpi_toggle.go:37-101 | under any interleaving of toggles every visible version is one of the original's |
| HostTheorems.LastWriterWins | integration/ndpi_toggle.go:37-101 | status then reports what the last toggle to replace the file asked for |
| HostTheorems.OnlyTestedBytesInstalled | integration/reconcile_config.go:96-121 | among toggles and crashes too, a reconciliation installs only bytes that suricata -T accepted |
| HostRuns.UndisturbedWrite | integration/atomic_write.go:10-53 | the state machine's five steps of a write do what the method's contract says |
| WritersExample.UndoneExample | integration/ndpi_toggle.go:37-101 | a template and a file on which this happens, in bytes |
| HostRuns.AnyWrite | integration/atomic_write.go:10-53 | whichever of a write's steps fail, and wherever its request is killed: the destination replaced under the mode, or nothing changed but for at most one temporary file |
| HostRuns.UndisturbedSwitch | pkg/hostagent/handlers.go:118-188 | an undisturbed toggle of the state machine replaces the file under its mode and owes a restart |
| HostRuns.UndisturbedReconcile | integration/reconcile_config.go:82-121 | an undisturbed reconciliation of the state machine has the patched bytes accepted, then installs them |
| HostRuns.WritersUndoEachOther | pkg/hostagent/handlers.go:118-188 | a disabling toggle and a reconciliation, one after the other, leave the file as it was and owe two restarts, and the toggle would do the same again |
| HostRuns.RetryRepairs | pkg/hostagent/handlers.go:135-143 | after a failed restart some run of retries repairs it if and only if a toggle would still replace the file; otherwise none does anything |
| HostRuns.RestartCanFailForGood | pkg/hostagent/handlers.go:124-143 | from an initial state one toggle leads to a pending restart with status already as asked for |
| Backoff.OverflowPoint | pkg/hostagent/suricata_ready.go:54 | the sleep fits a 64-bit duration if and only if the attempt is at most 62 |
| Backoff.SleepBounds | pkg/hostagent/suricata_ready.go:54-57 | sleeps are positive, nondecreasing, at most 2 s, and 2 s from the eighth on |
| Backoff.WaitSuricataReady | pkg/hostagent/suricata_ready.go:27-65 | ends for every wait; success exactly on a ready probe; otherwise the error of some probe after which none failed, or none if no probe failed, with the deadline passed, which is the caller's if that is earlier; between probes the timer is set to the next sleep; each probe starts after the sleeps before it and before the deadline |
| Backoff.ProbesAreRare | pkg/hostagent/suricata_ready.go:54-64 | at most one probe per 150 ms |
| Backoff.SixProbes | pkg/hostagent/handlers_reload.go:51 | a wait of at most three seconds makes at most six probes |

## Left out

- HTTP routing, JSON, the command line, logging, wiring, configuration loading, and the agent's client: no state of their own. The runner's mutex is kept as "one reconciliation at a time".
- ApplyConfig, reload and its retries, candidate sockets, error classification: single-branch facts.
- YAML: the patcher works on lines and indents, and so does the model.
- Unicode white space and invalid UTF-8: a byte is a character, and white space is ASCII white space.
- SHA-256: a parameter.
- The regular expression engine: its one pattern is written out as `MatchAt`.
- `/proc/net/route`, `suricata -T`, `systemctl`, socket dialing: any outcome is possible.
- Other contexts and command timeouts: covered by the possibility of failure.
- Durability: syncing the file is a step that may fail, syncing the directory is not modelled, and a crash leaves the disk in the state of the last completed step.
- Removal: a name can either be removed or not, for the whole call.
- Names made by os.CreateTemp: never used twice, and never equal to a configured path.
- FirstExistingPath: asks the operating system through Stat; here a candidate exists when the file system has it.
- Host: the reconciler's scratch file is not removed in the state machine (it is in `Reconcile.ReconcileConfig`), and the removal of a temporary name that was already renamed away is no step. `AnyWrite` connects the machine to the method for single writes with any failures; whole requests are connected for runs in which no operation fails.
- PatchConverges: which passes report a change is stated for those after the file is tidy; before, only whether the bytes change.
- PatchTakesEffect: stated for passes after the file is tidy.
- PatchedReportsEnabled: for a plugin path that ends in ndpi.so; says nothing about files in which the patch has not taken effect.
- DisableIsUndone: the same conditions, and that the file does not end in a blank line, because the toggler drops one.
- NextPlan: assumes an unchanged environment.
- StatusAfterToggle: assumes that the base name of the plugin path has no blanks and marks, or that the white space on the plugin line is blanks; uncommentLine and TrimSpace cut different characters.
- ToggleTwice: assumes that the base name of the plugin path has no blanks and marks; `OneMarkSettles` is for any path, one way.
- TogglesKeepTheFile: assumes at most one mark on the plugin line, because more make the matched line depend on the order of toggles.
- RetryRepairs: retries on their own, with no request of another kind.
- WaitSuricataReady: exact arithmetic in place of float64 (the products up to attempt seven are exact in both), probes that take at least a nanosecond, and no checks for empty paths. The caller's context ends by its deadline; it is not cancelled otherwise, as its only caller never does.
