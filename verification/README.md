# A verified model of the template tools, the Google analytics connection and the long-lived records

The project models five parts of the repository in Dafny and proves what they are for.

**Template tools.** `tools/lib/template_parser.py` cuts a Django or Handlebars template into tokens, checks their white
space and matches start tags with end tags; `tools/lib/pretty_print.py` lays the lines out again. `Scanners` and
`Tokenizer` model the scanners and the tokenizing loop, `Matcher` the matching loop (the chain of matcher closures is a
stack of what each closure captured), `Validate` the checks on the token objects, `Layout` the four printing passes on
the fields of the token objects. `WrittenForms`, `WrittenLogic` and `WrittenTexts` say what becomes of each written form
of markup and of text, and of small whole templates; `TagRules` which tags validation accepts, `Indentation` and
`PrintedLines` where the printer puts each token and its lines, all three by kinds and names. `Stalls` says when the
loop never ends, `LineEdges`, `Reindent`, `LayoutMeaning` and `UnexpectedEnds` what the passes keep and mean and when
they fail, `InPlace` which texts come back as they are, and `TemplateTool` puts the tools together. Failures of the
source are failures of the model: tokenization errors with their position, parser errors, failed assertions, and the
index errors of `split()[0]`, `text[end + 1]` and `tokens[0]`. Python's `strip` and `split` take off every white-space
character of `Text.PY_SPACE`; the claims about what is printed are for texts whose white space is spaces and newlines
(`Text.Plain`): other white space is lost by the tokenizer or makes it hang (`Stalls.HangsExactly`).

**The Google connection.** `GoogleReplies` classifies what Google answers, `GoogleTokens` is the locked connection row
with its secrets, and `GoogleWorkers` lets any number of workers interleave `google_request` with the refresh task, with
reauthorisation and with disconnection. Each locked transaction is one step, provider answers arrive between the steps
and can be anything. `GoogleLaws` tells the same by replies, times and stored fields: what each reply means, when the
provider is asked, how long nobody asks, and whose connection it stays. Refreshing is the client side of section 6 of
RFC 6749, with the error codes of its section 5.2. Time is counted in microseconds; a date past year 9999 raises, as in
Python.

**Synchronization and the report cache.** `Sync` interleaves jobs, relinks, unlinks, stale-job recovery, cache readers
and evictions; a worker keeps what it read when it claimed its job, a reader keeps the row it loaded. `SyncRows` has the
same transactions as methods on the rows, `SyncLaws` what their jobs are like in every run and `SyncWork` what a
completed one has done. `Provenance`, `ReportCache`, `SyncOrder`, `Freshness` and `Relinks` prove where reports come
from and how old they can be, and `Overtaking` that they can be older by fetch whenever the job of a worker that is
still at work is given up. What a snapshot was fetched from, and the numbers of its fetch and its store, are recorded
for the proofs only.

**Rate limiter.** `RateLimit` is the sliding window for one key over an expiring cache, with real-valued time, and
`RetryPromise` is about the waiting times it answers with.

**Long-lived records.** `Months` is the month arithmetic, `Retention` the assessment of a lead, `RetentionReviews` the
review list with scans that work on what they read before, `RetentionDesk` the same list as the code updates it,
`RetentionRaces` what goes wrong when a decision falls between a scan's read and its save, and `RetentionLaws`
eligibility and refreshes by the fields of the records. `GithubItems` is the last-writer-wins projection of remote
items, `Notifications` the alert reconciler and `NotificationLaws` what it makes of each alert.

Where the code does not do what its comments or names suggest, the model follows the code and a lemma names the input:

- The tokenizer repeats for ever on a tab that stands alone (`Tokenizer.TabHangs`), and exactly on texts that come to a
  gap between markup whose last white space holds anything but spaces and newlines (`Stalls.HangsExactly`).
- A comment whose text is `else` is treated as an else tag by the block pass and fails its assertion, and so does a
  line-leading start tag inside a block that does not lead its line; these are the only failures of the block pass on
  validated tokens whose start and end tags are skipped together, with no start tag named else
  (`LayoutMeaning.AdjustSucceedsExactly`). With `~`, validation strips it and the block pass does not, so it may skip
  one of the two (`LayoutMeaning.TildeMeetsUnexpected`); `UnexpectedEnds.SucceedsExactly` and
  `UnexpectedEnds.UnexpectedExactly` say for all validated tokens when the pass fails, and how.
- Printing what was printed can change it again or fail: a multi-line partial may become an else tag when its second line
  is re-indented (`Reprinting.PrintingTwiceFails`). A text comes back as it is exactly if it is laid out
  (`TemplateTool.PrintsItselfExactly`).
- A report stored after a completed sync can be older, by fetch, than what that sync stored, and giving up the job of a
  worker that has a report left to store can always lead there (`Overtaking.GivenUpJobsAreOvertaken`). The job task's
  hard limit of 30 minutes against the two hours of the recovery is what keeps this from happening
  (backend/apps/analytics/tasks.py:13-15, 38-41).
- A limit without requests allows calls (`RateLimit.BoundedExactly`), a rejection while blocked rounds its wait down
  (`RetryPromise.BlockedPromiseExactly`), a block shorter than its window breaks its promise
  (`RetryPromise.ShortBlockBreaksItsPromise`).
- Adding months does not keep the order of moments when clipping makes two days equal, and the scan's prefilter hides an
  eligible lead in the leap gap (`Months.AddMonthsKeepsOrderExactly`, `Months.CutoffIsExact`).
- A scan that read a review before it was decided overwrites the decision (`RetentionRaces.ScanUndoesDeletion`,
  `RetentionRaces.ScanUndoesDeferral`), and only such a scan ends one early (`RetentionReviews.DeletedStays`,
  `RetentionReviews.DeferralLasts`, `RetentionReviews.OverwritesAreStale`).
- The comment at backend/apps/crm/retention.py:119 says that shared correspondence is removed only after the last
  associated lead; the code counts only leads of the same address (`RetentionRaces.SharedConversationGoes`). The comment
  holds over a run exactly if no approval is of a lead without siblings that took part in a conversation together with
  a lead of another address (`RetentionReviews.SharedConversationsStayExactly`).
- Payloads of one item with equal `updated_at` do not converge unless they make the same row
  (`GithubItems.ConvergesExactly`).

## Model

| member | source | states |
|---|---|---|
| `Text.LinesAppend` | tools/lib/pretty_print.py:125-127 | splitting at newlines turns concatenation into gluing the last line of one text to the first of the next |
| `Text.LinesOfJoin` | tools/lib/pretty_print.py:125-127 | joining lines without breaks and splitting again gives the lines back |
| `Scanners.StopTagMeaning` | tools/lib/template_parser.py:644-651 | where a closed tag ends: at the first closing brace or percent sign, not one earlier or later |
| `Scanners.GetHandlebarsTag` | tools/lib/template_parser.py:644-651 | the loop takes a non-empty piece of the text that ends in a brace, or fails as the source does, with an index error past the end |
| `Scanners.GetDjangoTag` | tools/lib/template_parser.py:690-699 | the same for django tags, with the stripped variant one character further |
| `Scanners.GetHandlebarsTripleStacheTag` | tools/lib/template_parser.py:654-663 | both closers, their lengths, and the failure when neither is there |
| `Scanners.FindEnd` | tools/lib/template_parser.py:723-732 | the first position at which the terminator ends, and that there is no earlier one |
| `Scanners.GetClosed` | tools/lib/template_parser.py:723-744 | the scanners of comments and partials: the shortest closed region, a tokenization error if an angle bracket was seen, else an index error |
| `Scanners.GetTemplateVar` | tools/lib/template_parser.py:747-758 | a variable runs to its first closing brace, or to the second if it follows |
| `Scanners.HtmlStop` | tools/lib/template_parser.py:702-720 | the first closing angle bracket outside quotes |
| `Scanners.GetHtmlTag` | tools/lib/template_parser.py:702-720 | an HTML tag with balanced quotes, or the failure |
| `Scanners.GetText` | tools/lib/template_parser.py:682-687 | the run up to the next tag, stripped of all white space |
| `Scanners.GetSpaces` | tools/lib/template_parser.py:666-671 | exactly the run of spaces at the position |
| `Tokenizer.FirstBranchIsTaken` | tools/lib/template_parser.py:134-253 | of the branches whose test holds at a position, the first in the chain is taken |
| `Tokenizer.Scan` | tools/lib/template_parser.py:141-241 | every markup branch takes a non-empty piece of the text that ends in a closing brace or bracket |
| `Tokenizer.PositionStep` | tools/lib/template_parser.py:57-64 | line and column, defined from the lines of the text before a position, advance as the source counts them |
| `Tokenizer.TokenizerState.Advance` | tools/lib/template_parser.py:57-64 | the counting loop keeps line and column true positions |
| `Tokenizer.TakeTurnAt` | tools/lib/template_parser.py:134-261 | one turn of the loop, in code or not, is the specified turn |
| `Tokenizer.RunTokenizer` | tools/lib/template_parser.py:129-279 | the loop makes the specified tokens as fresh objects, raises the specified error, or repeats exactly where the source would for ever; what the tokens of each written form are is said by the laws of `WrittenForms`, `WrittenLogic` and `WrittenTexts` |
| `Tokenizer.TokensTile` | tools/lib/template_parser.py:132-279 | from every position the tokens tile the rest of the text |
| `Tokenizer.TokenizingIsLossless` | tools/lib/template_parser.py:54-279 | for every text of plain white space tokenizing ends, and on success the tokens are non-empty, concatenate to the text, and carry their true line and column |
| `Tokenizer.TabHangs` | tools/lib/template_parser.py:256-259 | a lone tab makes the loop repeat for ever |
| `Tokenizer.FaultsAreLocated` | tools/lib/template_parser.py:253-265 | every error of the loop is that of a piece of markup that cannot be read, and a tokenization error names its line and column |
| `WrittenForms.EndTagReads` | tools/lib/template_parser.py:184-187 | `</name>`, wherever it stands outside code, is one end tag with that name |
| `WrittenForms.StartTagReads` | tools/lib/template_parser.py:161-183 | `<name ...>` is one start tag, or a doctype, with that name, and code follows exactly for code, pre and script |
| `WrittenForms.SingletonReads` | tools/lib/template_parser.py:161-183 | `<name .../>` is one singleton with that name, or a doctype |
| `WrittenForms.HtmlCommentReads` | tools/lib/template_parser.py:141-144 | an HTML comment is one token whose tag is its text |
| `WrittenForms.HandlebarsCommentReads` | tools/lib/template_parser.py:145-148 | and so is a Handlebars comment |
| `WrittenForms.DjangoCommentReads` | tools/lib/template_parser.py:149-152 | and a Django comment, in Django templates |
| `WrittenForms.PartialReads` | tools/lib/template_parser.py:153-156 | a partial is named by what stands after its first nine characters |
| `WrittenForms.PartialBlockReads` | tools/lib/template_parser.py:157-160 | a partial block is one token with the first word as its name |
| `WrittenLogic.HandlebarsElseReads` | tools/lib/template_parser.py:188-191 | `{{else ...}}` is one else, whatever follows the word |
| `WrittenLogic.BlockStartReads` | tools/lib/template_parser.py:205-208 | `{{#name ...}}` and `{{^name ...}}` are one block start with that name |
| `WrittenLogic.BlockEndReads` | tools/lib/template_parser.py:209-212 | `{{/name}}` is one block end with that name |
| `WrittenLogic.DjangoElseReads` | tools/lib/template_parser.py:213-216 | `{% else %}` and `{% elif ... %}` are one else |
| `WrittenLogic.DjangoEndReads` | tools/lib/template_parser.py:217-220 | `{% endname %}` is one end with that name |
| `WrittenLogic.DjangoStartReads` | tools/lib/template_parser.py:221-228 | `{% name ... %}` is one start with that name, of the stripping kind exactly with a minus before its closing |
| `WrittenLogic.JinjaEndReads` | tools/lib/template_parser.py:229-232 | `{%- endname %}` is one stripping end with that name |
| `WrittenLogic.JinjaStartReads` | tools/lib/template_parser.py:233-236 | `{%- name ... %}` is one stripping start with that name |
| `WrittenLogic.VarReads` | tools/lib/template_parser.py:237-241 | a variable is one token, both its closing braces included |
| `WrittenLogic.TripleReads` | tools/lib/template_parser.py:192-204 | an unescaped variable is one token named by what is in it, which ends in _html |
| `WrittenTexts.NewlineReads` | tools/lib/template_parser.py:242-245 | a line break is a token of its own |
| `WrittenTexts.SpacesRead` | tools/lib/template_parser.py:246-252 | a run of spaces is one token, an indent at the start of a line and white space elsewhere |
| `WrittenTexts.TextReads` | tools/lib/template_parser.py:256-261 | text runs to the next markup, without the white space before it |
| `WrittenTexts.CodeReads` | tools/lib/template_parser.py:134-140 | the text after a code tag runs to the next angle bracket as it is |
| `WrittenTexts.AttributeReads` | tools/lib/template_parser.py:702-720 | a quoted attribute belongs to its start tag, whatever it holds, closing brackets included |
| `WrittenTexts.ElementPasses` | tools/lib/template_parser.py:129-513 | for an ordinary name, `<name></name>` passes every check exactly if the element is not void and not called else |
| `WrittenTexts.SingletonPasses` | tools/lib/template_parser.py:129-513 | `<name/>` passes exactly if the element is void |
| `WrittenTexts.BlockPasses` | tools/lib/template_parser.py:129-513 | `{{#name}}{{/name}}` passes exactly if the name is not else |
| `WrittenTexts.TagPasses` | tools/lib/template_parser.py:129-513 | `{% name %}{% endname %}` passes exactly for the names of block tags |
| `Stalls.HangsExactly` | tools/lib/template_parser.py:132-261 | tokenizing never ends exactly if the text comes, before the first markup that cannot be read, to a gap between two pieces of markup whose last white space holds a character that is neither a space nor a newline |
| `Matcher.StateIsFaithful` | tools/lib/template_parser.py:418-490 | after every token depth is the number of open tags, foreign tells exactly whether one of them is math or svg, and each closure captured what foreign was outside |
| `Matcher.ForestRuns` | tools/lib/template_parser.py:492-510 | the matcher crosses every grammatical sequence and comes back to its state |
| `Matcher.Derive` | tools/lib/template_parser.py:430-510 | whatever the matcher crosses to the end of a block is a grammatical body |
| `Matcher.MatcherIsGrammar` | tools/lib/template_parser.py:398-513 | the matching loop accepts exactly the token sequences of the block grammar, in which any element may stand inside math and svg, and outside void elements as singletons and only they |
| `Matcher.LinksAreMutualAndNested` | tools/lib/template_parser.py:481-490 | after acceptance start and end links are mutual, every start tag has its last end, and blocks never cross |
| `TagRules.AnyNameInForeign` | tools/lib/template_parser.py:496 | while a math or svg tag is open no start tag or singleton is refused, whatever its name |
| `TagRules.VoidClosesItself` | tools/lib/template_parser.py:496-504 | outside, an element is accepted as a start tag exactly if it is not void, and as a singleton exactly if it is |
| `TagRules.EndsFitTheInnermost` | tools/lib/template_parser.py:430-484 | an end tag is accepted exactly if the innermost open tag has its name up to tildes, or is an if, else or unless for an else, and no code tag ends on the next line |
| `TagRules.OpenTagsChange` | tools/lib/template_parser.py:481-510 | a token opens itself exactly if it starts a block and shuts exactly the innermost open tag if it is an end and no else |
| `TagRules.AcceptedExactly` | tools/lib/template_parser.py:492-513 | a list is accepted exactly if every token is and no tag is left open |
| `Validate.PreventExtraNewlines` | tools/lib/template_parser.py:565-577 | fails exactly if four newline tokens follow each other |
| `Validate.PreventWhitespaceViolations` | tools/lib/template_parser.py:580-624 | passes exactly on tidy token lists, with an index error on none and a failed assertion exactly where the first fault is an indent followed by more space |
| `Validate.TidyMeans` | tools/lib/template_parser.py:565-624 | what tidy is, by kinds and lengths: not empty, no leading space, no four breaks in a row, indents of fours before a tag or text, single spaces not before a break |
| `Validate.MatchTokens` | tools/lib/template_parser.py:416-513 | the loop over token objects fails exactly as the matcher does and otherwise leaves the matcher's links on the objects |
| `Layout.ShiftIndentsToTheNextTokens` | tools/lib/pretty_print.py:8-25 | the indents of the line-leading tokens, and the texts of indent tokens emptied |
| `Layout.AdjustBlockIndentation` | tools/lib/pretty_print.py:41-105 | the pass over linked token objects computes the specified indents or fails with the specified error; the indents themselves are those of the laws of `Indentation` |
| `Layout.FixIndentsForMultiLineTags` | tools/lib/pretty_print.py:108-127 | continuation lines as specified, code blocks left alone |
| `Layout.ApplyTokenIndents` | tools/lib/pretty_print.py:130-133 | every text gets its indent in front |
| `Layout.PrettyPrintHtml` | tools/lib/pretty_print.py:136-145 | the four passes on token objects print what the specification prints |
| `LineEdges.TokenKeepsEdges` | tools/lib/pretty_print.py:108-133 | re-indenting one token, multi-line tags included, changes its lines at their edges only |
| `LineEdges.PassKeepsBlank` | tools/lib/pretty_print.py:41-105 | the block pass writes blank indents and gives indents to no token that had none |
| `LineEdges.PrettyPrintingKeepsLines` | tools/lib/pretty_print.py:8-145 | output and input have the same number of lines, pairwise equal after stripping spaces at both ends |
| `Reindent.RunsInStep` | tools/lib/pretty_print.py:41-105 | the pass over its own result goes in step with the first pass, block by block |
| `Reindent.ReindentingIsIdempotent` | tools/lib/pretty_print.py:41-105 | a second block pass on the indents of a successful first one changes none |
| `LayoutMeaning.PassStack` | tools/lib/pretty_print.py:78-95 | the parent-token chain holds exactly the visible blocks that are open |
| `LayoutMeaning.UnexpectedIsUnreachable` | tools/lib/pretty_print.py:82-95 | on validated tokens whose start and end tags are skipped together, with no start tag named else, the "was unexpected" error is never raised, although code and pre tags are skipped |
| `LayoutMeaning.NoTildeAgrees` | tools/lib/pretty_print.py:48-51 | validated tokens without a tilde are such tokens |
| `UnexpectedEnds.SucceedsExactly` | tools/lib/pretty_print.py:41-105 | on any validated tokens the pass succeeds exactly if no token bars it: a lone one tagged else, a line-leading start tag whose innermost open block does not lead its line, or an end tag whose start was skipped or inside whose block a start was taken and its end skipped |
| `UnexpectedEnds.UnexpectedExactly` | tools/lib/pretty_print.py:48-95 | and the "was unexpected" error is raised exactly if the first token that bars it is such an end tag |
| `LayoutMeaning.AdjustedIsLaid` | tools/lib/pretty_print.py:41-105 | a successful pass lays every line out as the independent reference does: four spaces more than the enclosing block, or as deep as it if its first line-leading child stood there and it is a link or template logic other than a loop |
| `LayoutMeaning.LayoutIsUnique` | tools/lib/pretty_print.py:41-105 | the reference layout determines every indent |
| `LayoutMeaning.AdjustSucceedsExactly` | tools/lib/pretty_print.py:53-95 | the pass succeeds on such tokens exactly if no lone token is tagged else and line-leading start tags stand in blocks that lead their line |
| `LayoutMeaning.TildeMeetsUnexpected` | tools/lib/pretty_print.py:48-95 | tokens that validation accepts and the pass rejects, because of a tilde |
| `Indentation.BlocksIndent` | tools/lib/pretty_print.py:35-38 | after a successful pass what leads its line directly inside a line-leading loop, or inside a block that is neither template logic nor a link, stands four spaces deeper than the block |
| `Indentation.LogicMayNotIndent` | tools/lib/pretty_print.py:35-38 | inside other template logic and links it stands as deep as the block if the first line-leading token inside did, and four spaces deeper otherwise |
| `Indentation.TopStandsAtMargin` | tools/lib/pretty_print.py:100-102 | what leads its line outside every block stands at the margin |
| `Indentation.EndsStandUnderStarts` | tools/lib/pretty_print.py:53-57 | end and else tags that lead their line stand where their start tag stands |
| `Indentation.OthersStay` | tools/lib/pretty_print.py:45-51 | white space, tags around code, what leads no line, and what stands in a block that leads none keep their indents |
| `PrintedLines.TokensAreChecked` | tools/lib/template_parser.py:129-624 | the tokens of a plain text that passed the white space checks spell the text, begin with no stray space, and have code between tags only |
| `PrintedLines.LeadersStandAtLineStarts` | tools/lib/pretty_print.py:8-25 | a token of a checked text gets an indent exactly if nothing but spaces comes before it on its line, namely those spaces; only the tag after code gets none |
| `PrintedLines.LeadersStandOnFours` | tools/lib/template_parser.py:580-624 | and those are a multiple of four |
| `PrintedLines.OneLineIsLed` | tools/lib/pretty_print.py:130-133 | one-line tokens and code are printed with their indent in front, indent tokens are not printed |
| `PrintedLines.FurtherLinesAreLed` | tools/lib/pretty_print.py:108-127 | the further lines of a comment or text are stripped and stand at its indent, those of other tokens four spaces deeper, and blank ones are emptied |
| `TemplateTool.FormatTemplate` | tools/lib/pretty_print.py:152-162 | the tools hang exactly if the text comes to a gap with odd white space at its end; a template that passes every check ends as printing it ends, any other fails; printing succeeds exactly if no token bars the block pass, without a tilde under the conditions of `AdjustSucceedsExactly`; what is printed differs from the text at line edges only, and, where start and end tags are skipped together, not at all exactly if the text is laid out |
| `InPlace.PrintsTextExactly` | tools/lib/pretty_print.py:108-145 | whatever the indents, the printed tokens spell the text they came from exactly if every token and its continuation lines stand at their indent |
| `TemplateTool.PrintsItselfExactly` | tools/lib/pretty_print.py:152-162 | a plain text that is printed, its start and end tags skipped together, is printed as it is, and so not reported, exactly if the reference layout of its blocks finds every token in its place |
| `Reprinting.PrintingTwiceFails` | tools/lib/template_parser.py:773-783 | a template whose print passes the checks and then cannot be printed |
| `GoogleReplies.RefusalsAreCoded` | backend/apps/analytics/google.py:91-131 | every refusal has an error code and asks to wait a day at most |
| `GoogleReplies.PermanentRefusals` | backend/apps/analytics/google.py:91-166 | exactly which replies to a refresh end the grant |
| `GoogleLaws.RefusalCodes` | backend/apps/analytics/google.py:91-166 | the code of a refused refresh, each exactly by status and reason |
| `GoogleLaws.AnswersAreCoded` | backend/apps/analytics/google.py:91-136 | code and retryability of a refused request, each exactly by its answer; only a 401 counts as a rejected token |
| `GoogleLaws.RefusalWaits` | backend/apps/analytics/google.py:122-127 | the wait a refusal asks for is its Retry-After, from 0 to 86400 seconds, and none without the header or on a 400 or 401 |
| `GoogleLaws.GrantsExactly` | backend/apps/analytics/google.py:314-326 | a reply grants a token exactly if it is no refusal and carries a non-empty access token, a positive lifetime, an hour where none is given, and no odd refresh token; and which grant |
| `GoogleTokens.GoogleConnection.Exchange` | backend/apps/analytics/google.py:313-325 | the checks on a refreshed token, in order, as the classification of the reply |
| `GoogleTokens.GoogleConnection.AccessToken` | backend/apps/analytics/google.py:279-375 | row and outcome of every path, with nothing changed where the transaction raises; how long the provider is then left alone is `GoogleLaws.RetryAfterIsObeyed` and `GoogleLaws.WaitsGrow` |
| `GoogleTokens.GoogleConnection.NoteFailure` | backend/apps/analytics/google.py:327-352 | the failure branch on the row, whose fields and times are those of `GoogleLaws.FailureIsRecorded` |
| `GoogleTokens.GoogleConnection.StoreGrant` | backend/apps/analytics/google.py:353-372 | what a successful refresh writes |
| `GoogleTokens.GoogleConnection.MarkRejected` | backend/apps/analytics/google.py:424-441 | the last transaction of a request, which condemns only the token that is stored and raises the rejection again as it was answered, its waiting time included |
| `GoogleTokens.GoogleConnection.Reauthorise` | backend/apps/analytics/google.py:193-276 | the callback writes the whole new row or nothing |
| `GoogleTokens.GoogleConnection.Disconnect` | backend/apps/analytics/google.py:467-493 | secrets are cleared only after the revocation was answered with 200 or 400 |
| `GoogleTokens.DisconnectionIsConfirmed` | backend/apps/analytics/google.py:471-491 | a disconnection is confirmed by the provider or changes nothing, leaves no secret, and is idempotent |
| `GoogleWorkers.GoogleRequest` | backend/apps/analytics/google.py:402-441 | one request leaves the row that the worker's events leave, and its outcome is that of the first token, of the answer to it, or of the one retry with a renewed token |
| `GoogleWorkers.ExchangeIsJustified` | backend/apps/analytics/google.py:293-312 | the provider can make a difference exactly if the connection is connected, the gate open, a refresh token stored, and the stored token missing, near expiry or the one rejected |
| `GoogleLaws.RequestsAskExactly` | backend/apps/analytics/google.py:279-318 | the two token calls of a request ask the provider exactly if the connection is connected with a refresh token, the gate is open, and the stored token does not last 90 seconds or is the rejected one |
| `GoogleLaws.RefreshesAskExactly` | backend/apps/analytics/tasks.py:55-60 | and the refresh task with its own margin |
| `GoogleLaws.AnswersWithoutAsking` | backend/apps/analytics/google.py:293-312 | every other call leaves the row and hands out the stored token, behind a closed gate if it lasts 90 seconds, or says why it cannot |
| `GoogleLaws.CrashesChangeNothing` | backend/apps/analytics/google.py:279-375 | a call raises something else exactly on a reason that cannot be looked up or an expiry past the end of time, and then leaves the row |
| `GoogleLaws.RequestsTell` | backend/apps/analytics/google.py:414-441 | what the caller of a failed request is told: the error of the token call, an answer that is no rejection, or the answer to the retry, unless another worker stored a newer token |
| `GoogleLaws.FailureIsRecorded` | backend/apps/analytics/google.py:328-352 | a failed exchange leaves the code of its reply, one failure more up to ten, and a retry time after the longer of the table's and the reply's wait, and the jitter; a permanent one ends the connection; tokens and owner stay |
| `GoogleLaws.SuccessIsStored` | backend/apps/analytics/google.py:353-372 | a successful one stores the token of the reply with its expiry, and its refresh token if it has one, and clears the record of failures |
| `GoogleWorkers.OneExchangePerRejectedToken` | backend/apps/analytics/google.py:279-312 | over any run, all the workers that saw one token rejected cause at most one successful exchange while replacements differ and live, and none once it is replaced |
| `GoogleWorkers.StatusMoves` | backend/apps/analytics/google.py:327-343 | connected turns to reconnect exactly by a permanent failure in that step or by a worker whose renewed token was rejected and is still stored; only a callback restores; only a disconnection disconnects |
| `GoogleWorkers.NothingIssuedOutsideConnected` | backend/apps/analytics/google.py:293-294 | outside connected no token is exchanged and no worker is handed one |
| `GoogleWorkers.OnlyReauthorisationRestores` | backend/apps/analytics/google.py:254-261 | over any run without a successful callback a connection stays out |
| `GoogleWorkers.RefreshTokenIsKept` | backend/apps/analytics/google.py:353-357 | no refresh outcome drops a refresh token; it is kept or replaced by the one that came with the new token |
| `GoogleWorkers.CallbackConnects` | backend/apps/analytics/google.py:232-261 | a successful callback leaves a connected, healthy row with a refresh token |
| `GoogleWorkers.RunIsHealthy` | backend/apps/analytics/google.py:279-375 | over any run a connected row holds both tokens, and has failures exactly when it has an error code and a retry time |
| `GoogleWorkers.FailuresAreStreak` | backend/apps/analytics/google.py:327-372 | the failure counter is the number of consecutive failures, up to ten |
| `GoogleWorkers.FailuresBackOff` | backend/apps/analytics/google.py:304-341 | after the k-th consecutive failure nobody asks the provider for min(60 * 2^(k-1), 3600) seconds, and the gate opens again within 86429 seconds |
| `GoogleLaws.RetryAfterIsObeyed` | backend/apps/analytics/google.py:122-127 | after a refusal that may be tried again and named a Retry-After, no worker asks before it is over, at most a day, whatever happens short of reauthorisation |
| `GoogleLaws.WaitsGrow` | backend/apps/analytics/google.py:331-341 | after the k-th failure in a row no worker asks for 60, 120, 240, 480, 960, 1920 or 3600 seconds |
| `GoogleWorkers.DueConnectionsAsk` | backend/apps/analytics/tasks.py:72-83 | the scheduled refresh starts exactly the tasks that will ask the provider |
| `GoogleWorkers.RetriesMeetOpenGate` | backend/apps/analytics/tasks.py:61-69 | a refresh task run again after its countdown does not meet the gate its failure closed |
| `GoogleLaws.CountdownIsTight` | backend/apps/analytics/tasks.py:64-69 | and the countdown is a minute, or ends within a second of the gate's opening |
| `GoogleWorkers.RevokedGrantIsReplaced` | backend/apps/analytics/google.py:240-249 | after a known revocation a connection comes back only with a refresh token sent in that callback |
| `GoogleLaws.InvalidGrantIsKnown` | backend/apps/analytics/google.py:157-158 | an exchange that is answered with an invalid grant leaves a connection known to be revoked |
| `GoogleLaws.InvalidGrantNeedsANewToken` | backend/apps/analytics/google.py:231-241 | which comes back only with a refresh token in the reply to that callback, and stores that one |
| `GoogleLaws.CallbackExactly` | backend/apps/analytics/google.py:210-263 | a callback succeeds exactly if the reply carries a living token, Google said who granted it, that is the owner, and there is a refresh token, the stored one counting unless it is known to be revoked |
| `GoogleLaws.MismatchIsTold` | backend/apps/analytics/google.py:225-229 | a callback by another account is told the mismatch, exactly then |
| `GoogleLaws.SubjectIsNeverReplaced` | backend/apps/analytics/google.py:225-257 | over any run a known subject is never replaced |
| `GoogleLaws.OwnerIsKept` | backend/apps/analytics/google.py:225-257 | and where only an address is known, no step replaces it |
| `GoogleLaws.FinalCheckCondemns` | backend/apps/analytics/google.py:425-440 | a renewed token that was rejected ends the connection exactly while it is the stored one |
| `GoogleLaws.DisconnectionLeaves` | backend/apps/analytics/google.py:471-493 | a confirmed disconnection takes tokens, retry time and code, and keeps the owner |
| `SyncRows.Database.QueueSync` | backend/apps/analytics/synchronization.py:15-25 | a job is queued exactly if the property exists and has no unfinished job, and nothing else changes |
| `SyncRows.Database.ClaimJob` | backend/apps/analytics/synchronization.py:28-39 | a job is claimed exactly if the worker is free, the property exists and the job is queued or retrying; then it is running, with the link and the windows of that time |
| `SyncRows.Database.StoreReport` | backend/apps/analytics/synchronization.py:69-82 | the report is stored exactly if the property is still linked to what it was fetched from, and otherwise the worker leaves |
| `SyncRows.Database.SyncReport` | backend/apps/analytics/synchronization.py:52-86 | one turn of the loop keeps a settled report, ends the job where the fetch fails, or stores what was fetched |
| `SyncRows.Database.SyncJob` | backend/apps/analytics/synchronization.py:28-106 | a job that nobody interrupts: if no fetch fails it is complete, the revision is one more and every report is settled or newly fetched from the link; else it is retrying or failed as the first failing fetch says, and the revision stays |
| `SyncRows.Database.CompleteJob` | backend/apps/analytics/synchronization.py:87-102 | completion raises the revision of the property by one, as it is then, and completes the job |
| `SyncRows.Database.FailJob` | backend/apps/analytics/tasks.py:16-32 | a failed job is failed, or retrying where no other job of its property is unfinished |
| `SyncRows.Database.RecoverStale` | backend/apps/analytics/tasks.py:36-41 | every unfinished stale job fails and no other job changes |
| `SyncRows.Database.LinkProperty` | backend/apps/analytics/linking.py:54-89 | a link is refused exactly while an unfinished job stands in its way, and otherwise sets the source, wipes the reports of the property and no others, raises its revision and queues one new job, the only one of it that is unfinished |
| `SyncRows.Database.UnlinkProperty` | backend/apps/analytics/api.py:725-750 | a linked property is unlinked exactly if it has no unfinished job, and takes its snapshots and jobs along and no others |
| `SyncRows.Database.Snapshot` | backend/apps/analytics/api.py:406-422 | a read that nobody interrupts ends with the cached payload, or with the stored one, which it caches, or with none |
| `SyncLaws.RunsFit` | backend/apps/analytics/models.py:156-162 | in every run at most one job of a property is unfinished, and jobs are of properties that exist |
| `SyncLaws.LinkingQueues` | backend/apps/analytics/linking.py:54-89 | in every run a link that need not wait gives the slot its source at a new revision, wipes the reports of that property only, and queues one new job with its windows, the only unfinished one of that property |
| `SyncWork.CompletedJobsAreWhole` | backend/apps/analytics/synchronization.py:52-102 | in every run, whatever is relinked, recovered or overtaken, a job that its worker completes while it is running has every report of its windows stored |
| `Provenance.SnapshotsComeFromTheirLink` | backend/apps/analytics/synchronization.py:40-82 | in every interleaving each stored snapshot was fetched from the connection and external id that its property has now |
| `Provenance.StepIsProvenant` | backend/apps/analytics/linking.py:54-83 | every single step keeps that |
| `ReportCache.StepIsGood` | backend/apps/analytics/api.py:406-422 | every step keeps what cache entries and readers may hold: payloads read at their revision or later, no older than what any earlier revision began with |
| `SyncOrder.StoresAreInOrder` | backend/apps/analytics/synchronization.py:69-82 | in every run a store replaces only earlier stores |
| `SyncOrder.StepIsOrderly` | backend/apps/analytics/models.py:156-162 | while only abandoned jobs of a property are given up, it has at most one worker, and relinks and unlinks of it wait for that one |
| `SyncOrder.FetchesAreInOrder` | backend/apps/analytics/tasks.py:36-41 | then a store for that property also replaces only earlier fetches |
| `Freshness.CompletionRaises` | backend/apps/analytics/synchronization.py:87-94 | completing a sync gives its property a revision it never had |
| `Relinks.LinkingRaises` | backend/apps/analytics/linking.py:69-83 | a link is refused and changes nothing, or gives a new revision to the property of its slot and to no other |
| `Freshness.ReportsAreFresh` | backend/apps/analytics/api.py:406-422 | a reader that loads the row after a completed sync gets no report older, by store, than what was stored then, whatever earlier readers cached |
| `Freshness.ReportsAreFreshByFetch` | backend/apps/analytics/api.py:406-422 | nor older by fetch, if only abandoned jobs of that property were given up |
| `Relinks.ReportsAreOfTheLink` | backend/apps/analytics/linking.py:69-83 | a reader that loads the row after a link gets only reports stored since, even when the property comes back to a source it had before |
| `Relinks.ReportsAreFetchedSinceTheLink` | backend/apps/analytics/linking.py:57-83 | and only reports fetched since, if only abandoned jobs of that property were given up |
| `Freshness.ReadsTheLinkedSource` | backend/apps/analytics/api.py:406-422 | if the property is not relinked meanwhile, the reader gets a report whenever one was stored, and one fetched from the current link |
| `Overtaking.GivenUpJobsAreOvertaken` | backend/apps/analytics/tasks.py:36-41 | from every reachable state in which a worker has a report to store for an unchanged link, giving up its active job can be followed by a completed sync after which a reader gets an older fetch |
| `Overtaking.WorkersGetToWork` | backend/apps/analytics/synchronization.py:28-50 | a link and a claim lead to such a state |
| `RateLimit.RateLimiter.FilterRecent` | backend/authentication/ratelimit.py:107-108 | exactly the timestamps after the window's start, in order |
| `RateLimit.RateLimiter.CheckRateLimit` | backend/authentication/ratelimit.py:79-134 | state and answer of every path, the raising minimum of an empty log included; that the wait it answers is enough and needed is `RetryPromise.RejectionKeepsItsPromise` and `RetryPromise.WaitIsNeeded` |
| `RateLimit.RateLimiter.RecordFailedAttempt` | backend/authentication/ratelimit.py:253-282 | a failure is logged whatever the limit |
| `RateLimit.RateLimiter.Reset` | backend/authentication/ratelimit.py:285-297 | nothing is left of log and block |
| `RateLimit.RemainingCountsDown` | backend/authentication/ratelimit.py:125-130 | what an allowed check says remains is how many more are allowed at once |
| `RateLimit.CountedIsExact` | backend/authentication/ratelimit.py:103-126 | pruning and cache expiry never forget a timestamp that still counts: the log counts exactly what an unforgetting log would |
| `RateLimit.LogIsExact` | backend/authentication/ratelimit.py:93-130 | every run keeps the log in that form |
| `RateLimit.WindowBound` | backend/authentication/ratelimit.py:93-130 | between resets at most the configured number of calls is allowed in any window, its end included |
| `RateLimit.WindowBoundFrom` | backend/authentication/ratelimit.py:93-130 | the same with the start included and the end left out |
| `RateLimit.BoundedExactly` | backend/authentication/ratelimit.py:110-113 | the bound holds of a configuration exactly if it has a request to give |
| `RetryPromise.TableIsFair` | backend/authentication/ratelimit.py:28-52 | every configured limit has requests and a block of none or at least its window |
| `RetryPromise.RejectionKeepsItsPromise` | backend/authentication/ratelimit.py:110-123 | without blocking, a caller that waits as told is let through unless another call was let through before; rejected calls do not extend the wait |
| `RetryPromise.WaitIsNeeded` | backend/authentication/ratelimit.py:110-123 | and the wait is needed: without blocking, every check more than a second before its end is rejected, whatever was rejected in between |
| `RetryPromise.RejectsExactly` | backend/authentication/ratelimit.py:103-123 | a limit that does not block rejects exactly the checks that find as many logged calls in the window as it has requests |
| `RetryPromise.BlockKeepsItsPromise` | backend/authentication/ratelimit.py:116-123 | the rejection that sets a block of at least a window: every check before its end is rejected, and a check then is let through |
| `RetryPromise.BlockedPromiseExactly` | backend/authentication/ratelimit.py:96-101 | a rejection by a standing block keeps its promise exactly if a whole number of seconds is left |
| `RetryPromise.ShortBlockBreaksItsPromise` | backend/authentication/ratelimit.py:116-120 | every block shorter than its window breaks its promise after some burst |
| `Months.AddMonthsIsValid` | backend/apps/crm/retention.py:23-29 | the result is a date of the calendar, that many months on, at the same time, on the same day unless the month is too short |
| `Months.MonthsHaveDays` | backend/apps/crm/retention.py:23-29 | the lengths of the months, with the leap years of the Gregorian calendar |
| `Months.AddMonthsExactly` | backend/apps/crm/retention.py:23-29 | the result by years and months, and that it fails exactly outside the years 1 to 9999 |
| `Months.AddMonthsComposes` | backend/apps/crm/retention.py:23-29 | two additions are one exactly unless the stop between clips further; always for days up to 28 |
| `Months.AddMonthsKeepsDayOrder` | backend/apps/crm/retention.py:23-29 | the order of days is kept |
| `Months.AddMonthsKeepsOrderExactly` | backend/apps/crm/retention.py:23-29 | the order of moments is kept exactly unless clipping makes two days of a month equal and their times are the other way round |
| `Months.CutoffIsExact` | backend/apps/crm/retention.py:124-133 | due by now and before the cutoff agree except in the leap gap, where a due lead is hidden |
| `Months.CutoffIsExactByDay` | backend/apps/crm/retention.py:124-133 | by days, the gap is 29 February alone |
| `Retention.AssessSiblings` | backend/apps/crm/retention.py:60-70 | finds an open sibling exactly if there is one, else covers the siblings' activity |
| `Retention.AssessMessages` | backend/apps/crm/retention.py:71-97 | the conversations of the exact address, and whether a message is still being sent |
| `Retention.AssessTickets` | backend/apps/crm/retention.py:98-116 | finds a conversation to keep exactly if there is one, else covers their activity |
| `Retention.AssessLead` | backend/apps/crm/retention.py:40-121 | a lead is found eligible exactly if nothing protects it and its last activity is three years old, and conversations go with it only without siblings |
| `RetentionLaws.EligibleExactly` | backend/apps/crm/retention.py:40-121 | eligibility by the fields: lost, never converted, no client of that address, the other leads of the address lost too, only finished sales conversations without client, time or message being sent, and 36 months since the last thing that happened to any of them |
| `RetentionLaws.GoesExactly` | backend/apps/crm/retention.py:117-121 | a conversation goes with a lead exactly if it has a message of that brand and address and there is no other lead of it |
| `RetentionLaws.ScansReadExactly` | backend/apps/crm/retention.py:128-133 | the scan looks at exactly the lost, unconverted leads that were not touched since the cutoff |
| `RetentionDesk.ReviewDesk.ScanLead` | backend/apps/crm/retention.py:134-152 | one wanted lead gets one review, or its cancelled or overdue one back |
| `RetentionDesk.ReviewDesk.RefreshReviews` | backend/apps/crm/retention.py:124-163 | after an uninterrupted scan every wanted lead has a review, every review went through both loops, and what is pending is eligible |
| `RetentionLaws.RefreshedStatus` | backend/apps/crm/retention.py:134-160 | what a refresh makes of a pending, cancelled, deferred or deleted review, with its dates |
| `RetentionLaws.ScanStepsList` | backend/apps/crm/retention.py:134-152 | the steps of the first loop for one lead, with nothing in between, do to its review what the loop does |
| `RetentionLaws.CheckStepsRecheck` | backend/apps/crm/retention.py:153-160 | and so do the steps of the second loop |
| `RetentionDesk.ReviewDesk.ApproveReview` | backend/apps/crm/retention.py:184-247 | the approval deletes exactly with permission, for a pending review of an eligible lead, and with permission for conversations where some go along; it removes the lead and them and nothing else of leads and conversations |
| `RetentionDesk.ReviewDesk.DeferReview` | backend/apps/crm/retention.py:250-272 | a review is deferred exactly with permission, a reason, three, six or twelve months and a pending review, to a date that many months ahead |
| `RetentionReviews.LeadsGoByApproval` | backend/apps/crm/retention.py:184-247 | over any run a lead is deleted only by approving its pending review while it is eligible, twice looked at |
| `RetentionReviews.ConversationsGoWithTheLastLead` | backend/apps/crm/retention.py:117-121 | over any run a conversation is deleted only when no lead of that brand and address remains |
| `RetentionReviews.SharedGoesExactly` | backend/apps/crm/retention.py:117-121 | in one step a conversation goes while a lead that took part in it stays exactly if a confirmed approval is of a lead without siblings that took part in it, and another lead did too |
| `RetentionReviews.SharedConversationsStayExactly` | backend/apps/crm/retention.py:118-121 | over any run a conversation goes only with the last lead that took part in it exactly if no event is such an approval |
| `RetentionReviews.ApprovalForgets` | backend/apps/crm/retention.py:222-246 | a confirmed approval forgets the lead and what is linked to it, to the last message, and nothing else |
| `RetentionReviews.DeferralIsAhead` | backend/apps/crm/retention.py:250-272 | a deferral sets a date three, six or twelve months ahead, and is not reopenable before |
| `RetentionReviews.DecisionEndsExactly` | backend/apps/crm/retention.py:134-160 | in one step a deleted or deferred review changes its status exactly if a scan saves it: puts it back on the list, or cancels it because its lead is not eligible |
| `RetentionReviews.DeletedStays` | backend/apps/crm/retention.py:140-160 | over any run a deleted review stays deleted exactly if no scan saves it in that run |
| `RetentionReviews.DeferralLasts` | backend/apps/crm/retention.py:140-160 | over any run a deferral holds up to its date exactly if the first scan that saves the review, if one does, reopens it and looked at it on or after the date |
| `RetentionReviews.OverwritesAreStale` | backend/apps/crm/retention.py:134-160 | a scan that saves a deleted review, or a deferred one other than to reopen it in time, read it before it was decided |
| `RetentionRaces.ScanUndoesDeletion` | backend/apps/crm/retention.py:154-160 | a decision between a scan's read and its save turns a deleted review to cancelled |
| `RetentionRaces.ScanUndoesDeferral` | backend/apps/crm/retention.py:154-160 | and undoes a deferral the same day |
| `RetentionRaces.SharedConversationGoes` | backend/apps/crm/retention.py:118-121 | a conversation goes although another lead, of another address, took part in it |
| `GithubItems.Items.SaveItem` | backend/apps/github_integration/services.py:71-105 | the row after a payload, unchanged if it is newer or if building the row raises |
| `GithubItems.RowMeaning` | backend/apps/github_integration/services.py:80-103 | a row reads merged exactly for merged pull requests or where the payload says so, its title fits, its logins are lower case, Dependabot apps are bots |
| `GithubItems.TitleIsStored` | backend/apps/github_integration/services.py:90 | the title is the first text among title, display title and name, stored as it is up to 500 characters |
| `GithubItems.AuthorIsStored` | backend/apps/github_integration/services.py:80-95 | the author is the user or else the actor, a bot exactly by its type or its suffix, and Dependabot exactly by its login |
| `GithubItems.FieldsAreStored` | backend/apps/github_integration/services.py:82-102 | number, address, state, conclusion, branch and the lower-cased logins are those of the payload, in the order of preference |
| `GithubItems.RaisesExactly` | backend/apps/github_integration/services.py:80-101 | building the row raises exactly where the last text to choose from is null |
| `GithubItems.NewestIsKept` | backend/apps/github_integration/services.py:78-79 | after any deliveries each row is that of a newest payload, or the older row if that is newer |
| `GithubItems.ArrivalTimesAreIrrelevant` | backend/apps/github_integration/services.py:72-79 | for payloads that say when they were updated it makes no difference when they come in |
| `GithubItems.DistinctTimesConverge` | backend/apps/github_integration/services.py:71-105 | with distinct times per item every order and repetition ends in the same store, with the newest payload of each item |
| `GithubItems.ConvergesExactly` | backend/apps/github_integration/services.py:71-105 | deliveries converge exactly if the newest ones of each item make the same row |
| `Notifications.AlertStore.SyncNotification` | backend/apps/core/notifications.py:38-101 | an alert is made, renewed or left alone |
| `Notifications.AlertStore.ResolveMissing` | backend/apps/core/notifications.py:104-114 | exactly the unresolved alerts of the prefix that are not fresh are resolved |
| `Notifications.AlertStore.RefreshNotifications` | backend/apps/core/notifications.py:311-328 | the loops over sources and specs refresh as specified |
| `Notifications.BuildersAreWellSourced` | backend/apps/core/notifications.py:313-319 | the five prefixes are apart, so no builder's keys fall under another's |
| `Notifications.UnresolvedAreFresh` | backend/apps/core/notifications.py:311-328 | after a refresh the unresolved alerts under each prefix are exactly the fresh keys |
| `NotificationLaws.RefreshTells` | backend/apps/core/notifications.py:38-114 | what a refresh makes of each alert: left alone, renewed unread and undismissed, resolved now, or kept |
| `Notifications.SecondRefreshExactly` | backend/apps/core/notifications.py:311-328 | a second refresh from the same specs changes nothing exactly if no two specs disagree about a key |
| `Notifications.StepKeepsDismissal` | backend/apps/core/ninja/operational_views.py:176-240 | a step takes a dismissal back exactly if it is a refresh that says something new or the alert recurs |
| `NotificationLaws.MarksAreExact` | backend/apps/core/ninja/operational_views.py:176-240 | what reading, dismissing and reading all change, and nothing else |
| `Notifications.DismissedStays` | backend/apps/core/notifications.py:38-101 | over any run an alert stays dismissed until its content changes or it resolves and recurs |

## Left out

- `ensure_matching_indentation` (tools/lib/template_parser.py:520-562): a check without state of its own; templates that it rejects are covered by the claims as well.
- The wording of error messages and the reading and writing of template files: error kinds and positions are modelled, texts are not.
- RunTokenizer: where the source would loop for ever the model stops with an outcome of its own, because its methods must end.
- PrintsItselfExactly: where a `~` makes the pass skip only one tag of a block there is no reference layout, and `PrintsTextExactly` speaks of the indents that the pass computes.
- Transport to Google and GitHub, Celery, Redis and Django: providers answer anything, tables are maps that atomic steps change.
- Encryption of stored secrets: the secret store keeps what is put in, without empty values.
- Consuming the OAuth state, granted scopes, the audit log, and the error codes on properties of a connection: they decide nothing that is modelled.
- FailuresBackOff: the clock stays below the last day of year 9999, where adding a retry time would raise.
- The definitions and metadata that a sync also stores, its progress, and the automatic backfill: a backfill is a `Queue` event of the model.
- LinkProperty, StepIsOrderly, ReportsAreFetchedSinceTheLink: a link is one step here. In the source the lock on the website does not cover jobs, so one can be queued and claimed between the check (backend/apps/analytics/linking.py:57) and the update (backend/apps/analytics/linking.py:69); that its reports do not end up under the new link is left to the guard of the store (backend/apps/analytics/synchronization.py:69-82), which is modelled; that relinks wait for workers, and so the order by fetch across a link to the same source, is claimed for the one step only.
- AssessLead: upper and lower case of addresses is abstracted to equal addresses, and the broad prefilter over recipients to the exact check behind it.
- ApproveReview: the files of deleted attachments and their later cleanup are not modelled.
- CheckRateLimit: one key, sequential calls, no failures of the cache; the handler that allows calls after an exception is modelled for the one exception that the code itself raises.
- Hashing of identifiers to cache keys and the views around the limiter.
- DistinctTimesConverge: payloads without a readable `updated_at` take the time of arrival, so they are not part of the claim; limits on the length of columns are not modelled, and lower case is that of ASCII.
- What the notification builders select and how they word it: their specs are any specs whose keys start with their prefix.
- The remaining applications of the repository (infrastructure, credentials, clients, search, dashboards, access scopes, the frontend and the other tools): projections and field checks that would add easy members only.
