# zenhub-bot: enrichment and pull-request automation, modelled in Dafny

zenhub-bot receives Zenhub webhooks. The webhook service runs a list of
enrichers over each payload. The GitHub enricher adds a `github_issue`
record and the Zenhub enricher adds a `zenhub_issue` record. An enricher
that raises is skipped. When an issue with assignees moves to "In Progress",
the pull-request service makes three GitHub requests:

1. it creates a branch `feature/<number>-<slug>` from the base branch;
2. it commits a Markdown context file `.github/ISSUE_<number>.md` to that branch;
3. it opens a draft pull request whose body links and summarises the issue.

The settings parse the comma-separated repository and workspace lists.

The model works on the payload as Python sees it. A `Value` is `None`, a
bool, an int, a string, a list or a dict, and a payload is a
`map<string, Value>`. An exception is a `Result.Err` carrying the
exception's class name. The GitHub and Zenhub clients are function
parameters, each mapping a request to a response or an exception.

Modules, one per concern of the source:

- `Results`: `Option` and `Result`.
- `Text`: the `str` operations used: `strip`, `split`, `join`, `lower`,
  `isalnum`, `int(str)` and `str(int)`.
- `PyValues`: truthiness, `dict.get`, iteration, `int(...)`, `str(...)`
  and `str.join` on values.
- `Lines`: the per-entry loops the two Markdown generators share.
- `Config`: `validate_repos`, `get_repos` and `get_workspace_ids` of the
  settings.
- `Protocols` and `Enrichers`: the enricher protocol, `GitHubEnricher` and
  `ZenhubEnricher`.
- `WebhookService`: the class `WebhookService`, whose `ProcessWebhook`
  method runs the enrichers in a loop.
- `PrGate`: `_should_create_pr`.
- `BranchName`: `_generate_branch_name`.
- `PrBody`: `_generate_pr_body`, as a loop-based method proved equal to a
  specification function, plus a parser that reads the sections back.
- `ContextFile`: `_generate_context_file`, built the same way.
- `PrService`: the class `PrService` and `handle_issue_moved`. The method
  returns the handler's result together with the sequence of requests it
  made.

## Model

| member | source | states |
|---|---|---|
| `Text.Strip` | app/config.py:63 | The result has no whitespace at either end, and it is empty exactly when the input is all whitespace. |
| `Text.StripIsSlice` | app/config.py:63 | `strip()` removes only whitespace, and only from the ends: the result is a contiguous slice of the input with whitespace on both sides of it. |
| `Text.StripChars` | app/config.py:63 | Every character of the stripped text comes from the input. |
| `Text.Split` | app/config.py:63 | `split(",")` gives at least one part, no part contains the separator, and joining the parts with the separator gives back the input. |
| `Text.SplitJoin` | app/config.py:63 | Splitting a join of separator-free parts gives back those parts. |
| `Text.ParseIntRoundTrip` | app/services/pr_service.py:309 | `int(str(n)) == n` for every integer. |
| `Text.ParseNatRoundTrip` | app/services/pr_service.py:309 | `int(str(m)) == m` for a non-negative integer. |
| `Text.ParseNegativeRoundTrip` | app/services/pr_service.py:309 | `int("-" + str(m)) == -m`. |
| `Text.WordsChars` | app/services/pr_service.py:91 | Every character of a word given by `split()` comes from the input. |
| `Config.FirstWithoutSlash` | app/config.py:64-66 | Finds the first entry without a `/`, and finds nothing exactly when every entry has one. |
| `Config.ValidateRepos` | app/config.py:58-67 | Accepts exactly a value that is not blank and whose every stripped entry contains `/`. It returns the value unchanged, and a blank value gets the "at least one repo" error. |
| `Config.NonEmpty` | app/config.py:71 | The filter keeps exactly the non-empty entries. |
| `Config.CleanList` | app/config.py:69-77 | Every entry returned is non-empty and has no surrounding whitespace. |
| `Config.GetRepos` | app/config.py:69-71 | Every repository returned is non-empty, has no surrounding whitespace and contains no comma. |
| `Config.GetWorkspaceIds` | app/config.py:73-77 | The workspace ids are read exactly as `get_repos` reads its list, so the early return for an empty setting does not change the result. |
| `Config.CleanListNoComma` | app/config.py:71 | No entry of a parsed list contains the separator. |
| `Config.NonEmptyConcat` | app/config.py:71 | Filtering distributes over concatenation. |
| `Config.ValidatedReposHaveSlash` | app/config.py:58-71 | For an accepted value, `get_repos` returns every stripped part, none is dropped, and each contains `/`. |
| `Config.CleanListEmpty` | app/config.py:73-77 | An empty setting gives no workspace ids. |
| `Config.TrailingCommaRejected` | app/config.py:63-66 | A value with a trailing comma is rejected, because its last entry is empty. |
| `Config.CleanListOfCleanParts` | app/config.py:71 | Parts that are already trimmed and non-empty come back unchanged. |
| `ConfigExamples.CommaListRoundTrip` | app/config.py:69-77 | Joining clean, comma-free entries with commas and parsing the result gives back the entries, for both lists. |
| `ConfigExamples.EmptyValueGivesNoIds` | tests/unit/test_config.py:45-54 | An empty setting gives an empty list. |
| `ConfigExamples.ValidateEmptyExample` | tests/unit/test_config.py:34-43 | An empty `GITHUB_REPOS` is rejected with the "at least one repo" message. |
| `ConfigExamples.SingleEntryWithoutSlash` | app/config.py:64-66 | A single entry without `/` is rejected with the "Invalid repo format" message naming that entry. |
| `ConfigExamples.ValidateNoSlashExample` | tests/unit/test_config.py:23-32 | `"invalid-repo-format"` is rejected as an invalid repo format. |
| `ConfigExamples.ValidateOneRepoExample` | app/config.py:60-67 | `"org/repo"` is accepted unchanged. |
| `Enrichers.FieldOfEach` | app/services/enrichers.py:59-62 | The comprehension succeeds exactly when every element is a dict with the key. It then keeps the length and the order. |
| `Enrichers.ProjectIssue` | app/services/enrichers.py:55-64 | The `github_issue` record has exactly the seven keys, and list-valued labels and assignees. Title, body, state and URL are copied from the response, with `None` when they are missing. |
| `Enrichers.GitHubEnrich` | app/services/enrichers.py:24-71 | The result differs from the payload at most in `github_issue`, and loses no key. When it differs, it holds an issue record there. |
| `Enrichers.ProjectBoard` | app/services/enrichers.py:141-147 | Succeeds exactly when the response, its estimate and its pipeline are dicts. The record has exactly the keys estimate, pipeline, is_epic and epic. |
| `Enrichers.ZenhubEnrich` | app/services/enrichers.py:99-154 | The result differs at most in `zenhub_issue`. Without a token the payload is returned as it came. |
| `Enrichers.GitHubSkipsIncompletePayload` | app/services/enrichers.py:33-40 | A missing or falsy organization, repo or issue number returns the payload untouched. |
| `Enrichers.GitHubOutcome` | app/services/enrichers.py:43-71 | The client is asked about the normalised fields with `int(number)`, and its projected answer is stored under `github_issue`. A failure of the conversion, the fetch or the projection returns the payload unchanged. |
| `Enrichers.GitHubNormalisationEscapes` | app/services/enrichers.py:42-47 | A field that normalisation cannot handle raises out of `enrich`, because normalisation runs before the `try`. |
| `Enrichers.FormFieldsReadAsScalars` | app/services/enrichers.py:33-47 | Form-encoded fields, each a one-element list, give the same request and the same `github_issue` record as the plain strings they hold. |
| `Enrichers.ProjectIssueFields` | app/services/enrichers.py:59-63 | Labels become their names in order, assignees their logins in order, and the milestone its title. |
| `Enrichers.ProjectIssueRejectsNamelessLabel` | app/services/enrichers.py:59 | One label without `name` makes the projection fail. |
| `Enrichers.ZenhubWithoutToken` | app/services/enrichers.py:108-111 | With a `None` or empty token the payload is returned whatever the clients would answer. |
| `Enrichers.ZenhubSkipsIncompletePayload` | app/services/enrichers.py:113-121 | Any of the four fields missing or falsy returns the payload untouched. |
| `Enrichers.ZenhubOutcome` | app/services/enrichers.py:123-154 | Repository id first, then `int(number)`, then the board query. The projected answer is stored under `zenhub_issue`, and any failure returns the payload unchanged. |
| `Enrichers.ProjectBoardFields` | app/services/enrichers.py:141-147 | For any board response whose estimate and pipeline are dicts, whatever other keys they carry, the record holds the estimate's `value` and the pipeline's `name` (each `None` when missing), not the nested dicts. `is_epic` defaults to `False` and `epic` to `None`. |
| `Enrichers.ProjectBoardRejectsNullEstimate` | app/services/enrichers.py:143 | A `null` estimate makes the projection raise. |
| `WebhookService.Update` | app/services/webhook_service.py:45 | `dict.update` gives the union of the keys: the result's values win and the other keys keep theirs. |
| `WebhookService.Process` | app/services/webhook_service.py:39-50 | Running the enrichers never removes a key: every input key is an output key. |
| `WebhookService.WebhookService.constructor` | app/services/webhook_service.py:18-24 | The service holds the given enrichers. |
| `WebhookService.WebhookService.ProcessWebhook` | app/services/webhook_service.py:26-50 | The loop's output is the fold of the enrichers over the payload. Enricher `i` is handed the fold of the first `i` enrichers. No key of the input is lost. |
| `WebhookService.ProcessConcat` | app/services/webhook_service.py:41-48 | Running two enricher lists in turn equals running their concatenation. |
| `WebhookService.AllFailuresKeepPayload` | app/services/webhook_service.py:41-48 | When every enricher raises, the output is the input. |
| `WebhookService.FailingEnricherIsSkipped` | app/services/webhook_service.py:46-48 | An enricher that always raises can be removed without changing the output. |
| `WebhookService.LastResultWins` | app/services/webhook_service.py:43-45 | After a successful step the result's keys hold its values, and every other key keeps its value. |
| `WebhookService.ProcessChangesOnly` | app/services/webhook_service.py:41-48 | When every enricher only touches some keys, so does the whole run. |
| `WebhookService.MergeChangesOnly` | app/services/webhook_service.py:45 | Merging a result that only touched some keys yields that result. |
| `WebhookService.StandardPipeline` | app/services/webhook_service.py:41-48 | With the GitHub then the Zenhub enricher, the output differs from the webhook only in `github_issue` and `zenhub_issue`, whatever the clients answer. |
| `PrGate.Destination` | app/services/pr_service.py:53-57 | A truthy `to_pipeline_name` is the destination as given. Otherwise the destination is `zenhub_issue.pipeline.name`, and reading it raises exactly when `zenhub_issue` or its `pipeline` is not a dict. |
| `PrGate.ShouldCreatePr` | app/services/pr_service.py:29-73 | An event type outside the three valid ones gives `False`. `True` implies that `github_issue` is a dict. |
| `PrGate.GateOpensExactly` | app/services/pr_service.py:41-73 | The gate opens exactly when all three hold: a valid event, a destination lower-casing to "in progress", and truthy assignees. |
| `PrGate.NoAssigneesNoPr` | app/services/pr_service.py:65-70 | An issue without assignees is turned away. |
| `PrGate.OtherPipelineNoPr` | app/services/pr_service.py:59-63 | Any other destination is turned away. |
| `PrGate.GateIgnoresCase` | app/services/pr_service.py:59 | Destinations that lower-case alike get the same decision. |
| `PrGate.InProgressSpellings` | app/services/pr_service.py:59-73 | "In Progress", "IN PROGRESS" and "in progress" all open the gate for an assigned issue. |
| `PrGate.AssignedThroughBoardPipeline` | app/services/pr_service.py:41-73 | A `github_assigned` event without `to_pipeline_name`, whose board record has the pipeline dict named "In Progress", opens the gate for an assigned issue. |
| `PrGate.InProgressLowers` | app/services/pr_service.py:59 | "In Progress", "IN PROGRESS" and "in progress" lower-case to the target name. |
| `PrGate.GateRaisesOnEnrichedPipeline` | app/services/pr_service.py:53-57 | Without `to_pipeline_name`, the bare pipeline name the Zenhub enricher stores makes the gate raise. |
| `BranchName.Sanitize` | app/services/pr_service.py:88-90 | Keeps exactly the ASCII alphanumerics, spaces and hyphens, and nothing else. |
| `BranchName.BranchName` | app/services/pr_service.py:75-93 | Every branch name starts with `feature/`. |
| `BranchName.SlugShape` | app/services/pr_service.py:86-91 | A slug has at most 50 characters, all of them lower-case ASCII letters, digits or hyphens. |
| `BranchName.SlugIdempotent` | app/services/pr_service.py:86-91 | Slugging a slug changes nothing. |
| `BranchName.SanitizeConcat` | app/services/pr_service.py:88-90 | The filter works character by character: it distributes over concatenation. |
| `BranchName.BranchNumberRoundTrip` | app/services/pr_service.py:93 | The number read back from a branch name is the issue number. |
| `BranchName.SpacedHyphenTriples` | app/services/pr_service.py:91 | The title "a - b" gives the slug "a---b": a spaced hyphen becomes three hyphens. |
| `BranchName.SpecialCharsDropped` | app/services/pr_service.py:86-91 | For any four non-empty words of ASCII letters, digits and hyphens whose hyphen-joined form fits in 50 characters, `"w1: w2 @w3 & w4!"` gives the four lower-cased words joined by hyphens. |
| `BranchName.SpecialCharsExample` | tests/unit/test_pr_service.py:156-160 | `(123, "Fix: Add @special & chars!")` gives `feature/123-fix-add-special-chars`. |
| `BranchName.NonAsciiDropped` | app/services/pr_service.py:88-90 | Characters outside the kept set vanish without splitting the word they sit in. |
| `BranchName.EmojiExample` | tests/integration/test_webhook_flow.py:212 | `(789, "Support UTF-8 émojis 🎉")` gives `feature/789-support-utf-8-mojis`. |
| `Lines.Collect` | app/services/pr_service.py:126-131 | The loop collects at most one entry per item. |
| `Lines.CollectConcat` | app/services/pr_service.py:127-131 | Collection keeps order: collecting a concatenation gives the entries of each part, in turn. |
| `Lines.CollectMembers` | app/services/pr_service.py:127-131 | An entry is collected exactly when some item yields it. |
| `Lines.CollectAll` | app/services/pr_service.py:210-215 | When every item yields an entry, the entries are the yields, one for one. |
| `Lines.CollectNone` | app/services/pr_service.py:132 | Items that all yield nothing give no entries, so the section is skipped. |
| `Lines.JoinEndsWithLast` | app/services/pr_service.py:292 | A joined document ends with its last line. |
| `PyValues.JoinStringsSplitsBack` | app/services/pr_service.py:173 | Joining newline-free string lines with `"\n"` succeeds, and splitting the result at newlines gives the lines back. |
| `PrBody.BodyViewOf` | app/services/pr_service.py:104-171 | Reading the sections succeeds exactly when both records are dicts and the labels and assignees can be iterated. Each of the six sections is then present exactly when the source's condition holds: a truthy `html_url` for "Closes #" with the issue number; a truthy body, kept as is; at least one label name, listed in backticks in order; at least one login, listed after `@` in order; a truthy estimate, with its rendered value; a truthy milestone, with its text. |
| `PrBody.PrBody` | app/services/pr_service.py:95-173 | The generator raises exactly when reading the sections raises or a truthy body is not a string. |
| `PrBody.PrBodyRaisesExactly` | app/services/pr_service.py:104-173 | The generator raises exactly when `github_issue` or `zenhub_issue` is not a dict, the labels or assignees cannot be iterated, or a truthy body is not a string. |
| `PrBody.CollectLabelNames` | app/services/pr_service.py:126-131 | The loop gives the label names of the specification, in order. |
| `PrBody.CollectLogins` | app/services/pr_service.py:151-158 | The loop gives the truthy logins and string assignees, in order. |
| `PrBody.GeneratePrBody` | app/services/pr_service.py:95-173 | The line-appending method computes exactly the specified body, including its exceptions. |
| `PrBody.ParseLayout` | app/services/pr_service.py:107-173 | Reading the lines back recovers every section: the layout is unambiguous. |
| `PrBody.BodyOpensWithCloses` | app/services/pr_service.py:110-114 | The body opens with "Closes #" exactly when the issue has a truthy URL. |
| `PrBody.LayoutLinesAreStrings` | app/services/pr_service.py:173 | The join cannot fail on a string body. |
| `PrBody.LayoutStringsExactly` | app/services/pr_service.py:173 | Every line to be joined is a string exactly when the description, if any, is one. |
| `PrBody.EnrichedBodyRenders` | app/services/pr_service.py:104-173 | For dict records, list labels and assignees and a string body, the generator does not raise. |
| `PrBody.StringLabelsListed` | app/services/pr_service.py:124-135 | Labels given as strings are listed, each quoted in backticks, in order. |
| `PrBody.StringAssigneesListed` | app/services/pr_service.py:149-162 | Assignees given as strings are listed, each after `@`, in order. |
| `PrBody.NamelessLabelsDropped` | app/services/pr_service.py:127-132 | Labels that are neither strings nor named dicts contribute nothing. |
| `ContextFile.ZenhubLines` | app/services/pr_service.py:242-265 | Raises exactly for a truthy non-dict record. The section is present exactly when the record is truthy, and opens with its header. |
| `ContextFile.DescriptionLines` | app/services/pr_service.py:268-273 | Raises exactly for a truthy non-string body. The section is present exactly when the body is not blank, and holds the body unchanged. |
| `ContextFile.FormatLabels` | app/services/pr_service.py:210-215 | The loop formats every label: dicts by their name (or "unknown") and strings as they are, in order. |
| `ContextFile.FormatAssignees` | app/services/pr_service.py:223-228 | The loop formats every assignee: dicts by their login (or "unknown") and strings as they are, in order. |
| `ContextFile.GenerateContextFile` | app/services/pr_service.py:175-292 | The line-appending method computes exactly the specified document, including its exceptions. |
| `ContextFile.ContextFile` | app/services/pr_service.py:175-292 | The document opens with `# Issue #<n>: <title>` and ends with the auto-generated footer. |
| `ContextFile.ContextLinesShape` | app/services/pr_service.py:189-290 | A generated document has at least 22 lines. Its fifth to eleventh lines are always the GitHub metadata block, and its last 11 lines the automation trailer, whichever optional sections appear. |
| `ContextFile.MissingIssueMetadataShown` | app/services/pr_service.py:199-204 | A missing URL, state, creation time or update time is shown as `N/A` on its own line. |
| `ContextFile.MissingWebhookMetadataShown` | app/services/pr_service.py:280-286 | A missing event type is shown as `unknown`, and a missing workspace or destination pipeline as `N/A`. |
| `ContextFile.ContextRaisesExactly` | app/services/pr_service.py:188-273 | The generator raises exactly when `github_issue` is not a dict, the labels or assignees are not iterable, a truthy `zenhub_issue` is not a dict, or a truthy body is not a string. |
| `ContextFile.EnrichedContextRenders` | app/services/pr_service.py:175-292 | An issue record from the GitHub enricher with a string body, plus a board record or none, never makes the generator raise. |
| `ContextFile.ZeroEstimateOnlyInContext` | app/services/pr_service.py:246-251 | A zero estimate is shown in the context file but not in the PR body, because one tests `is not None` and the other truthiness. |
| `ContextFile.EnrichedPipelineNeverShown` | app/services/pr_service.py:253-258 | The bare pipeline name the Zenhub enricher stores is never shown. |
| `ContextFile.RawPipelineShown` | app/services/pr_service.py:253-258 | A pipeline dict whose `name` is a non-empty string, whatever other keys it carries, is shown as `**Pipeline:** <name>`. |
| `ContextFile.StringLabelsQuoted` | app/services/pr_service.py:208-218 | String labels are all kept, in order. |
| `ContextFile.LoginlessAssigneeListed` | app/services/pr_service.py:226 | An assignee dict without a truthy login is listed in the context file but dropped from the PR body. |
| `PrService.AttemptFollowsPlan` | app/services/pr_service.py:312-365 | The `try` never lets an exception out. It makes a prefix of the three planned requests with their exact arguments, including the draft flag, and stops at the first failure. A title that is not a string makes no request. |
| `PrService.AttemptSucceedsExactly` | app/services/pr_service.py:314-361 | A result comes back exactly when all three requests were answered and the PR response has a number and a URL. It then names the created branch, the head of the draft PR, and the PR's number and URL. |
| `PrService.GateClosedNoRequests` | app/services/pr_service.py:305-306 | A closed gate returns `None` without any request. |
| `PrService.HandleRaisesExactly` | app/services/pr_service.py:305-310 | Only the gate and `int(issue_number)` can raise out of the handler. No request precedes them. |
| `PrService.Handle` | app/services/pr_service.py:294-365 | The handler makes at most three requests, and an exception escapes only before any request is made. |
| `PrService.BranchNamesTheIssue` | app/services/pr_service.py:314-320 | The created branch's name gives back the issue number. |
| `PrService.PrService.constructor` | app/services/pr_service.py:17-27 | The service holds the token and the base branch, `develop` by default. |
| `PrService.PrService.HandleIssueMoved` | app/services/pr_service.py:294-365 | The method's result and requests are those of the specified handler. |
| `PrService.BranchFails` | app/services/pr_service.py:314-320 | A branch that cannot be created ends the `try` with `None`, after exactly that one request. |
| `PrService.AttemptAfterBranch` | app/services/pr_service.py:314-361 | Once the branch exists, the handling is the context-file stage, and its requests follow the branch request. |
| `PrService.PrService.Try` | app/services/pr_service.py:312-365 | The `try` block as written gives the specified result and requests. |
| `PrService.PrService.TryCommitContext` | app/services/pr_service.py:323-335 | The context file is committed to the new branch at `.github/ISSUE_<n>.md`, and the handling goes on only if that request succeeds. |
| `PrService.PrService.TryOpenPullRequest` | app/services/pr_service.py:338-361 | A draft PR titled `[WIP] <title>` is opened from the branch to the base branch, and its number and URL are returned. |

## Left out

- Logging, `async`/`await`, the HTTP clients themselves, `main.py`, and loading settings from the environment with pydantic. Each client is a function parameter that maps a request to a response or an exception. The model therefore assumes a client answers the same request the same way.
- Time: the timestamp of the context file is the parameter `now`, in place of `datetime.now(UTC).isoformat()`.
- Unicode case mapping and character classes. `lower()`, `isalnum()` and `isspace()` are modelled on ASCII, and other characters are left unchanged. A non-ASCII character that `lower()` maps to an ASCII letter (the Kelvin sign becomes `k`) is therefore dropped by the model but kept by Python.
- `int(str)` accepts whitespace, one sign and ASCII digits. Underscores between digits and non-ASCII digits are not accepted. Floats are not values of the model, so an estimate of `2.5` cannot be expressed.
- `str(...)` of a non-empty dict renders as `{...}`, and a string inside a list is quoted with `'` without escaping. Iterating a non-empty dict, where a list of labels or assignees is expected, is an `Err` ("unsupported"), because a `map` does not keep insertion order.
- `Enrichers.FetchIssue`, `Enrichers.FetchBoard`: the client calls take no token argument. The tokens the clients hold are part of the client parameter.
- `PrService.Handle`, `PrService.PrService.HandleIssueMoved`: the context file and the PR body are computed before the first request and passed to the request sequence. They are pure functions of the payload and `now`, so this does not change the outcome, but it moves their point of evaluation. A generation error is used only when its step is reached.
- `WebhookService.WebhookService.ProcessWebhook`: each enricher is handed the accumulating dict itself, and the model passes it as a value. An enricher that changed its argument and then raised would leave its changes in the Python dict but not in the model. The two enrichers modelled copy the payload before changing it, so this does not arise for them.
- `PrService.Attempt`: an exception raised while computing the context file or the body is caught like a failed request. Its recorded effect is that the next request is not made.
- `BranchName.BranchName`: only the prefix is stated in its own contract. The slug's shape, the round trip of the number and the worked examples are separate lemmas.

## Notes on behaviour the model reproduces

- The gate's fallback reads `zenhub_issue.pipeline.name`, but the Zenhub enricher stores the bare pipeline name. For an event without `to_pipeline_name`, the gate raises (`PrGate.GateRaisesOnEnrichedPipeline`). For the same reason the context file never shows the pipeline of an enriched payload (`ContextFile.EnrichedPipelineNeverShown`).
- The integration test `test_issue_without_assignees_creates_pr` (tests/integration/test_webhook_flow.py:100-124) expects a PR for an issue without assignees. The code turns such an issue away, and the model follows the code (`PrGate.NoAssigneesNoPr`).
- A title containing " - " gets a run of three hyphens in its slug (`BranchName.SpacedHyphenTriples`), because only whitespace separates words.
- The two generators disagree on a zero estimate and on an assignee without a login (`ContextFile.ZeroEstimateOnlyInContext`, `ContextFile.LoginlessAssigneeListed`). A `None` title renders as "None".
