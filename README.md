# PR Config Tool — a verified model

The PR Config Tool is a desktop form. An operator picks a country and an
environment. The tool shows that pair's configuration row, read from a
spreadsheet, and submits it as a GitHub pull request: it resolves the base
branch, creates the head branch when it is missing, commits a Markdown file
describing the configuration, opens the pull request and labels it.

This project models that core in Dafny, in the source's own form:

- `config_reader.dfy` (module `ConfigStore`) models `ConfigReader`. It is a
  class whose `data` sequence is rebuilt by a loop in `Load`/`Reload`. The
  three queries are functions over that sequence. The spreadsheet is an
  input: the first row's cells, then the data rows. A missing file is
  `Source.Missing`.
- `pr_body.dfy` (module `PrBody`) models `build_pr_body` as a pure function
  of the ordered record.
- `github.dfy` (module `GitHub`) models `PRResult` and `GitHubPRCreator`
  against an abstract remote repository. A `Remote` holds:
  - the repository state: default branch, branch heads, the file tree
    of each commit by path, and pull requests. A branch holds the files
    of its head commit, so a new branch starts with its base's files;
  - the log of requests made;
  - a plan of failures by request position.

  Each REST call is one `Perform` on the remote. The creator's methods are
  proved equal to pure stage functions (`SubmitOn` and the stages it is
  built from). Lemmas about those functions state the workflow's
  properties.
- `app.dfy` (module `App`) models the window of main.py. `PRConfigApp` is a
  class whose event handlers update the selected record, the on-screen
  state (`Screen`), the message boxes opened so far and the remote. The
  same file holds:
  - the entry checks of `_create_pr`;
  - the head-branch and title derivation;
  - the configuration table;
  - the settings of settings.py.
- `values.dfy` holds what the other files share about Python values: cells
  (`None`, text, integers), truthiness, `str()` and the sort order.
- `records.dfy` holds the same for dicts as ordered entry lists with
  distinct keys, and `text.dfy` for the `str` methods used.
- `wrappers.dfy` holds `Option` and `Result`.

Behaviour follows the code, including where the names or the surrounding
comments suggest otherwise:

- The title template puts the environment in unchanged. It is not
  upper-cased (`App.DefaultTitle`).
- A failing label request makes the whole submission a failure, although
  the pull request is already open (`GitHub.LabelFailureAfterPullOpened`).
- When an environment is picked and no record matches, `_on_env_change`
  has already set the selected record to `None`. The table, preview,
  header and button stay as they were (`App.PRConfigApp.OnEnvironmentChange`).
- After a reload the Create button keeps its state even though the record
  is cleared. Pressing it then does nothing (`App.PRConfigApp.ReloadExcel`,
  `App.PRConfigApp.CreatePr`).

## Model

| member | source | states |
|---|---|---|
| Values.NatToString | main.py:492 | the decimal digits of a count, without leading zeros; the first digit is 0 only for zero |
| Values.ParseNatToString | main.py:492 | reading the digits back gives the number: the digits written determine the count |
| Values.IntToString | pr_creator.py:162 | `str(int)`: a minus sign exactly for negative numbers, then decimal digits without leading zeros ("0" alone for zero), reading back to the value |
| Values.StrLessIrreflexive | config_reader.py:36 | no text sorts before itself |
| Values.StrLessTransitive | config_reader.py:36 | the text order is transitive |
| Values.StrLessTotal | config_reader.py:36 | any two different texts are ordered one way or the other |
| Values.LessIrreflexive | config_reader.py:36 | the cell order is irreflexive |
| Values.LessTransitive | config_reader.py:36 | the cell order is transitive |
| Values.LessTotal | config_reader.py:36 | any two different cells are ordered |
| Values.Insert | config_reader.py:36 | inserting into an ascending list keeps it strictly ascending and adds exactly the new value |
| Values.SortedDistinct | config_reader.py:36 | `sorted(set(xs))` is strictly ascending and holds exactly the values of `xs` |
| Values.AscendingUnique | config_reader.py:36 | two strictly ascending lists with the same elements are equal, so the sorted result is unique |
| Records.Put | config_reader.py:29 | `d[k] = v` keeps keys distinct, stores the entry, leaves other entries in place and appends only a new key |
| Records.FirstOccurrences | config_reader.py:29 | exactly the keys given, each once |
| Records.FirstOccurrencesOrder | config_reader.py:29 | the keys stay in the order they first occur: of two kept keys, the earlier first occurs before the later one occurs at all |
| Records.FromPairs | config_reader.py:29 | `dict(pairs)` has distinct keys, in the order they first occur among the pairs, each holding its last pair's value |
| Records.FromPairsDistinct | config_reader.py:29 | without repeated keys `dict(pairs)` keeps every pair in order |
| Records.GetIsEntry | pr_creator.py:175-176 | in a dict, `d.get(k) == v` exactly when `(k, v)` is an entry |
| Text.Upper | pr_creator.py:178 | `upper()` keeps the length, turns each lower-case letter into its capital (code point minus 32), leaves none, and keeps every other character |
| Text.Lower | main.py:469 | `lower()` keeps the length, turns each capital into its lower-case letter (code point plus 32), leaves none, and keeps every other character |
| Text.Strip | main.py:456-458 | `strip()` removes only surrounding whitespace, leaves none at either end, and is empty exactly for blank text |
| Text.ReplaceChar | pr_creator.py:123 | `replace('/', '_')` keeps the length, leaves no `/` and keeps every other character |
| Text.ReplaceCharAppend | pr_creator.py:123 | replacing distributes over concatenation |
| Text.ReplaceCharAbsent | pr_creator.py:123 | replacing a character that does not occur changes nothing |
| Text.Join | pr_creator.py:170-174 | joining no lines gives the empty text and one line gives that line |
| Text.JoinFirst | pr_creator.py:170-174 | a part joined in front of others is followed by exactly one separator, then the join of the rest |
| Text.Repeat | main.py:427 | `s * n` has `n` times the length of `s`, and position `k` holds `s[k % len(s)]`: `s` written out `n` times |
| ConfigStore.Headers | config_reader.py:23 | the headers are exactly the truthy cells of the first row |
| ConfigStore.HeadersAppend | config_reader.py:23 | the headers keep column order: those of two stretches of the row are those of the first, then the second; one cell gives itself when truthy, nothing otherwise |
| ConfigStore.RowRecord | config_reader.py:29 | the record of a row has distinct keys, in the order the headers (up to the row's length) first occur |
| ConfigStore.LoadRecords | config_reader.py:26-31 | every kept record has a truthy Country and Environment and distinct keys; at most one record per row |
| ConfigStore.LoadRecordsAppend | config_reader.py:26-31 | rows are loaded one after another: loading `a + b` is loading `a`, then `b` |
| ConfigStore.DroppedRowAddsNothing | config_reader.py:27-31 | a blank row, or one without truthy Country and Environment, adds no record |
| ConfigStore.LoadedRecordsComeFromRows | config_reader.py:26-31 | every loaded record is a non-blank row zipped with the headers |
| ConfigStore.KeptRowsAreLoaded | config_reader.py:26-31 | every non-blank row with truthy Country and Environment is loaded |
| ConfigStore.RowRecordPairsColumns | config_reader.py:29 | a record's keys are the headers that have a cell; a header not repeated later maps to its own cell |
| ConfigStore.RowRecordOfDistinctHeaders | config_reader.py:29 | with distinct headers a record is exactly the zip of headers and cells |
| ConfigStore.FirstMatch | config_reader.py:41-45 | the first record in load order that matches both fields; `None` exactly when none matches |
| ConfigStore.EnvironmentsOf | config_reader.py:39 | exactly the Environment values of the records of that country |
| ConfigStore.ConfigReader.constructor | config_reader.py:11-13 | the reader keeps the path and starts with no records; the first `Load` follows |
| ConfigStore.ConfigReader.Load | config_reader.py:16-33 | a missing file fails with "Config file not found: <path>" and leaves the records unchanged; otherwise the records are replaced by those loaded from the current rows |
| ConfigStore.ConfigReader.Reload | config_reader.py:47-48 | the same as the first load, against the file as it is now |
| ConfigStore.ConfigReader.Countries | config_reader.py:35-36 | strictly ascending; exactly the stored Country values, all truthy |
| ConfigStore.ConfigReader.Environments | config_reader.py:38-39 | strictly ascending; exactly the Environment values of that country's records; empty when no record has the country |
| ConfigStore.ConfigReader.GetConfig | config_reader.py:41-45 | the first matching record in load order, `None` exactly when no record matches |
| PrBody.Listed | pr_creator.py:169-174 | the entries with a table line are exactly those whose key is not skipped and whose value is not `None`, kept in record order, with distinct keys |
| PrBody.BuildPrBody | pr_creator.py:167-190 | the body starts with the heading (country and upper-cased environment) and ends with the footer (both unchanged); the listed lines follow the table head |
| PrBody.ListedOncePerKey | pr_creator.py:169-174 | a key has a table line carrying `v` exactly when the record holds `v` there, the key is not skipped and `v` is not `None`; no key has two lines |
| PrBody.TableLinesFollowListed | pr_creator.py:170-172 | line `i` of the table is `` \| `k` \| `v` \| `` for the `i`-th listed entry |
| PrBody.ListedKeepsRecordOrder | pr_creator.py:170-174 | two table lines appear in the order of their entries in the record |
| GitHub.Serve | pr_creator.py:44-45 | the remote's answer has the requested kind; a refused request changes nothing; no branch, commit or pull request is ever deleted |
| GitHub.Perform | pr_creator.py:28-45 | each request is logged; a planned failure is raised and leaves the repository untouched; otherwise the repository serves it |
| GitHub.DefaultBranchOn | pr_creator.py:47-49 | the repository's `default_branch`, or "main" when the answer lacks one |
| GitHub.BranchExistsOn | pr_creator.py:51-58 | true on an answer, false on a 404, any other failure passed on |
| GitHub.CreateBranchOn | pr_creator.py:60-69 | the base ref is read first; on success the new branch (which did not exist) points at the base's commit and no other branch changes; the new branch holds the base's files; on failure no branch changes; no commit is made and pull requests never change |
| GitHub.PayloadSha | pr_creator.py:84-98 | the write carries a sha exactly when the probe answered with a non-empty one, and then that sha |
| GitHub.UpsertFileOn | pr_creator.py:71-100 | the file is probed first; no pull request changes |
| GitHub.ResolveBaseOn | pr_creator.py:112-113 | the default branch is asked for first; the repository is only read |
| GitHub.EnsureHeadOn | pr_creator.py:116-117 | no commit is made and pull requests stay as they are |
| GitHub.OpenPullOn | pr_creator.py:129-148 | the pull request is opened first; no label request without labels |
| GitHub.ConfigPath | pr_creator.py:123 | `configs/` + head with every `/` as `_` + `.md` |
| GitHub.CommittedTexts | pr_creator.py:120-125 | the committed file starts with the comment header naming the title and ends with the whole body; the commit message ends with the title |
| GitHub.ErrorTextShape | pr_creator.py:156-164 | an HTTP failure reads "GitHub API error <code>: <message>"; any other failure leaves its own text |
| GitHub.SubmitOn | pr_creator.py:102-164 | on success one new pull request with the title, body, head and labels, against the resolved base (the requested branch if it exists, else the default), numbered and addressed as the result says; on failure no URL and number 0 |
| GitHub.SubmitNumberHeadOn | pr_creator.py:110-164 | with an int head the run always fails, after the branch steps and before any file or pull request: no commit is made, no pull request opened and no label request made |
| GitHub.SubmitAsksForDefaultBranchFirst | pr_creator.py:112 | the first request of a submission asks for the repository's default branch |
| GitHub.ResolveBaseWithoutFaults | pr_creator.py:112-113 | the base is the requested branch when it exists, otherwise the default branch (or "main") |
| GitHub.EnsureHeadWithoutFaults | pr_creator.py:116-117 | an existing head is left alone; a missing head is created at the base's commit |
| GitHub.UpsertPayloadSha | pr_creator.py:84-98 | the write carries the probed sha exactly when it is truthy; a 404 probe gives a write without sha |
| GitHub.UpsertStopsOnProbeFailure | pr_creator.py:88-90 | a probe failure other than 404 ends the upsert with that failure, before any write |
| GitHub.UpsertWithoutFaults | pr_creator.py:84-100 | without failures the file is probed, then written with its current sha (or none) |
| GitHub.OpenPullWithoutFaults | pr_creator.py:129-154 | a new head/base pair opens the next-numbered pull request with the labels; the label request comes last |
| GitHub.OpenPullRefused | pr_creator.py:136-140 | a second pull request for the same head and base is refused and nothing changes |
| GitHub.OpenPullLabelFault | pr_creator.py:143-148 | a failed label request leaves the new pull request open and unlabelled |
| GitHub.NoLabelsNoLabelRequest | pr_creator.py:143 | without labels, no label request is made whatever happens |
| GitHub.LabelsRequestedLast | pr_creator.py:143-148 | with labels, a successful submission ends with the label request for the new pull request |
| GitHub.PrefixExistingHead | pr_creator.py:112-126 | an existing head gives five requests: base kept, no branch created, file written over its sha |
| GitHub.PrefixNewHead | pr_creator.py:112-126 | a missing head gives seven requests: the branch is created at the base's commit with the base's files, and the file is written over the sha of the base's copy, or without sha when the base has none |
| GitHub.FirstSubmission | pr_creator.py:102-154 | when neither the head nor a config file for it on the base exists, the submission creates the branch, commits the file without sha, opens and labels the pull request, and succeeds with its URL and number |
| GitHub.Resubmission | pr_creator.py:116-141 | submitting again for a head with an open pull request creates no branch, rewrites the file and fails with the remote's refusal |
| GitHub.LabelFailureAfterPullOpened | pr_creator.py:143-162 | a failing label request fails the submission, though the pull request stays open |
| GitHub.FailureKeepsCreatedBranch | pr_creator.py:116-126 | when the probe after branch creation fails, the submission fails and the new branch stays |
| GitHub.NumberHeadFailsAfterCreatingBranch | pr_creator.py:113-164 | a missing numeric head is created at the base's commit under its decimal name, then the run fails with "'int' object has no attribute 'replace'" and nothing else changes |
| GitHub.GitHubPRCreator.constructor | pr_creator.py:23-26 | keeps the token, owner, repository and remote |
| GitHub.GitHubPRCreator.Request | pr_creator.py:28-45 | one request applied to the remote |
| GitHub.GitHubPRCreator.GetDefaultBranch | pr_creator.py:47-49 | equals `DefaultBranchOn` on the remote |
| GitHub.GitHubPRCreator.BranchExists | pr_creator.py:51-58 | equals `BranchExistsOn` on the remote |
| GitHub.GitHubPRCreator.CreateBranch | pr_creator.py:60-69 | equals `CreateBranchOn` on the remote |
| GitHub.GitHubPRCreator.UpdateOrCreateFile | pr_creator.py:71-100 | equals `UpsertFileOn`; the payload's sha is added only when truthy |
| GitHub.GitHubPRCreator.ResolveBase | pr_creator.py:111-113 | equals `ResolveBaseOn` on the remote |
| GitHub.GitHubPRCreator.EnsureHead | pr_creator.py:115-117 | equals `EnsureHeadOn` on the remote |
| GitHub.GitHubPRCreator.OpenPull | pr_creator.py:128-148 | equals `OpenPullOn` on the remote |
| GitHub.GitHubPRCreator.CreatePr | pr_creator.py:102-164 | equals `SubmitOn`: the first failure ends the run with its error text, nothing is undone |
| GitHub.GitHubPRCreator.CreatePrNumberHead | pr_creator.py:110-164 | the same call given an int head: equals `SubmitNumberHeadOn` |
| App.Format | main.py:470 | a template without placeholders comes out unchanged |
| App.FormatPlainPrefix | main.py:470 | text before the first brace is copied as it is |
| App.FormatCountry | main.py:470 | `{country}` is replaced by the country text |
| App.FormatEnvironment | main.py:470 | `{environment}` is replaced by the environment text |
| App.FormatTwoFields | main.py:470 | a template with `{country}` then `{environment}` gets both texts in place, as they are |
| App.DefaultTitle | settings.py:24 | the shipped template gives `config(<country>): Update <environment> configuration`, without upper-casing |
| App.CheckEntries | main.py:456-465 | nothing is sent unless the stripped token is non-empty and not the placeholder, and owner and repository are not blank; the token is checked first |
| App.ShippedTokenRefused | main.py:460-462 | the token settings.py ships with is refused with "Missing Token" |
| App.HeadBranch | main.py:469 | a truthy BRANCH_NAME cell is the branch as it is (text or a number); otherwise the text `feature/` + the slug, which has no capital letter and ends in `-config` |
| App.BranchSlug | main.py:469 | the lower-cased country, `-`, the lower-cased environment, `-config`; no capital letter |
| App.DerivedBranchFile | main.py:469 | without BRANCH_NAME the file is `configs/feature_<country>-<environment>-config.md` in lower case |
| App.TableRows | main.py:408-413 | the rows are exactly those of the entries whose key is not skipped, a `None` shown as a dash and the entry's own position deciding the tag |
| App.TableRowsOrder | main.py:409-413 | the rows keep record order: of two rows the earlier comes from an earlier entry |
| App.TableAgreesWithBody | main.py:408-413 | a non-`None` value has a table row exactly when it has a body line |
| App.NullShownInTableOnly | main.py:413 | a `None` value gets a row showing a dash, but no body line |
| App.PreviewShowsTitleAndBody | main.py:417-428 | the preview starts with the title and ends with the whole pull-request body |
| App.DoneReport | main.py:489-503 | success: a question box ending with the URL and a status naming the number; failure: an error box "PR Creation Failed" with the error, which also ends the status |
| App.SubmitBranchOn | main.py:476-484 | a success opens a pull request whose head is the branch text; a numeric branch always fails without writing a file or opening a pull request |
| App.OfferedTextNotEmpty | main.py:130-149 | a read-only combo box of truthy values never offers empty text |
| App.PRConfigApp.constructor | main.py:40-52 | the settings' workbook is loaded, or an "Excel Error" box opens; the country list is filled from the reader |
| App.PRConfigApp.LoadReader | main.py:57-61 | a new reader replaces the old one unless the file is missing, which opens an "Excel Error" box and keeps the old reader |
| App.PRConfigApp.PopulateCountries | main.py:348-355 | with a reader the countries are refilled and both selections and the environment list emptied |
| App.PRConfigApp.ClearPreview | main.py:437-445 | table and preview emptied, prompt in the header, no badge, no record |
| App.PRConfigApp.BrowseExcel | main.py:357-366 | a cancelled dialog changes nothing; otherwise load, refill, clear |
| App.PRConfigApp.ReloadExcel | main.py:368-376 | a missing file opens "Reload Error" and changes nothing else; otherwise the records are reloaded, the lists refilled, the preview cleared and the status set |
| App.PRConfigApp.OnCountryChange | main.py:378-384 | its environments become the choices; the environment, the record and the preview are cleared; the button is disabled |
| App.PRConfigApp.OnEnvironmentChange | main.py:386-401 | the first matching record is shown and the button enabled; without a match a warning opens, the record becomes `None` and the rest stays |
| App.PRConfigApp.ShowRecord | main.py:397-401 | the table, preview, header, badge, button and status show the record |
| App.PRConfigApp.RefreshTable | main.py:403-415 | the table becomes the rows of the record, built row by row |
| App.PRConfigApp.RefreshPreview | main.py:417-428 | the preview shows the title, a rule and the body of the record |
| App.PRConfigApp.UpdateHeader | main.py:430-435 | the header and the badge name the country and the upper-cased environment |
| App.PRConfigApp.EditEntries | main.py:155-183 | typing into the GitHub entries changes only those entries |
| App.PRConfigApp.CreatePr | main.py:452-487 | no record: nothing happens (no request, no box, the window unchanged); a failed check: its error box and no request; otherwise the record's title, body and head branch go to base "main" with the configured labels, and the outcome is shown |
| App.PRConfigApp.Submit | main.py:473-487 | the remote goes through `SubmitBranchOn` with the derived fields (`SubmitOn` for a text branch); then the outcome is shown |
| App.PRConfigApp.OnPrDone | main.py:489-503 | the button returns; success shows the number and a question box with the URL; failure shows the error in the status and an error box |

## Left out

- Tkinter layout, colours, fonts and the environment colour badge (`ENV_COLORS`). The window is reduced to the texts, choices and button state it shows.
- The worker thread and `self.after` handoff. `_create_pr` runs the submission synchronously, so nothing can change the window between the click and `_on_pr_done`.
- The answer to the "Open in browser?" question and `webbrowser.open`. The question box is recorded; what the operator answers is not.
- HTTP transport, headers, JSON encoding and the base64 encoding of the file content. The remote receives the content text as it is.
- Parsing the JSON error body for its `message`. A failure carries its message directly.
- The status codes the remote uses (404 for a missing branch, file or pull request; 422 for a refused request) are illustrative. The real service decides them.
- Commit and blob ids come from a counter in the repository state, not from hashing content. A starting state that already has a commit under the counter's next name is not excluded, and a write then replaces that commit's tree. A branch whose head commit has no tree in the state holds no files. GitHub would refuse a ref to an unknown commit.
- The remote is one repository. The token, owner and repository name are kept by the creator but do not select or authorise anything.
- openpyxl and the file system. The sheet's first row and data rows are an input, and a missing file is `Source.Missing`. Corrupt workbooks and other load errors are not modelled.
- ConfigStore.ConfigReader.Load: the error text uses the path as given. `str(Path(p))` would normalise it (for example by dropping a trailing slash).
- Cells holding booleans, floats or dates. Cells are `None`, text or integers.
- Values.Less: mixed text and integer cells in the Country or Environment column are ordered integers first. Python's `sorted` raises a TypeError on such a mix.
- Text.Upper and Text.Lower change ASCII letters only. Python's full Unicode case mapping is not modelled.
- App.Format fills in only `{country}` and `{environment}`. Other fields, format specifications and brace escapes are not modelled.
- PrBody.BuildPrBody requires the Environment key to be absent or to hold text. On a `None` cell or a number, `environment.upper()` raises an AttributeError, and that exception is not modelled. Every record the window can select has text there, because it was picked by text in the combo boxes.
- App.HeadBranch requires the Country and Environment values to be text unless BRANCH_NAME is truthy. Otherwise Python's `.lower()` raises, and that exception is not modelled.
- App.PRConfigApp.OnCountryChange and App.PRConfigApp.OnEnvironmentChange require the picked text to be one of the combo box's choices, because the boxes are read-only.
- The TypeScript files of the repository are Angular wiring with no logic of this tool and are not part of this model.
- The `_hover` and `_build_sidebar_section` helpers only style widgets.
