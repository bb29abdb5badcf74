/**
 * The window of main.py (`PRConfigApp`): it picks a country and an
 * environment from the configuration store, shows the record as a table
 * and as a pull-request preview, checks the GitHub settings typed into the
 * sidebar, and submits the pull request.
 */
module App {
  import opened Wrappers
  import opened Values
  import opened Records
  import opened Text
  import opened ConfigStore
  import opened PrBody
  import opened GitHub

  // ---------------------------------------------------------------------------
  // Settings (settings.py)
  // ---------------------------------------------------------------------------

  datatype Settings = Settings(
    token: string,
    owner: string,
    repo: string,
    excelPath: string,
    labels: seq<string>,
    titleTemplate: string)

  /** The values settings.py ships with. */
  const DEFAULT_SETTINGS: Settings := Settings(
    "ghp_YOUR_TOKEN_HERE",
    "your-org",
    "your-repo",
    "sample_config.xlsx",
    ["config", "automated"],
    // "config({country}): Update {environment} configuration", written in pieces at its placeholders
    "config(" + "{country}" + "): Update " + "{environment}" + " configuration")

  /** The branch every pull request targets. */
  const BASE_BRANCH: string := "main"

  // ---------------------------------------------------------------------------
  // The title: `template.format(country=…, environment=…)`
  // ---------------------------------------------------------------------------

  /** Fills `{country}` and `{environment}` in with the given texts, as they are. */
  function Format(template: string, country: string, environment: string): (r: string)
    ensures '{' !in template ==> r == template
    decreases |template|
  {
    if template == [] then ""
    else if StartsWith(template, "{country}") then
      assert template[0] == "{country}"[0] == '{';
      country + Format(template[9..], country, environment)
    else if StartsWith(template, "{environment}") then
      assert template[0] == "{environment}"[0] == '{';
      environment + Format(template[13..], country, environment)
    else
      assert template[0] != '{' ==> '{' !in template ==> '{' !in template[1..];
      [template[0]] + Format(template[1..], country, environment)
  }

  /** Text without a placeholder is copied through unchanged. */
  lemma {:induction false} FormatPlainPrefix(plain: string, rest: string, country: string, environment: string)
    requires '{' !in plain
    ensures Format(plain + rest, country, environment) == plain + Format(rest, country, environment)
    decreases |plain|
  {
    if plain != [] {
      var t := plain + rest;
      assert t[0] == plain[0] && t[0] != '{';
      assert !StartsWith(t, "{country}") && !StartsWith(t, "{environment}");
      assert t[1..] == plain[1..] + rest;
      FormatPlainPrefix(plain[1..], rest, country, environment);
      assert plain == [plain[0]] + plain[1..];
    } else {
      assert plain + rest == rest;
    }
  }

  lemma FormatCountry(rest: string, country: string, environment: string)
    ensures Format("{country}" + rest, country, environment) == country + Format(rest, country, environment)
  {
    var t := "{country}" + rest;
    assert t[..9] == "{country}" && t[9..] == rest;
  }

  lemma FormatEnvironment(rest: string, country: string, environment: string)
    ensures Format("{environment}" + rest, country, environment) == environment + Format(rest, country, environment)
  {
    var t := "{environment}" + rest;
    assert t[1] == 'e' && "{country}"[1] == 'c';
    assert t[..9] != "{country}";
    assert t[..13] == "{environment}" && t[13..] == rest;
  }

  /** A template with one `{country}` and then one `{environment}` gets both values in place. */
  lemma FormatTwoFields(a: string, b: string, c: string, country: string, environment: string)
    requires '{' !in a && '{' !in b && '{' !in c
    ensures Format(a + ("{country}" + (b + ("{environment}" + c))), country, environment) ==
            a + (country + (b + (environment + c)))
  {
    var t3 := "{environment}" + c;
    var t2 := b + t3;
    var t1 := "{country}" + t2;
    FormatEnvironment(c, country, environment);
    FormatPlainPrefix(b, t3, country, environment);
    FormatCountry(t2, country, environment);
    FormatPlainPrefix(a, t1, country, environment);
  }

  /** The shipped template puts both values in as they are: the environment is not upper-cased. */
  lemma DefaultTitle(country: string, environment: string)
    ensures Format(DEFAULT_SETTINGS.titleTemplate, country, environment) ==
            "config(" + country + "): Update " + environment + " configuration"
  {
    Regroup("config(", "{country}", "): Update ", "{environment}", " configuration");
    FormatTwoFields("config(", "): Update ", " configuration", country, environment);
    Regroup("config(", country, "): Update ", environment, " configuration");
  }

  lemma Regroup(a: string, b: string, c: string, d: string, e: string)
    ensures a + (b + (c + (d + e))) == a + b + c + d + e
  {
  }

  /** `str(config.get(key, ""))`. */
  function FieldText(config: Record, key: Value): string {
    Render(Get(config, key).GetOr(Str("")))
  }

  /** The pull request's title for a record. */
  function Title(template: string, config: Record): string {
    Format(template, FieldText(config, COUNTRY), FieldText(config, ENVIRONMENT))
  }

  // ---------------------------------------------------------------------------
  // Checking the sidebar entries before anything is sent
  // ---------------------------------------------------------------------------

  datatype AlertKind = ErrorBox | WarningBox | QuestionBox

  /** A message box: its kind, its title and its text. */
  datatype Alert = Alert(kind: AlertKind, title: string, message: string)

  const MISSING_TOKEN: Alert := Alert(ErrorBox, "Missing Token", "Please enter a valid GitHub Personal Access Token.")
  const MISSING_REPO: Alert := Alert(ErrorBox, "Missing Repo", "Please enter the GitHub owner and repository name.")

  /** The placeholder token of settings.py starts with this. */
  const PLACEHOLDER_PREFIX: string := "ghp_YOUR"

  /** A token is accepted when, stripped, it is not empty and is not the placeholder. */
  predicate TokenAccepted(entry: string) {
    var token := Strip(entry);
    token != "" && !StartsWith(token, PLACEHOLDER_PREFIX)
  }

  /**
   * The checks of `_create_pr`, in order: the token first, then owner and
   * repository. `None` lets the submission go ahead.
   */
  function CheckEntries(tokenEntry: string, ownerEntry: string, repoEntry: string): (r: Option<Alert>)
    ensures r.None? <==> TokenAccepted(tokenEntry) && !AllSpace(ownerEntry) && !AllSpace(repoEntry)
    ensures r == Some(MISSING_TOKEN) <==> !TokenAccepted(tokenEntry)
    ensures r == Some(MISSING_REPO) <==> TokenAccepted(tokenEntry) && (AllSpace(ownerEntry) || AllSpace(repoEntry))
  {
    if !TokenAccepted(tokenEntry) then Some(MISSING_TOKEN)
    else if Strip(ownerEntry) == "" || Strip(repoEntry) == "" then Some(MISSING_REPO)
    else None
  }

  /** The placeholder token settings.py ships with is refused before anything is sent. */
  lemma ShippedTokenRefused(ownerEntry: string, repoEntry: string)
    ensures CheckEntries(DEFAULT_SETTINGS.token, ownerEntry, repoEntry) == Some(MISSING_TOKEN)
  {
    var t := DEFAULT_SETTINGS.token;
    assert LeadingSpace(t) == 0 && t[0..] == t;
    assert TrailingSpace(t) == 0 && t[..|t|] == t;
    assert t[..|PLACEHOLDER_PREFIX|] == PLACEHOLDER_PREFIX;
  }

  // ---------------------------------------------------------------------------
  // The head branch
  // ---------------------------------------------------------------------------

  /** `.lower()` needs text: the Country entry, when present, holds a string. */
  predicate CountryIsText(config: Record) {
    Get(config, COUNTRY).None? || Get(config, COUNTRY).value.Str?
  }

  /** The branch named in the record's BRANCH_NAME, when that is truthy. */
  predicate HasBranchOverride(config: Record) {
    Get(config, BRANCH_NAME).Some? && Truthy(Get(config, BRANCH_NAME).value)
  }

  /**
   * `config.get("BRANCH_NAME") or f"feature/{country.lower()}-{env.lower()}-config"`:
   * the record's BRANCH_NAME cell as it is (text or a number) when it is
   * truthy, otherwise the derived lower-case name.
   */
  function HeadBranch(config: Record): (branch: Value)
    requires HasBranchOverride(config) || (CountryIsText(config) && EnvironmentIsText(config))
    ensures branch.Str? || branch.Int?
    ensures HasBranchOverride(config) ==> branch == Get(config, BRANCH_NAME).value
    ensures !HasBranchOverride(config) ==>
              && branch == Str("feature/" + BranchSlug(config))
              && StartsWith(branch.s, "feature/") && EndsWith(branch.s, "-config") && NoUpperAscii(branch.s)
  {
    if HasBranchOverride(config) then Get(config, BRANCH_NAME).value
    else
      var slug := BranchSlug(config);
      assert slug[|slug| - 7..] == "-config";
      NoUpperAsciiAppend("feature/", slug);
      Str("feature/" + slug)
  }

  /** `<country>-<environment>-config`, each field lower-cased. */
  function BranchSlug(config: Record): (slug: string)
    ensures slug == Lower(FieldText(config, COUNTRY)) + "-" + Lower(FieldText(config, ENVIRONMENT)) + "-config"
    ensures EndsWith(slug, "-config") && NoUpperAscii(slug)
  {
    var country, environment := Lower(FieldText(config, COUNTRY)), Lower(FieldText(config, ENVIRONMENT));
    NoUpperAsciiAppend(country, "-");
    NoUpperAsciiAppend(country + "-", environment);
    NoUpperAsciiAppend(country + "-" + environment, "-config");
    var slug := country + "-" + environment + "-config";
    assert slug[|slug| - 7..] == "-config";
    slug
  }

  /**
   * Without a BRANCH_NAME, and with no `/` in the country or environment, the
   * config file lands at `configs/feature_<country>-<environment>-config.md`.
   */
  lemma DerivedBranchFile(config: Record)
    requires CountryIsText(config) && EnvironmentIsText(config) && !HasBranchOverride(config)
    requires '/' !in FieldText(config, COUNTRY) && '/' !in FieldText(config, ENVIRONMENT)
    ensures ConfigPath(HeadBranch(config).s) ==
            "configs/" + ("feature_" + (Lower(FieldText(config, COUNTRY)) + "-" + Lower(FieldText(config, ENVIRONMENT)) + "-config")) + ".md"
  {
    LowerKeepsSlashFree(FieldText(config, COUNTRY));
    LowerKeepsSlashFree(FieldText(config, ENVIRONMENT));
    var slug := BranchSlug(config);
    assert '/' !in slug;
    ReplaceCharAppend("feature/", slug, '/', '_');
    ReplaceCharAbsent(slug, '/', '_');
    FeaturePrefixReplaced();
    assert HeadBranch(config).s == "feature/" + slug;
    assert ReplaceChar(HeadBranch(config).s, '/', '_') == "feature_" + slug;
    assert slug == Lower(FieldText(config, COUNTRY)) + "-" + Lower(FieldText(config, ENVIRONMENT)) + "-config";
    assert ConfigPath(HeadBranch(config).s) == "configs/" + ("feature_" + slug) + ".md";
  }

  lemma FeaturePrefixReplaced()
    ensures ReplaceChar("feature/", '/', '_') == "feature_"
  {
    var s, r := "feature/", ReplaceChar("feature/", '/', '_');
    assert forall k :: 0 <= k < 7 ==> s[k] != '/' && r[k] == s[k];
    assert r[7] == '_';
  }

  lemma LowerKeepsSlashFree(s: string)
    requires '/' !in s
    ensures '/' !in Lower(s)
  {
    var r := Lower(s);
    forall k | 0 <= k < |r| ensures r[k] != '/' {
      assert s[k] != '/';
    }
  }

  // ---------------------------------------------------------------------------
  // The configuration table and the preview
  // ---------------------------------------------------------------------------

  /** The row tags the table alternates, by the entry's position in the record. */
  datatype RowTag = Even | Odd

  /** One table row: the key, the value shown and the row's tag. */
  datatype TableRow = TableRow(key: Value, shown: Value, tag: RowTag)

  /** What the table shows for a `None` value. */
  const EM_DASH: Value := Str("\U{2014}")

  /** The row for entry `i`: a `None` value is shown as a dash, the tag follows the entry's own position. */
  function RowFor(config: Record, i: nat): TableRow
    requires i < |config|
  {
    TableRow(config[i].0, if config[i].1 != Null then config[i].1 else EM_DASH, if i % 2 == 0 then Even else Odd)
  }

  /** The rows for the first `n` entries: one for each entry whose key is not skipped, in order. */
  function TableRows(config: Record, n: nat): (rows: seq<TableRow>)
    requires n <= |config|
    ensures |rows| <= n
    ensures forall row :: row in rows <==> exists i :: 0 <= i < n && !Skipped(config[i].0) && row == RowFor(config, i)
  {
    if n == 0 then []
    else
      var prev := TableRows(config, n - 1);
      if Skipped(config[n - 1].0) then prev else prev + [RowFor(config, n - 1)]
  }

  /**
   * The rows keep the record's order: of two rows, the earlier one comes
   * from an earlier entry.
   */
  lemma {:induction false} TableRowsOrder(config: Record, n: nat, p: nat, q: nat)
    requires n <= |config| && p < q < |TableRows(config, n)|
    ensures exists i, j :: 0 <= i < j < n && TableRows(config, n)[p] == RowFor(config, i) && TableRows(config, n)[q] == RowFor(config, j)
    decreases n
  {
    var rows, prev := TableRows(config, n), TableRows(config, n - 1);
    if Skipped(config[n - 1].0) || q < |prev| {
      assert rows[p] == prev[p] && rows[q] == prev[q];
      TableRowsOrder(config, n - 1, p, q);
      var i, j :| 0 <= i < j < n - 1 && prev[p] == RowFor(config, i) && prev[q] == RowFor(config, j);
    } else {
      assert rows[q] == RowFor(config, n - 1) && rows[p] == prev[p];
      assert prev[p] in prev;
      var i :| 0 <= i < n - 1 && !Skipped(config[i].0) && prev[p] == RowFor(config, i);
    }
  }

  /**
   * The table and the body agree on every entry they both show: a value
   * other than `None` (and other than the dash itself) has a table row
   * exactly when it has a body line.
   */
  lemma TableAgreesWithBody(config: Record, k: Value, v: Value)
    requires v != Null && v != EM_DASH
    ensures (k, v) in Listed(config) <==> exists t :: TableRow(k, v, t) in TableRows(config, |config|)
  {
    var rows := TableRows(config, |config|);
    if (k, v) in Listed(config) {
      var i :| 0 <= i < |config| && config[i] == (k, v);
      assert RowFor(config, i) in rows;
    }
    if exists t :: TableRow(k, v, t) in rows {
      var t :| TableRow(k, v, t) in rows;
      var i :| 0 <= i < |config| && !Skipped(config[i].0) && TableRow(k, v, t) == RowFor(config, i);
      assert config[i] == (k, v);
    }
  }

  /** A `None` value still gets a table row, showing a dash, although the body leaves it out. */
  lemma NullShownInTableOnly(config: Record, i: nat)
    requires i < |config| && !Skipped(config[i].0) && config[i].1 == Null
    ensures exists t :: TableRow(config[i].0, EM_DASH, t) in TableRows(config, |config|)
    ensures config[i] !in Listed(config)
  {
    assert RowFor(config, i) in TableRows(config, |config|);
  }

  /** The preview pane: the title, a rule of 40 box-drawing dashes, then the body. */
  function PreviewText(template: string, config: Record): string
    requires EnvironmentIsText(config)
  {
    "TITLE:\n" + Title(template, config) + "\n\n" + Repeat("\U{2500}", 40) + "\n\nBODY:\n" + BuildPrBody(config)
  }

  /** The preview opens with the pull request's title and closes with its whole body. */
  lemma PreviewShowsTitleAndBody(template: string, config: Record)
    requires EnvironmentIsText(config)
    ensures StartsWith(PreviewText(template, config), "TITLE:\n" + Title(template, config) + "\n\n")
    ensures EndsWith(PreviewText(template, config), "\n\nBODY:\n" + BuildPrBody(config))
  {
    PieceEnds("TITLE:\n", Title(template, config), "\n\n", Repeat("\U{2500}", 40), "\n\nBODY:\n", BuildPrBody(config));
  }

  lemma PieceEnds(a: string, b: string, c: string, d: string, e: string, f: string)
    ensures StartsWith(a + b + c + d + e + f, a + b + c)
    ensures EndsWith(a + b + c + d + e + f, e + f)
  {
    var t := a + b + c + d + e + f;
    assert t == (a + b + c) + (d + (e + f));
    assert t[..|a + b + c|] == a + b + c;
    assert t == (a + b + c + d) + (e + f);
    assert t[|t| - |e + f|..] == e + f;
  }

  // ---------------------------------------------------------------------------
  // The window
  // ---------------------------------------------------------------------------

  const PROMPT: string := "Select a country and environment to begin"
  const READY: string := "Ready"
  const BUTTON_LABEL: string := "\U{1F680}  Create Pull Request"
  const BUTTON_BUSY: string := "\U{23F3}  Creating PR\U{2026}"
  const CREATING_STATUS: string := "Creating Pull Request on GitHub\U{2026}"
  const RELOADED_STATUS: string := "\U{2705} Excel reloaded successfully"

  /**
   * What the window shows: the path entry, the two read-only combo boxes
   * (their choices and the text picked), the three GitHub entries, the
   * header and its badge, the status bar, the Create button, the table
   * rows and the preview text.
   */
  datatype Screen = Screen(
    excelPath: string,
    countryChoices: seq<Value>,
    country: string,
    environmentChoices: seq<Value>,
    environment: string,
    token: string,
    owner: string,
    repo: string,
    header: string,
    badge: string,
    status: string,
    buttonEnabled: bool,
    buttonText: string,
    table: seq<TableRow>,
    preview: string)

  /** The window as `_build_ui` leaves it, before the country list is filled. */
  function InitialScreen(settings: Settings): (s: Screen)
    ensures s.excelPath == settings.excelPath && s.token == settings.token
    ensures s.owner == settings.owner && s.repo == settings.repo
    ensures s.country == "" && s.environment == "" && s.table == [] && s.preview == ""
    ensures s.header == PROMPT && s.status == READY && !s.buttonEnabled && s.buttonText == BUTTON_LABEL
  {
    Screen(settings.excelPath, [], "", [], "", settings.token, settings.owner, settings.repo,
           PROMPT, "", READY, false, BUTTON_LABEL, [], "")
  }

  /** `_populate_countries` with a reader: new country choices, both selections and the environment choices emptied. */
  function Repopulated(s: Screen, countries: seq<Value>): Screen {
    s.(countryChoices := countries, country := "", environmentChoices := [], environment := "")
  }

  /** `_clear_preview` on the screen: no rows, no preview, the prompt in the header, no badge. */
  function Cleared(s: Screen): Screen {
    s.(table := [], preview := "", header := PROMPT, badge := "")
  }

  /** `f"{country}  ›  {env.upper()}"`. */
  function HeaderText(country: string, environment: string): string {
    country + "  \U{203A}  " + Upper(environment)
  }

  /** The status line `_on_pr_done` writes. */
  function DoneStatus(r: PRResult): string {
    if r.success then "\U{2705}  PR #" + NatToString(r.prNumber) + " created successfully!"
    else "\U{274C}  PR creation failed: " + r.error
  }

  /** The message box `_on_pr_done` opens: a yes/no question on success, an error otherwise. */
  function DoneAlert(r: PRResult): Alert {
    if r.success then
      Alert(QuestionBox, "Pull Request Created",
            "\U{2705} PR #" + NatToString(r.prNumber) + " was created successfully!\n\nURL: " + r.prUrl + "\n\nOpen in browser?")
    else Alert(ErrorBox, "PR Creation Failed", r.error)
  }

  /**
   * Success asks whether to open the pull request's URL and names its
   * number in the status; failure shows the error in the status and in an
   * error box.
   */
  lemma DoneReport(r: PRResult)
    ensures r.success ==>
              && DoneAlert(r).kind == QuestionBox
              && EndsWith(DoneAlert(r).message, "URL: " + r.prUrl + "\n\nOpen in browser?")
              && StartsWith(DoneStatus(r), "\U{2705}  PR #" + NatToString(r.prNumber))
    ensures !r.success ==>
              && DoneAlert(r) == Alert(ErrorBox, "PR Creation Failed", r.error)
              && EndsWith(DoneStatus(r), r.error)
  {
    var n := NatToString(r.prNumber);
    if r.success {
      var m, tail := DoneAlert(r).message, "URL: " + r.prUrl + "\n\nOpen in browser?";
      assert m == "\U{2705} PR #" + n + " was created successfully!\n\n" + tail;
      assert m[|m| - |tail|..] == tail;
      var st, pre := DoneStatus(r), "\U{2705}  PR #" + n;
      assert st == pre + " created successfully!";
      assert st[..|pre|] == pre;
    } else {
      var st, pre := DoneStatus(r), "\U{274C}  PR creation failed: ";
      assert st == pre + r.error;
      assert st[|st| - |r.error|..] == r.error;
    }
  }

  /** The error box a failed workbook load opens. */
  function LoadAlert(title: string, path: string): Alert {
    Alert(ErrorBox, title, "Config file not found: " + path)
  }

  /** The text a read-only combo box shows for one of its choices. */
  predicate Offers(choices: seq<Value>, text: string) {
    exists v :: v in choices && Render(v) == text
  }

  /** A choice taken from a truthy value is never empty. */
  lemma OfferedTextNotEmpty(choices: seq<Value>, text: string)
    requires forall v :: v in choices ==> Truthy(v)
    requires Offers(choices, text)
    ensures text != ""
  {
    var v :| v in choices && Render(v) == text;
    if v.Int? {
      assert Render(v) == IntToString(v.i);
    }
  }

  /**
   * The record on show is the one picked in the combo boxes, its rows fill
   * the table, the header names it and the Create button is enabled.
   */
  ghost predicate Shows(s: Screen, template: string, cfg: Record) {
    && Kept(cfg) && DistinctKeys(cfg)
    && Get(cfg, COUNTRY) == Some(Str(s.country))
    && Get(cfg, ENVIRONMENT) == Some(Str(s.environment))
    && s.table == TableRows(cfg, |cfg|)
    && s.header == HeaderText(s.country, s.environment)
    && s.buttonEnabled
  }

  /**
   * The worker's `create_pr` call for a head branch taken from a record:
   * text goes through the whole workflow, a number fails once the branch
   * steps are done, against base "main" either way.
   */
  function SubmitBranchOn(rm: Remote, title: string, body: string, branch: Value, labels: seq<string>): (out: (Remote, PRResult))
    requires branch.Str? || branch.Int?
    ensures Extends(rm, out.0)
    ensures out.1.success ==>
              branch.Str? && |out.0.repo.pulls| == |rm.repo.pulls| + 1 && out.0.repo.pulls[|rm.repo.pulls|].head == branch.s
    ensures branch.Int? ==> !out.1.success && out.0.repo.trees == rm.repo.trees && out.0.repo.pulls == rm.repo.pulls
  {
    if branch.Str? then SubmitOn(rm, title, body, branch.s, BASE_BRANCH, labels)
    else SubmitNumberHeadOn(rm, branch.i, BASE_BRANCH)
  }

  /** `PRConfigApp`: the window's data and what it shows. */
  class PRConfigApp {
    const settings: Settings
    var reader: ConfigReader?
    var config: Option<Record>
    var screen: Screen
    /** The message boxes opened so far, oldest first. */
    var alerts: seq<Alert>
    /** The GitHub repository pull requests go to, with every request made of it. */
    var server: Remote

    /** The reader, once there is one, holds well-formed records; the combo boxes offer only truthy values. */
    ghost predicate ReaderOk()
      reads this, reader
    {
      && (reader != null ==> reader.Valid())
      && (forall v :: v in screen.countryChoices ==> Truthy(v))
      && (forall v :: v in screen.environmentChoices ==> Truthy(v))
    }

    ghost predicate Valid()
      reads this, reader
    {
      ReaderOk() && (config.Some? ==> reader != null && Shows(screen, settings.titleTemplate, config.value))
    }

    /** `__init__`: load the workbook named in the settings, build the window, fill the country list. */
    constructor (settings: Settings, src: Source, server: Remote)
      ensures Valid()
      ensures this.settings == settings && this.server == server && config.None?
      ensures src.Missing? ==> reader == null && alerts == [LoadAlert("Excel Error", settings.excelPath)]
      ensures src.Present? ==> reader != null && alerts == [] && reader.excelPath == settings.excelPath &&
                               reader.data == LoadRecords(Headers(src.sheet.firstRow), src.sheet.rows)
      ensures screen == if reader == null then InitialScreen(settings)
                        else Repopulated(InitialScreen(settings), reader.Countries())
    {
      this.settings := settings;
      this.server := server;
      reader := null;
      config := None;
      alerts := [];
      screen := InitialScreen(settings);
      new;
      LoadReader(settings.excelPath, src);
      PopulateCountries();
    }

    /** `_load_reader`: a reader for `path` replaces the current one, unless the file is missing. */
    method LoadReader(path: string, src: Source)
      requires Valid()
      modifies this
      ensures Valid()
      ensures src.Missing? ==> reader == old(reader) && alerts == old(alerts) + [LoadAlert("Excel Error", path)]
      ensures src.Present? ==> fresh(reader) && reader.excelPath == path && alerts == old(alerts) &&
                               reader.data == LoadRecords(Headers(src.sheet.firstRow), src.sheet.rows)
      ensures config == old(config) && screen == old(screen) && server == old(server)
    {
      var loaded := new ConfigReader(path);
      var err := loaded.Load(src);
      if err.Some? {
        alerts := alerts + [Alert(ErrorBox, "Excel Error", err.value)];
        return;
      }
      reader := loaded;
    }

    /** `_populate_countries`: without a reader nothing changes; with one the country list is refilled. */
    method PopulateCountries()
      requires ReaderOk()
      modifies this
      ensures ReaderOk()
      ensures reader == null ==> screen == old(screen)
      ensures reader != null ==> screen == Repopulated(old(screen), reader.Countries())
      ensures reader == old(reader) && config == old(config) && alerts == old(alerts) && server == old(server)
    {
      if reader == null {
        return;
      }
      screen := Repopulated(screen, reader.Countries());
    }

    /** `_clear_preview`: empty table and preview, the prompt back in the header, no record. */
    method ClearPreview()
      requires ReaderOk()
      modifies this
      ensures Valid() && config.None?
      ensures screen == Cleared(old(screen))
      ensures reader == old(reader) && alerts == old(alerts) && server == old(server)
    {
      screen := screen.(table := []);
      screen := screen.(preview := "");
      screen := screen.(header := PROMPT);
      screen := screen.(badge := "");
      config := None;
    }

    /**
     * `_browse_excel` after the file dialog returned `path` (empty when it was
     * cancelled): load it, refill the countries, clear the preview.
     */
    method BrowseExcel(path: string, src: Source)
      requires Valid()
      modifies this
      ensures Valid()
      ensures path == "" ==> reader == old(reader) && config == old(config) && screen == old(screen) && alerts == old(alerts)
      ensures path != "" ==>
                && config.None?
                && (src.Missing? ==> reader == old(reader) && alerts == old(alerts) + [LoadAlert("Excel Error", path)])
                && (src.Present? ==> fresh(reader) && alerts == old(alerts) &&
                                     reader.data == LoadRecords(Headers(src.sheet.firstRow), src.sheet.rows))
                && screen == Cleared(if reader == null then old(screen).(excelPath := path)
                                     else Repopulated(old(screen).(excelPath := path), reader.Countries()))
      ensures server == old(server)
    {
      if path == "" {
        return;
      }
      screen := screen.(excelPath := path);
      LoadReader(path, src);
      PopulateCountries();
      ClearPreview();
    }

    /**
     * `_reload_excel`: re-read the current reader's workbook. A missing file
     * opens an error box and changes nothing else; otherwise the countries
     * are refilled, the preview cleared and the status updated.
     */
    method ReloadExcel(src: Source)
      requires Valid()
      modifies this, reader
      ensures Valid()
      ensures reader == old(reader) && server == old(server)
      ensures reader == null ==> config == old(config) && screen == old(screen) && alerts == old(alerts)
      ensures reader != null && src.Missing? ==>
                && reader.data == old(reader.data) && config == old(config) && screen == old(screen)
                && alerts == old(alerts) + [LoadAlert("Reload Error", reader.excelPath)]
      ensures reader != null && src.Present? ==>
                && reader.data == LoadRecords(Headers(src.sheet.firstRow), src.sheet.rows)
                && config.None? && alerts == old(alerts)
                && screen == Cleared(Repopulated(old(screen), reader.Countries())).(status := RELOADED_STATUS)
    {
      if reader == null {
        return;
      }
      var err := reader.Reload(src);
      if err.Some? {
        alerts := alerts + [Alert(ErrorBox, "Reload Error", err.value)];
        return;
      }
      PopulateCountries();
      ClearPreview();
      screen := screen.(status := RELOADED_STATUS);
    }

    /**
     * `_on_country_change` after `selected` was picked: its environments
     * become the choices, the environment and the preview are cleared and
     * the Create button is disabled.
     */
    method OnCountryChange(selected: string)
      requires Valid() && Offers(screen.countryChoices, selected)
      modifies this
      ensures Valid() && config.None?
      ensures screen == Cleared(old(screen).(
                country := selected,
                environmentChoices := if reader == null then [] else reader.Environments(Str(selected)),
                environment := "",
                buttonEnabled := false))
      ensures reader == old(reader) && alerts == old(alerts) && server == old(server)
    {
      screen := screen.(country := selected);
      var envs := if reader == null then [] else reader.Environments(Str(selected));
      if reader != null {
        EnvironmentsTruthy(reader, Str(selected));
      }
      screen := screen.(environmentChoices := envs);
      screen := screen.(environment := "");
      ClearPreview();
      screen := screen.(buttonEnabled := false);
    }

    /**
     * `_on_env_change` after `selected` was picked: the first record for the
     * country and environment is shown, with the header naming both and the
     * Create button enabled. Without a match a warning opens, the record is
     * forgotten and the rest of the window is left as it was.
     */
    method OnEnvironmentChange(selected: string)
      requires Valid() && Offers(screen.environmentChoices, selected)
      modifies this
      ensures Valid()
      ensures reader == old(reader) && server == old(server)
      ensures var country := old(screen).country;
              if country == "" || reader == null then
                config == old(config) && screen == old(screen).(environment := selected) && alerts == old(alerts)
              else
                var found := reader.GetConfig(Str(country), Str(selected));
                config == found &&
                if found.None? then
                  && screen == old(screen).(environment := selected)
                  && alerts == old(alerts) + [Alert(WarningBox, "Not Found", "No config for " + country + " / " + selected)]
                else
                  && alerts == old(alerts)
                  && screen == old(screen).(
                       environment := selected,
                       table := TableRows(found.value, |found.value|),
                       preview := PreviewText(settings.titleTemplate, found.value),
                       header := HeaderText(country, selected),
                       badge := Upper(selected),
                       buttonEnabled := true,
                       status := "Loaded config: " + country + " / " + selected)
    {
      OfferedTextNotEmpty(screen.environmentChoices, selected);
      screen := screen.(environment := selected);
      var country := screen.country;
      if country == "" || selected == "" || reader == null {
        return;
      }
      config := reader.GetConfig(Str(country), Str(selected));
      if config.None? {
        alerts := alerts + [Alert(WarningBox, "Not Found", "No config for " + country + " / " + selected)];
        return;
      }
      MatchIsShowable(reader, Str(country), Str(selected));
      ShowRecord(country, selected);
    }

    /** The rest of `_on_env_change` once a record was found: table, preview, header, button and status. */
    method ShowRecord(country: string, environment: string)
      requires ReaderOk() && reader != null && config.Some?
      requires Kept(config.value) && DistinctKeys(config.value)
      requires Get(config.value, COUNTRY) == Some(Str(country)) && Get(config.value, ENVIRONMENT) == Some(Str(environment))
      requires screen.country == country && screen.environment == environment
      modifies this
      ensures Valid()
      ensures config == old(config) && reader == old(reader) && alerts == old(alerts) && server == old(server)
      ensures screen == old(screen).(
                table := TableRows(config.value, |config.value|),
                preview := PreviewText(settings.titleTemplate, config.value),
                header := HeaderText(country, environment),
                badge := Upper(environment),
                buttonEnabled := true,
                status := "Loaded config: " + country + " / " + environment)
    {
      RefreshTable();
      RefreshPreview();
      UpdateHeader(country, environment);
      screen := screen.(buttonEnabled := true);
      screen := screen.(status := "Loaded config: " + country + " / " + environment);
    }

    /**
     * `_refresh_table`: the old rows go; then, unless there is no record,
     * one row per entry whose key is not skipped, in record order.
     */
    method RefreshTable()
      modifies this
      ensures config.None? ==> screen == old(screen).(table := [])
      ensures config.Some? ==> screen == old(screen).(table := TableRows(config.value, |config.value|))
      ensures config == old(config) && reader == old(reader) && alerts == old(alerts) && server == old(server)
    {
      screen := screen.(table := []);
      if config.None? {
        return;
      }
      var cfg := config.value;
      for i := 0 to |cfg|
        invariant screen == old(screen).(table := TableRows(cfg, i))
        invariant config == old(config) && reader == old(reader) && alerts == old(alerts) && server == old(server)
      {
        var (k, v) := cfg[i];
        if Skipped(k) {
          continue;
        }
        var tag := if i % 2 == 0 then Even else Odd;
        screen := screen.(table := screen.table + [TableRow(k, if v != Null then v else EM_DASH, tag)]);
      }
    }

    /** `_refresh_pr_preview`: the preview shows the record's title and body. */
    method RefreshPreview()
      requires config.Some? ==> EnvironmentIsText(config.value)
      modifies this
      ensures config == old(config) && reader == old(reader) && alerts == old(alerts) && server == old(server)
      ensures config.None? ==> screen == old(screen)
      ensures config.Some? ==> screen == old(screen).(preview := PreviewText(settings.titleTemplate, config.value))
    {
      if config.None? {
        return;
      }
      screen := screen.(preview := PreviewText(settings.titleTemplate, config.value));
    }

    /** `_update_header`: the header names the country and the upper-cased environment, and so does the badge. */
    method UpdateHeader(country: string, environment: string)
      modifies this
      ensures screen == old(screen).(header := HeaderText(country, environment), badge := Upper(environment))
      ensures config == old(config) && reader == old(reader) && alerts == old(alerts) && server == old(server)
    {
      screen := screen.(header := HeaderText(country, environment));
      screen := screen.(badge := Upper(environment));
    }

    /** Typing into the three GitHub entries of the sidebar. */
    method EditEntries(token: string, owner: string, repo: string)
      requires Valid()
      modifies this
      ensures Valid()
      ensures screen == old(screen).(token := token, owner := owner, repo := repo)
      ensures config == old(config) && reader == old(reader) && alerts == old(alerts) && server == old(server)
    {
      screen := screen.(token := token, owner := owner, repo := repo);
    }

    /**
     * `_create_pr` and, once the request is answered, `_on_pr_done`. Without
     * a record nothing happens; an entry that fails the checks opens its
     * error box and nothing is sent; otherwise the pull request for the
     * record is submitted with the stripped entries and the outcome is shown.
     */
    method CreatePr() returns (submitted: Option<PRResult>)
      requires Valid()
      modifies this
      ensures Valid()
      ensures config == old(config) && reader == old(reader)
      ensures old(config).None? || CheckEntries(old(screen).token, old(screen).owner, old(screen).repo).Some? ==>
                submitted.None? && screen == old(screen) && server == old(server)
      ensures old(config).None? ==> alerts == old(alerts)
      ensures old(config).Some? ==>
                var problem := CheckEntries(old(screen).token, old(screen).owner, old(screen).repo);
                problem.Some? ==> alerts == old(alerts) + [problem.value]
      ensures old(config).Some? && CheckEntries(old(screen).token, old(screen).owner, old(screen).repo).None? ==>
                var cfg := old(config).value;
                && submitted.Some?
                && (server, submitted.value) ==
                   SubmitBranchOn(old(server), Title(settings.titleTemplate, cfg), BuildPrBody(cfg),
                                  HeadBranch(cfg), settings.labels)
                && screen == old(screen).(buttonEnabled := true, buttonText := BUTTON_LABEL,
                                          status := DoneStatus(submitted.value))
                && alerts == old(alerts) + [DoneAlert(submitted.value)]
    {
      if config.None? {
        return None;
      }
      var problem := CheckEntries(screen.token, screen.owner, screen.repo);
      if problem.Some? {
        alerts := alerts + [problem.value];
        return None;
      }
      var cfg := config.value;
      var result := Submit(Strip(screen.token), Strip(screen.owner), Strip(screen.repo),
                           Title(settings.titleTemplate, cfg), BuildPrBody(cfg), HeadBranch(cfg));
      submitted := Some(result);
    }

    /**
     * The second half of `_create_pr` and its worker: submit the branch,
     * title and body through a creator for the entries, then `_on_pr_done`.
     */
    method Submit(token: string, owner: string, repo: string, title: string, body: string, branch: Value) returns (result: PRResult)
      requires branch.Str? || branch.Int?
      modifies this
      ensures config == old(config) && reader == old(reader)
      ensures (server, result) == SubmitBranchOn(old(server), title, body, branch, settings.labels)
      ensures screen == old(screen).(buttonEnabled := true, buttonText := BUTTON_LABEL, status := DoneStatus(result))
      ensures alerts == old(alerts) + [DoneAlert(result)]
    {
      screen := screen.(buttonEnabled := false, buttonText := BUTTON_BUSY);
      screen := screen.(status := CREATING_STATUS);
      var creator := new GitHubPRCreator(token, owner, repo, server);
      if branch.Str? {
        result := creator.CreatePr(title, body, branch.s, BASE_BRANCH, settings.labels);
      } else {
        result := creator.CreatePrNumberHead(branch.i, BASE_BRANCH);
      }
      server := creator.remote;
      OnPrDone(result);
    }

    /** `_on_pr_done`: the button comes back, the status and a message box report the outcome. */
    method OnPrDone(result: PRResult)
      modifies this
      ensures screen == old(screen).(buttonEnabled := true, buttonText := BUTTON_LABEL, status := DoneStatus(result))
      ensures alerts == old(alerts) + [DoneAlert(result)]
      ensures config == old(config) && reader == old(reader) && server == old(server)
    {
      screen := screen.(buttonEnabled := true, buttonText := BUTTON_LABEL);
      screen := screen.(status := DoneStatus(result));
      alerts := alerts + [DoneAlert(result)];
    }
  }

  /** Every environment a valid reader offers is truthy. */
  lemma EnvironmentsTruthy(reader: ConfigReader, country: Value)
    requires reader.Valid()
    ensures forall v :: v in reader.Environments(country) ==> Truthy(v)
  {
    forall v | v in reader.Environments(country) ensures Truthy(v) {
      var i :| 0 <= i < |reader.data| && Field(reader.data[i], COUNTRY) == country && Field(reader.data[i], ENVIRONMENT) == v;
      assert Kept(reader.data[i]);
    }
  }

  /** The record a valid reader finds is kept, has distinct keys and holds the two texts asked for. */
  lemma MatchIsShowable(reader: ConfigReader, country: Value, environment: Value)
    requires reader.Valid() && country.Str? && environment.Str?
    requires reader.GetConfig(country, environment).Some?
    ensures var cfg := reader.GetConfig(country, environment).value;
            Kept(cfg) && DistinctKeys(cfg) && Get(cfg, COUNTRY) == Some(country) && Get(cfg, ENVIRONMENT) == Some(environment)
  {
    var cfg := reader.GetConfig(country, environment).value;
    var i :| 0 <= i < |reader.data| && reader.data[i] == cfg && Matches(reader.data[i], country, environment);
    assert Kept(reader.data[i]) && DistinctKeys(reader.data[i]);
  }
}
