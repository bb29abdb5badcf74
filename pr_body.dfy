/**
 * `build_pr_body` of pr_creator.py: the Markdown description of a pull
 * request, built from one configuration record.
 */
module PrBody {
  import opened Wrappers
  import opened Values
  import opened Records
  import opened Text

  /** Keys the table leaves out: the heading and footer show two of them, the third names the branch. */
  predicate Skipped(k: Value) {
    k == COUNTRY || k == ENVIRONMENT || k == BRANCH_NAME
  }

  /** `a` is `b` with some entries dropped and the others kept in their order. */
  predicate Subseq(a: Record, b: Record)
    decreases |b|
  {
    if b == [] then a == []
    else (a != [] && a[|a| - 1] == b[|b| - 1] && Subseq(a[..|a| - 1], b[..|b| - 1])) || Subseq(a, b[..|b| - 1])
  }

  /** The entries that get a table line: key not skipped, value not `None`, in the record's order. */
  function Listed(rec: Record): (es: Record)
    ensures forall e :: e in es <==> e in rec && !Skipped(e.0) && e.1 != Null
    ensures Subseq(es, rec)
    ensures DistinctKeys(rec) ==> DistinctKeys(es)
  {
    if rec == [] then []
    else
      var init, e := rec[..|rec| - 1], rec[|rec| - 1];
      assert rec == init + [e];
      var prev := Listed(init);
      if !Skipped(e.0) && e.1 != Null then
        ListedStep(rec, prev);
        assert (prev + [e])[..|prev|] == prev;
        prev + [e]
      else
        prev
  }

  lemma ListedStep(rec: Record, prev: Record)
    requires rec != [] && forall e :: e in prev ==> e in rec[..|rec| - 1]
    ensures DistinctKeys(rec) ==> DistinctKeys(prev) ==> DistinctKeys(prev + [rec[|rec| - 1]])
  {
    if DistinctKeys(rec) && DistinctKeys(prev) {
      var last := rec[|rec| - 1];
      forall i | 0 <= i < |prev| ensures prev[i].0 != last.0 {
        assert prev[i] in prev;
        var m :| 0 <= m < |rec| - 1 && rec[m] == prev[i];
      }
    }
  }

  /** One table line: key and value as `str()` shows them, each in backticks. */
  function TableLine(e: (Value, Value)): string {
    "| `" + Render(e.0) + "` | `" + Render(e.1) + "` |"
  }

  function TableLines(es: Record): seq<string> {
    seq(|es|, i requires 0 <= i < |es| => TableLine(es[i]))
  }

  /*
   * The emoji of the template are stored mis-encoded in pr_creator.py (their
   * UTF-8 bytes read as Windows-1252), so the body carries these characters.
   */
  const GLOBE_MARK: string := "\U{00F0}\U{0178}\U{0152}"
  const DASH_MARK: string := "\U{00E2}\U{20AC}\U{201D}"
  const CLIPBOARD_MARK: string := "\U{00F0}\U{0178}\U{201C}\U{2039}"
  const CHECK_MARK: string := "\U{00E2}\U{0153}\U{2026}"

  function HeadingLine(country: string, environment: string): string {
    "## " + GLOBE_MARK + " Configuration Update " + DASH_MARK + " " + country + " / " + Upper(environment) + "\n"
  }

  /** The line under the table's column names. */
  const HEADER_RULE: string := "|-----|-------|\n"

  const TABLE_HEAD: string :=
    "\nThis PR was auto-generated by the **PR Config Tool**.\n\n### " + CLIPBOARD_MARK +
    " Configuration Values\n\n| Key | Value |\n" + HEADER_RULE

  function FooterLine(country: string, environment: string): string {
    "> **Country**: `" + country + "` | **Environment**: `" + environment + "` | **Auto-generated**: " + CHECK_MARK + "\n"
  }

  /** `environment.upper()` needs text: the Environment entry, when present, holds a string. */
  predicate EnvironmentIsText(config: Record) {
    Get(config, ENVIRONMENT).None? || Get(config, ENVIRONMENT).value.Str?
  }

  /** `str(config.get("Country", ""))`. */
  function CountryText(config: Record): string {
    Render(Get(config, COUNTRY).GetOr(Str("")))
  }

  /** `config.get("Environment", "")`. */
  function EnvironmentText(config: Record): string
    requires EnvironmentIsText(config)
  {
    Get(config, ENVIRONMENT).GetOr(Str("")).s
  }

  /**
   * The body: a heading with the country and the upper-cased environment,
   * the table of listed entries, and a footer with both as they are.
   */
  function BuildPrBody(config: Record): (body: string)
    requires EnvironmentIsText(config)
    ensures StartsWith(body, HeadingLine(CountryText(config), EnvironmentText(config)))
    ensures EndsWith(body, FooterLine(CountryText(config), EnvironmentText(config)))
    ensures exists above, below :: body == above + Join("\n", TableLines(Listed(config))) + below &&
                                   EndsWith(above, HEADER_RULE) && StartsWith(below, "\n\n---\n")
  {
    var heading := HeadingLine(CountryText(config), EnvironmentText(config));
    var rows := Join("\n", TableLines(Listed(config)));
    var footer := FooterLine(CountryText(config), EnvironmentText(config));
    BodyShape(heading, rows, footer);
    heading + TABLE_HEAD + rows + "\n\n---\n" + footer
  }

  lemma BodyShape(heading: string, rows: string, footer: string)
    ensures StartsWith(heading + TABLE_HEAD + rows + "\n\n---\n" + footer, heading)
    ensures EndsWith(heading + TABLE_HEAD + rows + "\n\n---\n" + footer, footer)
    ensures exists above, below :: heading + TABLE_HEAD + rows + "\n\n---\n" + footer == above + rows + below &&
                                   EndsWith(above, HEADER_RULE) && StartsWith(below, "\n\n---\n")
  {
    var body := heading + TABLE_HEAD + rows + "\n\n---\n" + footer;
    var above, below := heading + TABLE_HEAD, "\n\n---\n" + footer;
    assert body == heading + (TABLE_HEAD + rows + "\n\n---\n" + footer);
    assert body == (heading + TABLE_HEAD + rows + "\n\n---\n") + footer;
    assert body == above + rows + below;
    assert above[|above| - |TABLE_HEAD|..] == TABLE_HEAD;
    assert TABLE_HEAD[|TABLE_HEAD| - 16..] == "|-----|-------|\n";
    assert above[|above| - 16..] == TABLE_HEAD[|TABLE_HEAD| - 16..];
    assert EndsWith(above, HEADER_RULE);
    assert below[..6] == "\n\n---\n";
    assert StartsWith(below, "\n\n---\n");
  }

  /**
   * Each key that is neither skipped nor `None` in the record has exactly one
   * table line, carrying its value; no other key has one.
   */
  lemma ListedOncePerKey(config: Record, k: Value, v: Value)
    requires DistinctKeys(config)
    ensures (k, v) in Listed(config) <==> Get(config, k) == Some(v) && !Skipped(k) && v != Null
    ensures forall i, j :: 0 <= i < j < |Listed(config)| ==> Listed(config)[i].0 != Listed(config)[j].0
  {
    GetIsEntry(config, k, v);
  }

  /** The table lines follow the listed entries one for one, in order. */
  lemma {:induction false} TableLinesFollowListed(config: Record, i: nat)
    requires i < |Listed(config)|
    ensures |TableLines(Listed(config))| == |Listed(config)|
    ensures TableLines(Listed(config))[i] == "| `" + Render(Listed(config)[i].0) + "` | `" + Render(Listed(config)[i].1) + "` |"
  {
  }

  /** Dropping entries keeps order: an entry before another in the table was before it in the record. */
  lemma {:induction false} SubseqOrder(a: Record, b: Record, i: nat, j: nat)
    requires Subseq(a, b) && i < j < |a|
    ensures exists i', j' :: 0 <= i' < j' < |b| && b[i'] == a[i] && b[j'] == a[j]
    decreases |b|
  {
    var b' := b[..|b| - 1];
    if a != [] && a[|a| - 1] == b[|b| - 1] && Subseq(a[..|a| - 1], b') {
      if j == |a| - 1 {
        var a' := a[..|a| - 1];
        assert a[i] == a'[i];
        assert a[i] in b' by { SubseqMembers(a', b'); }
        var i' :| 0 <= i' < |b'| && b'[i'] == a[i];
        assert b[i'] == a[i] && b[|b| - 1] == a[j];
      } else {
        SubseqOrder(a[..|a| - 1], b', i, j);
        var i', j' :| 0 <= i' < j' < |b'| && b'[i'] == a[..|a| - 1][i] && b'[j'] == a[..|a| - 1][j];
        assert b[i'] == a[i] && b[j'] == a[j];
      }
    } else {
      SubseqOrder(a, b', i, j);
      var i', j' :| 0 <= i' < j' < |b'| && b'[i'] == a[i] && b'[j'] == a[j];
      assert b[i'] == a[i] && b[j'] == a[j];
    }
  }

  lemma {:induction false} SubseqMembers(a: Record, b: Record)
    requires Subseq(a, b)
    ensures forall e :: e in a ==> e in b
    decreases |b|
  {
    if b != [] {
      var b' := b[..|b| - 1];
      assert b == b' + [b[|b| - 1]];
      if a != [] && a[|a| - 1] == b[|b| - 1] && Subseq(a[..|a| - 1], b') {
        SubseqMembers(a[..|a| - 1], b');
        assert a == a[..|a| - 1] + [a[|a| - 1]];
      } else {
        SubseqMembers(a, b');
      }
    }
  }

  /** Two table lines appear in the order of their entries in the record. */
  lemma ListedKeepsRecordOrder(config: Record, i: nat, j: nat)
    requires i < j < |Listed(config)|
    ensures exists i', j' :: 0 <= i' < j' < |config| && config[i'] == Listed(config)[i] && config[j'] == Listed(config)[j]
  {
    SubseqOrder(Listed(config), config, i, j);
  }
}
