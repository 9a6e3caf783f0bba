/**
 * `exportReportAsMarkdown` of src/utils/recommender.ts: the report as a
 * Markdown document, one array entry per line, joined with newlines. At
 * most the first 20 recommendations get a section.
 */
module MarkdownExport {
  import opened Types
  import opened Text
  import opened Explanation
  import opened Sequences

  /** The Markdown forms the document uses. */
  function H1(text: string): string { "# " + text }
  function H2(text: string): string { "## " + text }
  function H3(text: string): string { "### " + text }
  function Quote(text: string): string { "> " + text }
  function Italic(text: string): string { "*" + text + "*" }
  function Bold(text: string): string { "**" + text + "**" }
  function Row(field: string, content: string): string { "| " + field + " | " + content + " |" }

  function LevelName(l: Level): string
  {
    match l
    case Central => "Central"
    case State => "State"
  }

  /** The most sections the document holds. */
  const MaxSections := 20

  /** Everything before the first section. */
  function HeaderLines(report: RecommendationReport, fmt: Formats): seq<string>
  {
    var p := report.userProfile;
    [ H1("SchemeAssist AI - Recommendation Report"), "",
      Bold("Generated:") + " " + fmt.dateTime(report.generatedAt), "", "---", "",
      H2("User Profile Summary"), "",
      Row("Field", "Value"), "|-------|-------|",
      Row("State", p.state),
      Row("Age", IntToString(p.age) + " years"),
      Row("Annual Income", "₹" + fmt.grouped(p.annualIncome)),
      Row("Category of Interest", p.category), "", "---", "",
      H2("Analysis Summary"), "",
      "- " + Bold("Total Schemes Analyzed:") + " " + NatToString(report.totalSchemesAnalyzed),
      "- " + Bold("Eligible Schemes Found:") + " " + NatToString(report.eligibleSchemesCount), "",
      Quote(report.summary), "", "---", "",
      H2("Recommended Schemes"), "" ]
  }

  /** Everything after the last section. */
  const FooterLines := [
    H2("Disclaimer"), "",
    Quote("This recommendation is generated by an AI system based on the provided data and eligibility criteria."),
    Quote("Actual eligibility may vary based on additional documentation and verification requirements."),
    Quote("Please visit the official scheme portals or nearest government office for final confirmation."),
    Quote("The dataset is updated periodically and may not reflect the most recent changes."), "",
    "---", "",
    Italic("Powered by SchemeAssist AI | Civora Nexus AID105 Project") ]

  /** The numbered heading of the section at 0-based position `i`. */
  function SectionHeading(i: nat, name: string): string
  {
    H3(NatToString(i + 1) + ". " + name)
  }

  /** The heading, the score and the fixed rows of the details table. */
  function SectionTop(i: nat, rec: RecommendationResult): seq<string>
  {
    var s := rec.scheme;
    [ SectionHeading(i, s.schemeName), "",
      Bold("Eligibility Score:") + " " + IntToString(rec.eligibilityScore) + "%", "",
      Row("Detail", "Information"), "|--------|-------------|",
      Row("Scheme ID", s.schemeId),
      Row("Level", LevelName(s.level)),
      Row("Category", s.category),
      Row("Target Group", s.targetGroup),
      Row("Benefits", s.benefits),
      Row("Last Updated", s.lastUpdated) ]
  }

  function DeadlineRow(s: Scheme): seq<string>
  {
    if HasDeadline(s) then [Row("Deadline", s.deadline.value)] else []
  }

  /** The bullet of one reason. */
  function ReasonLine(r: Reason, fmt: Formats): string
  {
    "- " + ReasonText(r, fmt.lakhs)
  }

  function ReasonLines(reasons: seq<Reason>, fmt: Formats): (lines: seq<string>)
    ensures |lines| == |reasons|
  {
    if reasons == [] then []
    else ReasonLines(reasons[..|reasons| - 1], fmt) + [ReasonLine(reasons[|reasons| - 1], fmt)]
  }

  /** Red, yellow and green circles for high, medium and low priority. */
  function Icon(p: Priority): string
  {
    match p
    case High => "\U{1F534}"
    case Medium => "\U{1F7E1}"
    case Low => "\U{1F7E2}"
  }

  function AlertLine(a: Alert): string
  {
    "- " + Icon(a.priority) + " " + a.message
  }

  function AlertLines(alerts: seq<Alert>): (lines: seq<string>)
    ensures |lines| == |alerts|
  {
    if alerts == [] then []
    else AlertLines(alerts[..|alerts| - 1]) + [AlertLine(alerts[|alerts| - 1])]
  }

  /** The alerts block, left out entirely when there are no alerts. */
  function AlertBlock(alerts: seq<Alert>): seq<string>
  {
    if alerts == [] then [] else [Bold("Alerts:")] + AlertLines(alerts) + [""]
  }

  /** The section of the recommendation at 0-based position `i`. */
  function SectionLines(i: nat, rec: RecommendationResult, fmt: Formats): seq<string>
  {
    SectionTop(i, rec) + DeadlineRow(rec.scheme) + ["", Bold("Why You Are Eligible:")]
    + ReasonLines(rec.reasons, fmt) + [""] + AlertBlock(rec.alerts) + ["---", ""]
  }

  /** The sections of the first `k` recommendations, one block of lines each. */
  function SectionBlocks(recs: seq<RecommendationResult>, k: nat, fmt: Formats): (blocks: seq<seq<string>>)
    requires k <= |recs|
    ensures |blocks| == k
    ensures forall i :: 0 <= i < k ==> blocks[i] == SectionLines(i, recs[i], fmt)
  {
    seq(k, i requires 0 <= i < k => SectionLines(i, recs[i], fmt))
  }

  /** The blocks' lines one after the other. */
  function Concat(blocks: seq<seq<string>>): seq<string>
  {
    if blocks == [] then [] else Concat(blocks[..|blocks| - 1]) + blocks[|blocks| - 1]
  }

  function Sections(recs: seq<RecommendationResult>, k: nat, fmt: Formats): seq<string>
    requires k <= |recs|
  {
    Concat(SectionBlocks(recs, k, fmt))
  }

  /** One more section appends its lines. */
  lemma SectionsLast(recs: seq<RecommendationResult>, k: nat, fmt: Formats)
    requires 0 < k <= |recs|
    ensures Sections(recs, k, fmt) == Sections(recs, k - 1, fmt) + SectionLines(k - 1, recs[k - 1], fmt)
  {
    var blocks := SectionBlocks(recs, k, fmt);
    assert blocks[..k - 1] == SectionBlocks(recs, k - 1, fmt);
  }

  function SectionCount(report: RecommendationReport): nat
  {
    Min(|report.recommendations|, MaxSections)
  }

  /** The lines of the document. */
  function MarkdownLines(report: RecommendationReport, fmt: Formats): seq<string>
  {
    HeaderLines(report, fmt) + Sections(report.recommendations, SectionCount(report), fmt) + FooterLines
  }

  /** The lines that start with `prefix`, in order. */
  function LinesWith(lines: seq<string>, prefix: string): (found: seq<string>)
    ensures |found| <= |lines|
  {
    if lines == [] then []
    else (if StartsWith(lines[0], prefix) then [lines[0]] else []) + LinesWith(lines[1..], prefix)
  }

  lemma {:induction false} LinesWithAppend(a: seq<string>, b: seq<string>, prefix: string)
    ensures LinesWith(a + b, prefix) == LinesWith(a, prefix) + LinesWith(b, prefix)
  {
    if a == [] {
      assert a + b == b;
    } else {
      LinesWithAppend(a[1..], b, prefix);
      assert a + b == [a[0]] + (a[1..] + b);
      assert a == [a[0]] + a[1..];
      LinesWithCons(a[0], a[1..] + b, prefix);
      LinesWithCons(a[0], a[1..], prefix);
    }
  }

  lemma LinesWithCons(x: string, rest: seq<string>, prefix: string)
    ensures LinesWith([x] + rest, prefix) == (if StartsWith(x, prefix) then [x] else []) + LinesWith(rest, prefix)
  {
    assert ([x] + rest)[1..] == rest;
  }

  lemma {:induction false} NoLinesWith(lines: seq<string>, prefix: string)
    requires forall i :: 0 <= i < |lines| ==> !StartsWith(lines[i], prefix)
    ensures LinesWith(lines, prefix) == []
  {
    if lines != [] {
      NoLinesWith(lines[1..], prefix);
    }
  }

  /** A line whose character at `k` differs from the prefix's does not start with it. */
  lemma Mismatch(line: string, prefix: string, k: nat)
    requires k < |prefix| && (k >= |line| || line[k] != prefix[k])
    ensures !StartsWith(line, prefix)
  {
    if |prefix| <= |line| {
      assert line[..|prefix|][k] == line[k];
    }
  }

  /** Every reason bullet starts with "- ". */
  lemma {:induction false} ReasonBullets(reasons: seq<Reason>, fmt: Formats)
    ensures forall i :: 0 <= i < |ReasonLines(reasons, fmt)| ==> StartsWith(ReasonLines(reasons, fmt)[i], "- ")
  {
    if reasons != [] {
      ReasonBullets(reasons[..|reasons| - 1], fmt);
    }
  }

  /** Every alert bullet starts with "- ". */
  lemma {:induction false} AlertBullets(alerts: seq<Alert>)
    ensures forall i :: 0 <= i < |AlertLines(alerts)| ==> StartsWith(AlertLines(alerts)[i], "- ")
  {
    if alerts != [] {
      AlertBullets(alerts[..|alerts| - 1]);
    }
  }

  /** Lines that each differ from `prefix` at position `j` or `k` (or end before `k`) do not start with it. */
  lemma NoneStartWith(lines: seq<string>, prefix: string, j: nat, k: nat)
    requires j < k < |prefix|
    requires forall i :: 0 <= i < |lines| ==>
      |lines[i]| <= k || lines[i][j] != prefix[j] || lines[i][k] != prefix[k]
    ensures LinesWith(lines, prefix) == []
  {
    forall i | 0 <= i < |lines| ensures !StartsWith(lines[i], prefix) {
      if |lines[i]| <= k {
        Mismatch(lines[i], prefix, k);
      } else if lines[i][j] != prefix[j] {
        Mismatch(lines[i], prefix, j);
      } else {
        Mismatch(lines[i], prefix, k);
      }
    }
    NoLinesWith(lines, prefix);
  }

  /** No bullet starts with a prefix that does not start with '-'. */
  lemma BulletsWithout(lines: seq<string>, prefix: string)
    requires forall i :: 0 <= i < |lines| ==> StartsWith(lines[i], "- ")
    requires |prefix| > 0 && prefix[0] != '-'
    ensures LinesWith(lines, prefix) == []
  {
    forall i | 0 <= i < |lines| ensures !StartsWith(lines[i], prefix) {
      assert lines[i][..2][0] == lines[i][0];
      Mismatch(lines[i], prefix, 0);
    }
    NoLinesWith(lines, prefix);
  }

  /** The lines of a section with a prefix, piece by piece. */
  lemma SectionLinesWith(i: nat, rec: RecommendationResult, fmt: Formats, p: string)
    ensures LinesWith(SectionLines(i, rec, fmt), p)
      == LinesWith(SectionTop(i, rec), p) + LinesWith(DeadlineRow(rec.scheme), p)
       + LinesWith(["", Bold("Why You Are Eligible:")], p) + LinesWith(ReasonLines(rec.reasons, fmt), p)
       + LinesWith([""], p) + LinesWith(AlertBlock(rec.alerts), p) + LinesWith(["---", ""], p)
  {
    var top, deadline, why := SectionTop(i, rec), DeadlineRow(rec.scheme), ["", Bold("Why You Are Eligible:")];
    var reasons, alerts := ReasonLines(rec.reasons, fmt), AlertBlock(rec.alerts);
    LinesWithAppend(top, deadline, p);
    LinesWithAppend(top + deadline, why, p);
    LinesWithAppend(top + deadline + why, reasons, p);
    LinesWithAppend(top + deadline + why + reasons, [""], p);
    LinesWithAppend(top + deadline + why + reasons + [""], alerts, p);
    LinesWithAppend(top + deadline + why + reasons + [""] + alerts, ["---", ""], p);
  }

  lemma TopHeading(i: nat, rec: RecommendationResult)
    ensures LinesWith(SectionTop(i, rec), "### ") == [SectionHeading(i, rec.scheme.schemeName)]
  {
    var top := SectionTop(i, rec);
    var heading := SectionHeading(i, rec.scheme.schemeName);
    var table := top[1..];
    assert top == [heading] + table;
    LinesWithCons(heading, table, "### ");
    assert heading[..4] == "### ";
    NoneStartWith(table, "### ", 0, 2);
  }

  lemma AlertBlockNoHeading(alerts: seq<Alert>)
    ensures LinesWith(AlertBlock(alerts), "### ") == []
  {
    if alerts != [] {
      var bullets := AlertLines(alerts);
      AlertBullets(alerts);
      BulletsWithout(bullets, "### ");
      NoneStartWith([Bold("Alerts:")], "### ", 0, 2);
      NoneStartWith([""], "### ", 0, 2);
      LinesWithAppend([Bold("Alerts:")], bullets, "### ");
      LinesWithAppend([Bold("Alerts:")] + bullets, [""], "### ");
    }
  }

  /** Each section holds exactly one heading, its own. */
  lemma SectionHeadingOnly(i: nat, rec: RecommendationResult, fmt: Formats)
    ensures LinesWith(SectionLines(i, rec, fmt), "### ") == [SectionHeading(i, rec.scheme.schemeName)]
  {
    var p := "### ";
    SectionLinesWith(i, rec, fmt, p);
    TopHeading(i, rec);
    DeadlineRowLines(rec.scheme);
    BodyWithout(rec, fmt, p);
    AlertBlockNoHeading(rec.alerts);
  }

  /** A section has a Deadline row exactly when its scheme has a deadline. */
  lemma SectionDeadlineRow(i: nat, rec: RecommendationResult, fmt: Formats)
    ensures LinesWith(SectionLines(i, rec, fmt), "| Deadline | ")
      == (if HasDeadline(rec.scheme) then [Row("Deadline", rec.scheme.deadline.value)] else [])
  {
    var p := "| Deadline | ";
    SectionLinesWith(i, rec, fmt, p);
    TopWithout(i, rec, p);
    DeadlineRowLines(rec.scheme);
    BodyWithout(rec, fmt, p);
    AlertBlockWithout(rec.alerts, p);
  }

  lemma TopWithout(i: nat, rec: RecommendationResult, p: string)
    requires p == "| Deadline | " || p == "**Alerts:**"
    ensures LinesWith(SectionTop(i, rec), p) == []
  {
    if p == "| Deadline | " {
      NoneStartWith(SectionTop(i, rec), p, 2, 4);
    } else {
      NoneStartWith(SectionTop(i, rec), p, 0, 2);
    }
  }

  lemma DeadlineRowLines(s: Scheme)
    ensures LinesWith(DeadlineRow(s), "| Deadline | ") == DeadlineRow(s)
    ensures LinesWith(DeadlineRow(s), "**Alerts:**") == []
    ensures LinesWith(DeadlineRow(s), "### ") == []
  {
    if HasDeadline(s) {
      var row := Row("Deadline", s.deadline.value);
      assert row[..13] == "| Deadline | ";
      LinesWithCons(row, [], "| Deadline | ");
      NoneStartWith([row], "**Alerts:**", 0, 2);
      NoneStartWith([row], "### ", 0, 2);
    }
  }

  /** The fixed lines and the reasons of a section carry no heading, Deadline row or Alerts title. */
  lemma BodyWithout(rec: RecommendationResult, fmt: Formats, p: string)
    requires p == "| Deadline | " || p == "**Alerts:**" || p == "### "
    ensures LinesWith(["", Bold("Why You Are Eligible:")], p) == []
    ensures LinesWith(ReasonLines(rec.reasons, fmt), p) == []
    ensures LinesWith([""], p) == []
    ensures LinesWith(["---", ""], p) == []
  {
    NoneStartWith(["", Bold("Why You Are Eligible:")], p, 0, 2);
    ReasonBullets(rec.reasons, fmt);
    BulletsWithout(ReasonLines(rec.reasons, fmt), p);
    NoneStartWith([""], p, 0, 2);
    NoneStartWith(["---", ""], p, 0, 2);
  }

  /** The alerts block holds no Deadline row. */
  lemma AlertBlockWithout(alerts: seq<Alert>, p: string)
    requires p == "| Deadline | "
    ensures LinesWith(AlertBlock(alerts), p) == []
  {
    if alerts != [] {
      var bullets := AlertLines(alerts);
      AlertBullets(alerts);
      BulletsWithout(bullets, p);
      NoneStartWith([Bold("Alerts:")], p, 0, 2);
      NoneStartWith([""], p, 0, 2);
      LinesWithAppend([Bold("Alerts:")], bullets, p);
      LinesWithAppend([Bold("Alerts:")] + bullets, [""], p);
    }
  }

  /** The alerts block opens with its title, and only when there are alerts. */
  lemma AlertBlockTitle(alerts: seq<Alert>)
    ensures LinesWith(AlertBlock(alerts), "**Alerts:**") == (if alerts == [] then [] else ["**Alerts:**"])
  {
    var p := "**Alerts:**";
    if alerts != [] {
      var bullets := AlertLines(alerts);
      AlertBullets(alerts);
      BulletsWithout(bullets, p);
      NoneStartWith([""], p, 0, 2);
      assert Bold("Alerts:") == p;
      assert p[..|p|] == p;
      LinesWithCons(Bold("Alerts:"), bullets + [""], p);
      LinesWithAppend(bullets, [""], p);
      assert AlertBlock(alerts) == [Bold("Alerts:")] + (bullets + [""]);
    }
  }

  /** A section has the Alerts title exactly when its recommendation has alerts. */
  lemma SectionAlertsTitle(i: nat, rec: RecommendationResult, fmt: Formats)
    ensures LinesWith(SectionLines(i, rec, fmt), "**Alerts:**") == (if rec.alerts == [] then [] else ["**Alerts:**"])
  {
    var p := "**Alerts:**";
    SectionLinesWith(i, rec, fmt, p);
    TopWithout(i, rec, p);
    DeadlineRowLines(rec.scheme);
    BodyWithout(rec, fmt, p);
    AlertBlockTitle(rec.alerts);
  }

  /**
   * When every block holds exactly one line with the prefix, the
   * concatenation holds exactly those lines, in block order.
   */
  lemma {:induction false} ConcatLinesWith(blocks: seq<seq<string>>, found: seq<string>, prefix: string)
    requires |found| == |blocks|
    requires forall i :: 0 <= i < |blocks| ==> LinesWith(blocks[i], prefix) == [found[i]]
    ensures LinesWith(Concat(blocks), prefix) == found
  {
    if blocks != [] {
      var n := |blocks| - 1;
      ConcatLinesWith(blocks[..n], found[..n], prefix);
      LinesWithAppend(Concat(blocks[..n]), blocks[n], prefix);
      assert found == found[..n] + [found[n]];
    }
  }

  /** The headings of the first `k` sections. */
  function SectionHeadings(recs: seq<RecommendationResult>, k: nat): (headings: seq<string>)
    requires k <= |recs|
    ensures |headings| == k
    ensures forall i :: 0 <= i < k ==> headings[i] == SectionHeading(i, recs[i].scheme.schemeName)
  {
    seq(k, i requires 0 <= i < k => SectionHeading(i, recs[i].scheme.schemeName))
  }

  lemma SectionsHeadings(recs: seq<RecommendationResult>, k: nat, fmt: Formats)
    requires k <= |recs|
    ensures LinesWith(Sections(recs, k, fmt), "### ") == SectionHeadings(recs, k)
  {
    var blocks, headings := SectionBlocks(recs, k, fmt), SectionHeadings(recs, k);
    forall i | 0 <= i < k ensures LinesWith(blocks[i], "### ") == [headings[i]] {
      SectionHeadingOnly(i, recs[i], fmt);
    }
    ConcatLinesWith(blocks, headings, "### ");
  }

  lemma HeaderNoHeading(report: RecommendationReport, fmt: Formats)
    ensures LinesWith(HeaderLines(report, fmt), "### ") == []
  {
    NoneStartWith(HeaderLines(report, fmt), "### ", 0, 2);
  }

  lemma FooterNoHeading()
    ensures LinesWith(FooterLines, "### ") == []
  {
    NoneStartWith(FooterLines, "### ", 0, 2);
  }

  /**
   * The document has exactly min(n, 20) section headings for n
   * recommendations, the k-th reading "### k. " and the k-th scheme's name.
   */
  lemma MarkdownHeadings(report: RecommendationReport, fmt: Formats)
    ensures var headings, recs := LinesWith(MarkdownLines(report, fmt), "### "), report.recommendations;
      && |headings| == (if |recs| < MaxSections then |recs| else MaxSections)
      && forall k :: 0 <= k < |headings| ==> headings[k] == "### " + NatToString(k + 1) + ". " + recs[k].scheme.schemeName
  {
    var recs := report.recommendations;
    var headings := LinesWith(MarkdownLines(report, fmt), "### ");
    DocumentHeadings(report, fmt);
    forall k | 0 <= k < |headings| ensures headings[k] == "### " + NatToString(k + 1) + ". " + recs[k].scheme.schemeName {
      SectionHeadingText(k, recs[k].scheme.schemeName);
    }
  }

  /** Only the sections contribute headings to the document. */
  lemma DocumentHeadings(report: RecommendationReport, fmt: Formats)
    ensures LinesWith(MarkdownLines(report, fmt), "### ") == SectionHeadings(report.recommendations, SectionCount(report))
  {
    var recs := report.recommendations;
    var n := SectionCount(report);
    var header, sections := HeaderLines(report, fmt), Sections(recs, n, fmt);
    HeaderNoHeading(report, fmt);
    FooterNoHeading();
    SectionsHeadings(recs, n, fmt);
    LinesWithAppend(header, sections, "### ");
    LinesWithAppend(header + sections, FooterLines, "### ");
  }

  lemma SectionHeadingText(i: nat, name: string)
    ensures SectionHeading(i, name) == "### " + NatToString(i + 1) + ". " + name
  {
    AppendAssoc("### ", NatToString(i + 1) + ". ", name);
    AppendAssoc("### ", NatToString(i + 1), ". ");
  }

  /** The source's procedure: push the header, a section per recommendation up to 20, the footer; join. */
  method ExportReportAsMarkdown(report: RecommendationReport, fmt: Formats) returns (markdown: string)
    ensures markdown == JoinLines(MarkdownLines(report, fmt))
  {
    var recs := report.recommendations;
    var lines := HeaderLines(report, fmt);
    var count := Min(|recs|, MaxSections);
    ghost var header := lines;
    for i := 0 to count
      invariant lines == header + Sections(recs, i, fmt)
    {
      lines := PushSection(lines, i, recs[i], fmt);
      SectionsLast(recs, i + 1, fmt);
      AppendAssoc(header, Sections(recs, i, fmt), SectionLines(i, recs[i], fmt));
    }
    lines := lines + FooterLines;
    markdown := JoinLines(lines);
  }

  /** The body of the section loop for the recommendation at position `i`. */
  method PushSection(lines: seq<string>, i: nat, rec: RecommendationResult, fmt: Formats) returns (out: seq<string>)
    ensures out == lines + SectionLines(i, rec, fmt)
  {
    var top, deadline, why := SectionTop(i, rec), DeadlineRow(rec.scheme), ["", Bold("Why You Are Eligible:")];
    var reasons, alerts := ReasonLines(rec.reasons, fmt), AlertBlock(rec.alerts);
    out := lines + top;
    if rec.scheme.deadline.Some? && rec.scheme.deadline.value != "" {
      out := out + [Row("Deadline", rec.scheme.deadline.value)];
    }
    assert out == lines + top + deadline;
    AppendAssoc(lines, top, deadline);
    var body := top + deadline;
    out := out + why;
    AppendAssoc(lines, body, why);
    body := body + why;
    out := PushReasons(out, rec.reasons, fmt);
    AppendAssoc(lines, body, reasons);
    body := body + reasons;
    out := out + [""];
    AppendAssoc(lines, body, [""]);
    body := body + [""];
    ghost var beforeAlerts := out;
    if |rec.alerts| > 0 {
      out := out + [Bold("Alerts:")];
      out := PushAlerts(out, rec.alerts);
      out := out + [""];
      AppendAssoc(beforeAlerts, [Bold("Alerts:")], AlertLines(rec.alerts));
      AppendAssoc(beforeAlerts, [Bold("Alerts:")] + AlertLines(rec.alerts), [""]);
    }
    assert out == beforeAlerts + alerts;
    AppendAssoc(lines, body, alerts);
    body := body + alerts;
    AppendAssoc(lines, body, ["---", ""]);
    out := out + ["---", ""];
  }

  method PushReasons(lines: seq<string>, reasons: seq<Reason>, fmt: Formats) returns (out: seq<string>)
    ensures out == lines + ReasonLines(reasons, fmt)
  {
    out := lines;
    for j := 0 to |reasons|
      invariant out == lines + ReasonLines(reasons[..j], fmt)
    {
      assert reasons[..j + 1][..j] == reasons[..j];
      out := out + [ReasonLine(reasons[j], fmt)];
    }
    assert reasons[..|reasons|] == reasons;
  }

  method PushAlerts(lines: seq<string>, alerts: seq<Alert>) returns (out: seq<string>)
    ensures out == lines + AlertLines(alerts)
  {
    out := lines;
    for j := 0 to |alerts|
      invariant out == lines + AlertLines(alerts[..j])
    {
      assert alerts[..j + 1][..j] == alerts[..j];
      var alert := alerts[j];
      var icon := if alert.priority == High then "\U{1F534}" else if alert.priority == Medium then "\U{1F7E1}" else "\U{1F7E2}";
      out := out + ["- " + icon + " " + alert.message];
    }
    assert alerts[..|alerts|] == alerts;
  }
}
