/**
 * The pre-processing block of the analysis script: the loaded table is copied,
 * missing `cwes` and `notes` are filled, and derived columns are added
 * (days to due, ransomware target, severity indicator, vendor risk score,
 * text lengths). Dates are taken as already parsed day numbers.
 */
module Preprocessing {
  import opened Wrappers
  import opened Text
  import opened SeverityClassifier

  /** One row of the known-exploited-vulnerabilities table; text cells may be missing. */
  datatype Vulnerability = Vulnerability(
    vendorProject: Option<string>,
    product: Option<string>,
    vulnerabilityName: Option<string>,
    shortDescription: Option<string>,
    dateAdded: int,
    dueDate: int,
    knownRansomwareCampaignUse: Option<string>,
    cwes: Option<string>,
    notes: Option<string>)

  /** One row of the processed table: the source columns (after filling) and the derived ones. */
  datatype ProcessedRow = ProcessedRow(
    fields: Vulnerability,
    daysToDue: int,
    ransomwareTarget: int,
    severityIndicator: Severity,
    vendorRiskScore: Option<nat>,
    shortDescLength: Option<nat>,
    vulnNameLength: Option<nat>)

  const CwesDefault: string := "Unknown"
  const NotesDefault: string := "No notes"
  const KnownLabel: string := "Known"

  /** Both fill steps on one row. */
  function FillMissing(r: Vulnerability): Vulnerability {
    r.(cwes := Some(r.cwes.GetOr(CwesDefault)), notes := Some(r.notes.GetOr(NotesDefault)))
  }

  /** `dueDate - dateAdded` in days; negative when the due date comes first. */
  function DaysToDue(r: Vulnerability): (d: int)
    ensures r.dateAdded + d == r.dueDate
    ensures d < 0 <==> r.dueDate < r.dateAdded
  {
    r.dueDate - r.dateAdded
  }

  /** `(knownRansomwareCampaignUse == 'Known').astype(int)` on one cell. */
  function RansomwareTarget(use: Option<string>): (flag: int)
    ensures flag == 0 || flag == 1
    ensures flag == 1 <==> use == Some(KnownLabel)
  {
    if use == Some(KnownLabel) then 1 else 0
  }

  /** `.str.len()` on one cell: missing stays missing. */
  function StrLen(cell: Option<string>): Option<nat> {
    match cell
    case Some(s) => Some(|s|)
    case None => None
  }

  /** One column of the table, read through `field`. */
  function Column<T>(df: seq<Vulnerability>, field: Vulnerability -> T): (col: seq<T>)
    ensures |col| == |df|
    ensures forall i :: 0 <= i < |df| ==> col[i] == field(df[i])
  {
    seq(|df|, i requires 0 <= i < |df| => field(df[i]))
  }

  /** The `vendorProject` column. */
  function VendorColumn(df: seq<Vulnerability>): seq<Option<string>> {
    Column(df, (r: Vulnerability) => r.vendorProject)
  }

  /** How many cells of `col` hold `v`. */
  function CountOf(col: seq<Option<string>>, v: string): nat {
    if col == [] then 0
    else CountOf(col[..|col| - 1], v) + (if col[|col| - 1] == Some(v) then 1 else 0)
  }

  /** Appending one cell adds one to the count of its own value only. */
  lemma CountOfAppend(col: seq<Option<string>>, cell: Option<string>, v: string)
    ensures CountOf(col + [cell], v) == CountOf(col, v) + (if cell == Some(v) then 1 else 0)
  {
  }

  /** The row positions whose cell holds `v`. */
  ghost function Positions(col: seq<Option<string>>, v: string): set<nat> {
    set i: nat | i < |col| && col[i] == Some(v)
  }

  /** `CountOf` is the number of positions holding `v`. */
  lemma {:induction false} CountOfIsPositionCount(col: seq<Option<string>>, v: string)
    ensures CountOf(col, v) == |Positions(col, v)|
  {
    if col != [] {
      var n := |col| - 1;
      var front := col[..n];
      CountOfIsPositionCount(front, v);
      if col[n] == Some(v) {
        assert Positions(col, v) == Positions(front, v) + {n};
      } else {
        assert Positions(col, v) == Positions(front, v);
      }
    }
  }

  /** A value that never occurs in the column is counted zero times. */
  lemma {:induction false} CountOfAbsent(col: seq<Option<string>>, v: string)
    requires Some(v) !in col
    ensures CountOf(col, v) == 0
  {
    if col != [] {
      CountOfAbsent(col[..|col| - 1], v);
    }
  }

  /** A value that occurs in the column is counted at least once. */
  lemma {:induction false} CountOfPositive(col: seq<Option<string>>, v: string)
    requires Some(v) in col
    ensures CountOf(col, v) >= 1
  {
    var n := |col| - 1;
    if col[n] != Some(v) {
      assert col == col[..n] + [col[n]];
      CountOfPositive(col[..n], v);
    }
  }

  /** `vendor_risk_score` of a row: how many rows of the table share its vendor; missing for a missing vendor. */
  function VendorRiskScore(df: seq<Vulnerability>, vendor: Option<string>): Option<nat> {
    match vendor
    case Some(v) => Some(CountOf(VendorColumn(df), v))
    case None => None
  }

  /** Every derived column of one row of `df`. */
  function ProcessRow(df: seq<Vulnerability>, r: Vulnerability): ProcessedRow {
    ProcessedRow(
      FillMissing(r),
      DaysToDue(r),
      RansomwareTarget(r.knownRansomwareCampaignUse),
      ExtractSeverityIndicator(r.vulnerabilityName),
      VendorRiskScore(df, r.vendorProject),
      StrLen(r.shortDescription),
      StrLen(r.vulnerabilityName))
  }

  /** The processed table, row by row. */
  function Processed(df: seq<Vulnerability>): (out: seq<ProcessedRow>)
    ensures |out| == |df|
  {
    seq(|df|, i requires 0 <= i < |df| => ProcessRow(df, df[i]))
  }

  /** `fillna(value)` on a column: missing cells become `value`, present ones are kept. */
  method FillNa(col: seq<Option<string>>, value: string) returns (filled: seq<Option<string>>)
    ensures |filled| == |col|
    ensures forall i :: 0 <= i < |col| ==> filled[i].Some?
    ensures forall i :: 0 <= i < |col| && col[i].Some? ==> filled[i] == col[i]
    ensures forall i :: 0 <= i < |col| && col[i].None? ==> filled[i] == Some(value)
  {
    filled := col;
    for i := 0 to |col|
      invariant |filled| == |col|
      invariant forall j :: 0 <= j < i ==> filled[j] == Some(col[j].GetOr(value))
      invariant forall j :: i <= j < |col| ==> filled[j] == col[j]
    {
      if filled[i].None? {
        filled := filled[i := Some(value)];
      }
    }
  }

  /** An element-wise column operation (`apply`, or a vectorised comparison or `.str.len()`). */
  method Apply<A, B>(col: seq<A>, f: A -> B) returns (mapped: seq<B>)
    ensures |mapped| == |col|
    ensures forall i :: 0 <= i < |col| ==> mapped[i] == f(col[i])
  {
    mapped := [];
    for i := 0 to |col|
      invariant |mapped| == i
      invariant forall j :: 0 <= j < i ==> mapped[j] == f(col[j])
    {
      mapped := mapped + [f(col[i])];
    }
  }

  /**
   * `value_counts()` on a column: a dictionary from each present value to the
   * number of cells holding it. Missing cells are skipped.
   */
  method ValueCounts(col: seq<Option<string>>) returns (counts: map<string, nat>)
    ensures forall v :: v in counts <==> Some(v) in col
    ensures forall v :: v in counts ==> counts[v] == CountOf(col, v)
  {
    counts := map[];
    for i := 0 to |col|
      invariant forall v :: v in counts <==> Some(v) in col[..i]
      invariant forall v :: v in counts ==> counts[v] == CountOf(col[..i], v)
    {
      assert col[..i + 1][..i] == col[..i];
      assert forall v :: CountOf(col[..i + 1], v) == CountOf(col[..i], v) + (if col[i] == Some(v) then 1 else 0);
      assert forall v :: Some(v) in col[..i + 1] <==> Some(v) in col[..i] || col[i] == Some(v);
      match col[i] {
        case None =>
        case Some(v) =>
          if v !in counts {
            CountOfAbsent(col[..i], v);
          }
          counts := counts[v := if v in counts then counts[v] + 1 else 1];
      }
    }
    assert col[..|col|] == col;
  }

  /** `col.map(counts)`: the count of each present cell's value; missing where the cell or its key is missing. */
  method MapCounts(col: seq<Option<string>>, counts: map<string, nat>) returns (mapped: seq<Option<nat>>)
    ensures |mapped| == |col|
    ensures forall i :: 0 <= i < |col| && col[i].Some? && col[i].value in counts ==>
      mapped[i] == Some(counts[col[i].value])
    ensures forall i :: 0 <= i < |col| && (col[i].None? || col[i].value !in counts) ==> mapped[i].None?
  {
    mapped := [];
    for i := 0 to |col|
      invariant |mapped| == i
      invariant forall j :: 0 <= j < i && col[j].Some? && col[j].value in counts ==>
        mapped[j] == Some(counts[col[j].value])
      invariant forall j :: 0 <= j < i && (col[j].None? || col[j].value !in counts) ==> mapped[j].None?
    {
      var cell: Option<nat> := None;
      if col[i].Some? && col[i].value in counts {
        cell := Some(counts[col[i].value]);
      }
      mapped := mapped + [cell];
    }
  }

  /** A row whose every column agrees with the specification is the processed row at `i`. */
  lemma ProcessedRowAt(df: seq<Vulnerability>, i: nat, row: ProcessedRow)
    requires i < |df|
    requires row.fields == FillMissing(df[i])
    requires row.daysToDue == DaysToDue(df[i])
    requires row.ransomwareTarget == RansomwareTarget(df[i].knownRansomwareCampaignUse)
    requires row.severityIndicator == ExtractSeverityIndicator(df[i].vulnerabilityName)
    requires row.vendorRiskScore == VendorRiskScore(df, df[i].vendorProject)
    requires row.shortDescLength == StrLen(df[i].shortDescription)
    requires row.vulnNameLength == StrLen(df[i].vulnerabilityName)
    ensures Processed(df)[i] == row
  {
  }

  /** Extending a prefix by one element. */
  lemma PrefixStep<T>(s: seq<T>, i: nat)
    requires i < |s|
    ensures s[..i + 1] == s[..i] + [s[i]]
  {
  }

  /** The pre-processing block, column by column on a copy of the table. */
  method Preprocess(df: seq<Vulnerability>) returns (out: seq<ProcessedRow>)
    ensures out == Processed(df)
  {
    var cwes := FillNa(Column(df, (r: Vulnerability) => r.cwes), CwesDefault);
    var notes := FillNa(Column(df, (r: Vulnerability) => r.notes), NotesDefault);
    var ransomware := Apply(Column(df, (r: Vulnerability) => r.knownRansomwareCampaignUse), RansomwareTarget);
    var severity := Apply(Column(df, (r: Vulnerability) => r.vulnerabilityName), ExtractSeverityIndicator);
    var vendors := VendorColumn(df);
    var vendorRisk := ValueCounts(vendors);
    var score := MapCounts(vendors, vendorRisk);
    var descLength := Apply(Column(df, (r: Vulnerability) => r.shortDescription), StrLen);
    var nameLength := Apply(Column(df, (r: Vulnerability) => r.vulnerabilityName), StrLen);

    assert vendors == Column(df, (r: Vulnerability) => r.vendorProject);
    forall j | 0 <= j < |df| ensures score[j] == VendorRiskScore(df, df[j].vendorProject) {
      if df[j].vendorProject.Some? {
        assert vendors[j] == df[j].vendorProject;
      }
    }
    out := [];
    for i := 0 to |df|
      invariant out == Processed(df)[..i]
    {
      var row := ProcessedRow(df[i].(cwes := cwes[i], notes := notes[i]), df[i].dueDate - df[i].dateAdded,
                              ransomware[i], severity[i], score[i], descLength[i], nameLength[i]);
      ProcessedRowAt(df, i, row);
      PrefixStep(Processed(df), i);
      out := out + [row];
    }
  }

  /** The fills replace only missing `cwes` and `notes`; every other column and every present value is kept. */
  lemma FillReplacesOnlyMissing(df: seq<Vulnerability>, i: nat)
    requires i < |df|
    ensures Processed(df)[i].fields.cwes == if df[i].cwes.None? then Some(CwesDefault) else df[i].cwes
    ensures Processed(df)[i].fields.notes == if df[i].notes.None? then Some(NotesDefault) else df[i].notes
    ensures Processed(df)[i].fields.(cwes := df[i].cwes, notes := df[i].notes) == df[i]
  {
  }

  /**
   * A row with a present vendor scores the number of rows of the table that share
   * that vendor, which is at least one; a row with a missing vendor has no score.
   */
  lemma VendorScoreIsFrequency(df: seq<Vulnerability>, i: nat)
    requires i < |df|
    ensures df[i].vendorProject.None? ==> Processed(df)[i].vendorRiskScore.None?
    ensures df[i].vendorProject.Some? ==>
      var v := df[i].vendorProject.value;
      Processed(df)[i].vendorRiskScore ==
        Some(|set j: nat | j < |df| && df[j].vendorProject == Some(v)|)
    ensures df[i].vendorProject.Some? ==>
      Processed(df)[i].vendorRiskScore.Some? && Processed(df)[i].vendorRiskScore.value >= 1
  {
    if df[i].vendorProject.Some? {
      var v := df[i].vendorProject.value;
      var col := VendorColumn(df);
      CountOfIsPositionCount(col, v);
      assert Positions(col, v) == set j: nat | j < |df| && df[j].vendorProject == Some(v);
      assert col[i] == Some(v);
      CountOfPositive(col, v);
    }
  }

  /** Two rows with the same vendor get the same score. */
  lemma EqualVendorsEqualScores(df: seq<Vulnerability>, i: nat, j: nat)
    requires i < |df| && j < |df|
    requires df[i].vendorProject == df[j].vendorProject
    ensures Processed(df)[i].vendorRiskScore == Processed(df)[j].vendorRiskScore
  {
  }

  /** Three rows from Acme and one from another vendor: each Acme row scores 3. */
  lemma ThreeAcmeRowsScoreThree(a: Vulnerability, b: Vulnerability, c: Vulnerability, d: Vulnerability)
    requires a.vendorProject == b.vendorProject == c.vendorProject == Some("Acme")
    requires d.vendorProject != Some("Acme")
    ensures forall i :: 0 <= i < 3 ==> Processed([a, b, c, d])[i].vendorRiskScore == Some(3)
  {
    var df := [a, b, c, d];
    AcmeCount(df);
    forall i | 0 <= i < 3 ensures Processed(df)[i].vendorRiskScore == Some(3) {
      assert Processed(df)[i] == ProcessRow(df, df[i]);
    }
  }

  lemma AcmeCount(df: seq<Vulnerability>)
    requires |df| == 4
    requires forall i :: 0 <= i < 3 ==> df[i].vendorProject == Some("Acme")
    requires df[3].vendorProject != Some("Acme")
    ensures CountOf(VendorColumn(df), "Acme") == 3
  {
    var col := VendorColumn(df);
    var acme := Some("Acme");
    assert col == [acme, acme, acme] + [df[3].vendorProject];
    assert [acme] == [] + [acme] && [acme, acme] == [acme] + [acme] && [acme, acme, acme] == [acme, acme] + [acme];
    CountOfAppend([], acme, "Acme");
    CountOfAppend([acme], acme, "Acme");
    CountOfAppend([acme, acme], acme, "Acme");
    CountOfAppend([acme, acme, acme], df[3].vendorProject, "Acme");
  }

  /** A ransomware campaign value of "Unknown" is not a target, nor is a missing one. */
  lemma UnknownOrMissingIsNotTarget()
    ensures RansomwareTarget(Some("Unknown")) == 0
    ensures RansomwareTarget(None) == 0
  {
  }

  /** The length features are the character counts of present cells and missing otherwise. */
  lemma LengthFeatures(df: seq<Vulnerability>, i: nat)
    requires i < |df|
    ensures df[i].shortDescription.Some? ==> Processed(df)[i].shortDescLength == Some(|df[i].shortDescription.value|)
    ensures df[i].shortDescription.None? <==> Processed(df)[i].shortDescLength.None?
    ensures df[i].vulnerabilityName.Some? ==> Processed(df)[i].vulnNameLength == Some(|df[i].vulnerabilityName.value|)
    ensures df[i].vulnerabilityName.None? <==> Processed(df)[i].vulnNameLength.None?
  {
  }
}
