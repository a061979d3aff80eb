/**
 * The rule-based severity classifier `extract_severity_indicator`:
 * the vulnerability name is coerced to text, lowercased, and tested against
 * three fixed keyword lists in priority order; the first list with a keyword
 * occurring in the name decides the label, and `Low` is the fallback.
 */
module SeverityClassifier {
  import opened Wrappers
  import opened Text

  /** The four ordinal labels, highest first. */
  datatype Severity = Critical | High | Medium | Low

  /** Position on the ordinal scale, 3 for `Critical` down to 0 for `Low`. */
  function Rank(s: Severity): nat {
    match s
    case Critical => 3
    case High => 2
    case Medium => 1
    case Low => 0
  }

  const CriticalTerms: seq<string> := ["remote code execution", "arbitrary code execution", "code injection"]
  const HighTerms: seq<string> := ["privilege escalation", "buffer overflow", "sql injection"]
  const MediumTerms: seq<string> := ["denial of service", "authentication bypass", "information disclosure"]

  /** All nine keywords. */
  const Keywords: seq<string> := CriticalTerms + HighTerms + MediumTerms

  /** Some keyword of `terms` occurs in the lowercased `name`. */
  ghost predicate Mentions(name: string, terms: seq<string>) {
    exists t :: t in terms && Occurs(Lower(name), t)
  }

  /** Classification of a name that is already text. */
  function Classify(name: string): (r: Severity)
    ensures r == Critical <==> Mentions(name, CriticalTerms)
    ensures r == High <==> !Mentions(name, CriticalTerms) && Mentions(name, HighTerms)
    ensures r == Medium <==>
      !Mentions(name, CriticalTerms) && !Mentions(name, HighTerms) && Mentions(name, MediumTerms)
    ensures r == Low <==>
      !Mentions(name, CriticalTerms) && !Mentions(name, HighTerms) && !Mentions(name, MediumTerms)
  {
    var lower := Lower(name);
    if AnyContains(lower, CriticalTerms) then Critical
    else if AnyContains(lower, HighTerms) then High
    else if AnyContains(lower, MediumTerms) then Medium
    else Low
  }

  /** Python's `str(x)` on a name cell: a missing value prints as "nan". */
  function AsText(cell: Option<string>): string {
    match cell
    case Some(s) => s
    case None => "nan"
  }

  /** `extract_severity_indicator`, applied to one `vulnerabilityName` cell. */
  function ExtractSeverityIndicator(vulnName: Option<string>): (r: Severity)
    ensures vulnName.None? ==> r == Low
    ensures vulnName.Some? ==> r == Classify(vulnName.value)
  {
    var r := Classify(AsText(vulnName));
    if vulnName.None? then
      assert !Mentions("nan", CriticalTerms) by { NothingOccursInNan(CriticalTerms); }
      assert !Mentions("nan", HighTerms) by { NothingOccursInNan(HighTerms); }
      assert !Mentions("nan", MediumTerms) by { NothingOccursInNan(MediumTerms); }
      r
    else
      r
  }

  /** Every keyword is longer than the three characters of "nan". */
  lemma NothingOccursInNan(terms: seq<string>)
    requires terms == CriticalTerms || terms == HighTerms || terms == MediumTerms
    ensures !Mentions("nan", terms)
  {
  }

  /** The result is `Low` exactly when none of the nine keywords occurs in the lowercased name. */
  lemma LowIffNoKeyword(name: string)
    ensures Classify(name) == Low <==> forall t :: t in Keywords ==> !Occurs(Lower(name), t)
  {
  }

  /** A Critical keyword decides the label whatever other keywords occur. */
  lemma CriticalKeywordWins(name: string, term: string)
    requires term in CriticalTerms && Occurs(Lower(name), term)
    ensures Classify(name) == Critical
  {
  }

  /** Classification ignores case: lowercasing the name first does not change the label. */
  lemma ClassifyIgnoresCase(name: string)
    ensures Classify(Lower(name)) == Classify(name)
  {
    LowerIdempotent(name);
  }

  /** Appending text to a name never lowers its label: keyword matches survive extension. */
  lemma ExtensionNeverLowersRank(name: string, more: string)
    ensures Rank(Classify(name)) <= Rank(Classify(name + more))
  {
    LowerConcat(name, more);
    forall t: string | Occurs(Lower(name), t)
      ensures Occurs(Lower(name + more), t)
    {
      OccursInExtension(Lower(name), Lower(more), t);
    }
  }

  /** The first-match-wins scan over an ordered list of (label, keywords) rules. */
  function FirstMatch(text: string, rules: seq<(Severity, seq<string>)>, fallback: Severity): Severity {
    if rules == [] then fallback
    else if AnyContains(text, rules[0].1) then rules[0].0
    else FirstMatch(text, rules[1..], fallback)
  }

  /** The classifier's priority order as data. */
  const Rules: seq<(Severity, seq<string>)> :=
    [(Critical, CriticalTerms), (High, HighTerms), (Medium, MediumTerms)]

  /** The nested if/elif chain is the first-match scan over `Rules` with `Low` as fallback. */
  lemma ClassifyIsFirstMatch(name: string)
    ensures Classify(name) == FirstMatch(Lower(name), Rules, Low)
  {
    var text := Lower(name);
    var rest := [(High, HighTerms), (Medium, MediumTerms)];
    assert Rules[1..] == rest && rest[1..] == [(Medium, MediumTerms)] && rest[1..][1..] == [];
    assert FirstMatch(text, rest[1..], Low) == if AnyContains(text, MediumTerms) then Medium else Low;
    assert FirstMatch(text, rest, Low) ==
      if AnyContains(text, HighTerms) then High else FirstMatch(text, rest[1..], Low);
    assert FirstMatch(text, Rules, Low) ==
      if AnyContains(text, CriticalTerms) then Critical else FirstMatch(text, rest, Low);
  }

  /** A Critical keyword written in any case, anywhere in the name, makes it Critical. */
  lemma CriticalKeywordInAnyCaseIsCritical(head: string, key: string, tail: string)
    requires Lower(key) in CriticalTerms
    ensures Classify(head + key + tail) == Critical
  {
    LowerConcat(head, key);
    LowerConcat(head + key, tail);
    OccursInMiddle(Lower(head), Lower(key), Lower(tail));
    CriticalKeywordWins(head + key + tail, Lower(key));
  }

  /** The keyword part of the example name, lowercased. */
  lemma LowerRemoteCodeExecution()
    ensures Lower("Remote Code Execution") == "remote code execution"
  {
  }

  /** "Apache Struts Remote Code Execution Vulnerability" is Critical. */
  lemma StrutsRemoteCodeExecutionIsCritical()
    ensures ExtractSeverityIndicator(Some("Apache Struts " + "Remote Code Execution" + " Vulnerability")) == Critical
  {
    LowerRemoteCodeExecution();
    CriticalKeywordInAnyCaseIsCritical("Apache Struts ", "Remote Code Execution", " Vulnerability");
  }

  /** The second example name, lowercased, holds no 't', 'b' or 'd'. */
  lemma LowerGenericConfigIssue()
    ensures var lower := Lower("Generic Config Issue"); 't' !in lower && 'b' !in lower && 'd' !in lower
  {
    LowerConcat("Generic ", "Config ");
    LowerConcat("Generic Config ", "Issue");
    assert Lower("Generic ") == "generic ";
    assert Lower("Config ") == "config ";
    assert Lower("Issue") == "issue";
  }

  /** None of the nine keywords occurs in "generic config issue": each is too long or holds a 't', 'b' or 'd'. */
  lemma NoKeywordInGenericConfigIssue()
    ensures !Mentions("Generic Config Issue", CriticalTerms)
    ensures !Mentions("Generic Config Issue", HighTerms)
    ensures !Mentions("Generic Config Issue", MediumTerms)
  {
    var lower := Lower("Generic Config Issue");
    LowerGenericConfigIssue();
    LongPatternAbsent(lower, "remote code execution");
    LongPatternAbsent(lower, "arbitrary code execution");
    AbsentCharBlocks(lower, "code injection", 10);
    AbsentCharBlocks(lower, "privilege escalation", 16);
    AbsentCharBlocks(lower, "buffer overflow", 0);
    AbsentCharBlocks(lower, "sql injection", 9);
    AbsentCharBlocks(lower, "denial of service", 0);
    LongPatternAbsent(lower, "authentication bypass");
    LongPatternAbsent(lower, "information disclosure");
  }

  /** "Generic Config Issue" falls through to Low. */
  lemma GenericConfigIssueIsLow()
    ensures ExtractSeverityIndicator(Some("Generic Config Issue")) == Low
  {
    NoKeywordInGenericConfigIssue();
  }
}
