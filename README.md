# Known-exploited-vulnerabilities pre-processing, modelled in Dafny

This project models the feature-engineering block of `MainMLProject.py`, the
script that analyses the table of known exploited vulnerabilities. Its centre
is the rule-based severity classifier `extract_severity_indicator`. The
classifier turns a vulnerability name into text ("nan" when the name is
missing) and lowercases it. It then looks for three fixed keyword lists in
priority order (Critical, High, Medium); the first list with a keyword in the
name decides the label, and `Low` is the fallback. Around it, the model covers
the per-row derivations made on the copied table `df_processed`:

- the missing-value fills of `cwes` ("Unknown") and `notes` ("No notes");
- `days_to_due`, as a subtraction of day numbers;
- the `ransomware_target` flag (1 exactly when the campaign-use cell is "Known");
- the `severity_indicator` column;
- `vendor_risk_score`, from a vendor count dictionary (`value_counts`) broadcast back to every row;
- the `short_desc_length` and `vuln_name_length` text-length features.

Files:

- `wrappers.dfy` (`Wrappers`): `Option`, the model of a cell that may be missing (NaN).
- `text.dfy` (`Text`): ASCII lowercasing and substring search, each proved against a
  declarative definition (no capitals remain; `Occurs` = some offset where the pattern sits).
- `severity.dfy` (`SeverityClassifier`): the classifier and its properties.
- `preprocessing.dfy` (`Preprocessing`): the table as a sequence of `Vulnerability` records,
  the column operations as loop methods (`FillNa`, `Apply`, `ValueCounts`, `MapCounts`),
  the whole block as the method `Preprocess`, proved equal to the pure specification `Processed`,
  and lemmas about `Processed`.

The table is a `seq` value, so the source table stays unchanged while the
copy is enriched (the guarantee of `df.copy()` at line 70). A row with a missing vendor gets no score: `value_counts` (line 102) skips
missing values, so `map` (line 103) finds no key for it; the model gives such
a row `None`.

## Model

| member | source | states |
|---|---|---|
| `Text.Lower` | MainMLProject.py:89 | lowercasing keeps the length, turns each ASCII capital into the small letter at the same alphabet position, keeps every other character, and leaves no ASCII capital |
| `Text.LowerIdempotent` | MainMLProject.py:89 | lowercasing twice is the same as lowercasing once |
| `Text.Contains` | MainMLProject.py:90 | `term in text` is true exactly when the term sits at some offset of the text |
| `Text.AnyContains` | MainMLProject.py:90-94 | `any(term in text for term in terms)` is true exactly when some term of the list occurs in the text |
| `SeverityClassifier.Classify` | MainMLProject.py:89-97 | Critical iff a Critical keyword occurs in the lowercased name; High iff none does and a High keyword does; Medium iff neither Critical nor High keywords occur and a Medium one does; Low iff none of the three lists matches. So every name gets exactly one of the four labels |
| `SeverityClassifier.ExtractSeverityIndicator` | MainMLProject.py:88-97 | a missing name (text "nan") is Low; a present name gets the label of its text |
| `SeverityClassifier.LowIffNoKeyword` | MainMLProject.py:89-97 | the label is Low exactly when none of the nine keywords occurs in the lowercased name |
| `SeverityClassifier.CriticalKeywordWins` | MainMLProject.py:90-91 | a Critical keyword in the name gives Critical, whatever other keywords occur |
| `SeverityClassifier.ClassifyIgnoresCase` | MainMLProject.py:89 | classifying the lowercased name gives the same label as classifying the name |
| `SeverityClassifier.ClassifyIsFirstMatch` | MainMLProject.py:88-97 | the if/elif chain equals a first-match-wins scan over the ordered rule list (Critical, High, Medium) with Low as fallback |
| `SeverityClassifier.ExtensionNeverLowersRank` | MainMLProject.py:90-97 | appending text to a name never lowers its label on the ordinal scale, since matches survive extension and earlier lists win |
| `SeverityClassifier.NothingOccursInNan` | MainMLProject.py:89 | no keyword of any list occurs in the text "nan" |
| `SeverityClassifier.CriticalKeywordInAnyCaseIsCritical` | MainMLProject.py:89-91 | a Critical keyword written in any mix of cases, anywhere in the name, makes the name Critical |
| `SeverityClassifier.StrutsRemoteCodeExecutionIsCritical` | MainMLProject.py:88-91 | "Apache Struts Remote Code Execution Vulnerability" is Critical |
| `SeverityClassifier.GenericConfigIssueIsLow` | MainMLProject.py:88-97 | "Generic Config Issue" is Low |
| `Preprocessing.DaysToDue` | MainMLProject.py:62 | added date plus days to due is the due date; the value is negative exactly when the due date comes first |
| `Preprocessing.RansomwareTarget` | MainMLProject.py:85 | the flag is 0 or 1, and 1 exactly when the cell is present and equal to "Known" |
| `Preprocessing.UnknownOrMissingIsNotTarget` | MainMLProject.py:85 | "Unknown" and a missing cell both give 0 |
| `Preprocessing.FillNa` | MainMLProject.py:74-75 | `fillna` keeps the column length, leaves no missing cell, keeps present cells, and puts the fill value in missing ones |
| `Preprocessing.Apply` | MainMLProject.py:99 | an element-wise column operation gives a column of the same length holding the function's value at each row |
| `Preprocessing.ValueCounts` | MainMLProject.py:102 | the count dictionary has exactly the present values as keys, and maps each to the number of cells holding it |
| `Preprocessing.MapCounts` | MainMLProject.py:103 | broadcasting the dictionary gives each present cell its value's count, and gives no value where the cell or its key is missing |
| `Preprocessing.CountOfIsPositionCount` | MainMLProject.py:102 | the count of a value is the size of the set of row positions holding it |
| `Preprocessing.CountOfPositive` | MainMLProject.py:102 | a value that occurs in the column has a count of at least 1 |
| `Preprocessing.CountOfAbsent` | MainMLProject.py:102 | a value that never occurs has a count of 0 |
| `Preprocessing.Preprocess` | MainMLProject.py:70-107 | the column-by-column block produces exactly the specified processed table, one row per source row |
| `Preprocessing.FillReplacesOnlyMissing` | MainMLProject.py:74-75 | in the processed table a missing `cwes` becomes "Unknown" and a missing `notes` becomes "No notes"; present values and every other column are unchanged |
| `Preprocessing.VendorScoreIsFrequency` | MainMLProject.py:102-103 | a row with a present vendor scores the number of rows sharing that vendor, which is at least 1; a row with a missing vendor has no score |
| `Preprocessing.EqualVendorsEqualScores` | MainMLProject.py:102-103 | two rows with the same vendor get the same score |
| `Preprocessing.ThreeAcmeRowsScoreThree` | MainMLProject.py:102-103 | in a table with three "Acme" rows and one row from another vendor, each Acme row scores 3 |
| `Preprocessing.LengthFeatures` | MainMLProject.py:106-107 | the length features are the character counts of present description and name cells, and missing exactly when the cell is missing |

## Left out

- Loading the CSV file (line 14): file input through a library. The model starts from the loaded table.
- Console output and profiling (lines 16-57, 64, 67, 73, 78, 109-110): `print`, `info`, `describe`, the top-10 vendor display and `display`.
- The missing-value percentages and the mean of `days_to_due` (lines 36, 64): floating-point statistics.
- Date parsing and calendar parts (lines 60-61, 81-82): dates are taken as already parsed day numbers, so `year_added` and `month_added` are not modelled, and a date that fails to parse is not modelled either.
- Plotting style and warning suppression (lines 3-11): configuration with no logic.
- Text.Lower: lowercases ASCII letters only, not the full Unicode `str.lower()`; no keyword contains a letter whose Unicode lowercasing differs, but a non-ASCII capital in a name is kept as it is.
- SeverityClassifier.AsText: only text and missing names are modelled; `str()` of other Python objects (numbers in the name column) is not.
- Preprocessing.ValueCounts: gives a dictionary, not a pandas Series sorted by count; the order does not matter for the lookup at line 103.
- Preprocessing.LengthFeatures: when every cell of `shortDescription` (or of `vulnerabilityName`) is missing, pandas reads that column as floats and `.str.len()` at line 106 (or 107) raises an error that stops the script; the model instead gives a column of `None` there.
- Integers are unbounded; pandas' 64-bit integer columns for counts, lengths and day differences are not bounded in the model.
