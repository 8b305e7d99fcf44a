/** The coverage matcher: mapping rows tie a method `pkg.Class.method` to a
    feature description, test-case rows name a tested feature, and a changed
    method counts as covered when some test's feature matches its
    description. */
module Coverage {
  import opened Text
  import opened Results
  import opened Seqs
  import opened Rows

  datatype MappingEntry = MappingEntry(
    packageName: string, className: string, methodName: string, description: string)

  datatype TestCase = TestCase(
    testId: string, testFunction: string, testSteps: string, expectedResult: string)

  /** A changed method as the entry module hands it over. The source reads
      its fields with `.get(key, "")`; the model takes all three as present,
      since every caller in api/index.py supplies them. */
  datatype ChangedMethod = ChangedMethod(packageName: string, className: string, methodName: string)

  datatype DetailRow = DetailRow(
    methodName: string, description: string, isCovered: bool, matchedTests: seq<string>)

  datatype CoverageResult = CoverageResult(
    totalChangedMethods: nat,
    coveredMethods: seq<string>,
    uncoveredMethods: seq<string>,
    coverageRate: real,
    coverageDetails: seq<DetailRow>,
    error: Option<string>)

  const NoChangesError := "没有检测到代码改动"
  const NoMappingDescription := "无映射描述"

  /** Separators of description keywords: whitespace, ',', the full-width
      comma and '/'. */
  const KeywordSeparators: set<char> := AsciiSpaces + {',', '，', '/'}

  function FullQualifiedName(e: MappingEntry): string {
    DottedName(e.packageName, e.className, e.methodName)
  }

  function FullName(m: ChangedMethod): string {
    DottedName(m.packageName, m.className, m.methodName)
  }

  // ---------------------------------------------------------------------
  // parse_mapping_data

  /** The entry a mapping row yields, Chinese header first. */
  function MappingEntryOf(row: Row): MappingEntry {
    MappingEntry(
      Strip(Field(row, "包名", "package_name")),
      Strip(Field(row, "类名", "class_name")),
      Strip(Field(row, "方法名", "method_name")),
      Strip(Field(row, "功能描述", "description")))
  }

  /** A mapping row is kept when its package, class and method are present. */
  predicate KeepsMappingRow(row: Row) {
    var e := MappingEntryOf(row);
    e.packageName != "" && e.className != "" && e.methodName != ""
  }

  /** The entries of the kept rows, in row order. */
  function MappingEntries(rows: seq<Row>): seq<MappingEntry> {
    Select(rows, KeepsMappingRow, MappingEntryOf)
  }

  method ParseMappingData(rows: seq<Row>) returns (entries: seq<MappingEntry>)
    ensures entries == MappingEntries(rows)
  {
    entries := [];
    for i := 0 to |rows|
      invariant entries == Select(rows[..i], KeepsMappingRow, MappingEntryOf)
    {
      SelectStep(rows, i, KeepsMappingRow, MappingEntryOf);
      var row := rows[i];
      var packageName := Strip(Field(row, "包名", "package_name"));
      var className := Strip(Field(row, "类名", "class_name"));
      var methodName := Strip(Field(row, "方法名", "method_name"));
      var desc := Strip(Field(row, "功能描述", "description"));
      if packageName != "" && className != "" && methodName != "" {
        entries := entries + [MappingEntry(packageName, className, methodName, desc)];
      }
    }
    assert rows[..|rows|] == rows;
  }

  /** parse_mapping_data keeps exactly the rows with a package, class and
      method, in order: an entry comes from a kept row and every kept row
      gives one. */
  lemma {:induction false} MappingEntriesExact(rows: seq<Row>)
    ensures forall e :: e in MappingEntries(rows) <==>
      exists i :: 0 <= i < |rows| && KeepsMappingRow(rows[i]) && MappingEntryOf(rows[i]) == e
  {
    SelectMembers(rows, KeepsMappingRow, MappingEntryOf);
  }

  /** When every row qualifies nothing is dropped. */
  lemma {:induction false} MappingEntriesAll(rows: seq<Row>)
    requires forall i :: 0 <= i < |rows| ==> KeepsMappingRow(rows[i])
    ensures MappingEntries(rows) == MapSeq(rows, MappingEntryOf)
  {
    SelectAll(rows, KeepsMappingRow, MappingEntryOf);
  }

  /** Every parsed entry has stripped, non-empty names. */
  lemma {:induction false} MappingEntriesStripped(rows: seq<Row>)
    ensures forall e :: e in MappingEntries(rows) ==> WellFormedEntry(e)
  {
    SelectMembers(rows, KeepsMappingRow, MappingEntryOf);
    forall e | e in MappingEntries(rows) ensures WellFormedEntry(e) {
      var i :| 0 <= i < |rows| && KeepsMappingRow(rows[i]) && MappingEntryOf(rows[i]) == e;
      KeptRowWellFormed(rows[i]);
    }
  }

  predicate WellFormedEntry(e: MappingEntry) {
    && e.packageName != "" && e.className != "" && e.methodName != ""
    && e.packageName == Strip(e.packageName) && e.className == Strip(e.className)
    && e.methodName == Strip(e.methodName)
  }

  lemma KeptRowWellFormed(row: Row)
    requires KeepsMappingRow(row)
    ensures WellFormedEntry(MappingEntryOf(row))
  {
    StripIdempotent(Field(row, "包名", "package_name"));
    StripIdempotent(Field(row, "类名", "class_name"));
    StripIdempotent(Field(row, "方法名", "method_name"));
  }

  lemma StripIdempotent(s: string)
    ensures Strip(Strip(s)) == Strip(s)
  {
    var r := Strip(s);
    if r != [] {
      assert LStrip(r) == r;
      assert RStrip(r) == r;
    }
  }

  // ---------------------------------------------------------------------
  // parse_test_cases

  function TestCaseOf(row: Row): TestCase {
    TestCase(
      Strip(Field(row, "测试用例ID", "test_id")),
      Strip(Field(row, "测试功能", "test_function")),
      Strip(Field(row, "测试步骤", "test_steps")),
      Strip(Field(row, "预期结果", "expected_result")))
  }

  /** A test-case row is kept when it has an id and a feature; steps and the
      expected result may be empty. */
  predicate KeepsTestRow(row: Row) {
    var t := TestCaseOf(row);
    t.testId != "" && t.testFunction != ""
  }

  function TestCases(rows: seq<Row>): seq<TestCase> {
    Select(rows, KeepsTestRow, TestCaseOf)
  }

  method ParseTestCases(rows: seq<Row>) returns (cases: seq<TestCase>)
    ensures cases == TestCases(rows)
  {
    cases := [];
    for i := 0 to |rows|
      invariant cases == Select(rows[..i], KeepsTestRow, TestCaseOf)
    {
      SelectStep(rows, i, KeepsTestRow, TestCaseOf);
      var row := rows[i];
      var testId := Strip(Field(row, "测试用例ID", "test_id"));
      var func := Strip(Field(row, "测试功能", "test_function"));
      var steps := Strip(Field(row, "测试步骤", "test_steps"));
      var expected := Strip(Field(row, "预期结果", "expected_result"));
      if testId != "" && func != "" {
        cases := cases + [TestCase(testId, func, steps, expected)];
      }
    }
    assert rows[..|rows|] == rows;
  }

  /** parse_test_cases keeps exactly the rows with an id and a feature, in
      order, whatever their steps and expected result. */
  lemma {:induction false} TestCasesExact(rows: seq<Row>)
    ensures forall t :: t in TestCases(rows) <==>
      exists i :: 0 <= i < |rows| && KeepsTestRow(rows[i]) && TestCaseOf(rows[i]) == t
  {
    SelectMembers(rows, KeepsTestRow, TestCaseOf);
  }

  /** Every parsed test case has an id and a feature. */
  lemma {:induction false} TestCasesNamed(rows: seq<Row>)
    ensures forall t :: t in TestCases(rows) ==> t.testId != "" && t.testFunction != ""
  {
    SelectMembers(rows, KeepsTestRow, TestCaseOf);
    forall t | t in TestCases(rows) ensures t.testId != "" && t.testFunction != "" {
      var i :| 0 <= i < |rows| && KeepsTestRow(rows[i]) && TestCaseOf(rows[i]) == t;
    }
  }

  /** No test case is parsed exactly when no row has both an id and a feature. */
  lemma {:induction false} TestCasesEmptyIff(rows: seq<Row>)
    ensures TestCases(rows) == [] <==> forall i :: 0 <= i < |rows| ==> !KeepsTestRow(rows[i])
  {
    SelectEmpty(rows, KeepsTestRow, TestCaseOf);
  }

  // ---------------------------------------------------------------------
  // _fuzzy_match

  function Keywords(desc: string): seq<string> {
    Words(desc, KeywordSeparators)
  }

  /** How many of `keywords` occur in `testFunc`. */
  function HitCount(keywords: seq<string>, testFunc: string): (n: nat)
    ensures n <= |keywords|
    decreases |keywords|
  {
    if keywords == [] then 0
    else HitCount(keywords[..|keywords| - 1], testFunc)
         + (if Contains(testFunc, keywords[|keywords| - 1]) then 1 else 0)
  }

  function Max(a: int, b: int): int {
    if a >= b then a else b
  }

  /** At least half of the description's keywords (and at least one) occur
      in the test feature. */
  predicate FuzzyMatch(desc: string, testFunc: string) {
    var keywords := Keywords(desc);
    |keywords| > 0 && HitCount(keywords, testFunc) >= Max(1, |keywords| / 2)
  }

  /** A description made only of separators never fuzzy-matches; one with a
      keyword matches as soon as every keyword occurs. */
  lemma FuzzyMatchBounds(desc: string, testFunc: string)
    ensures (forall i :: 0 <= i < |desc| ==> desc[i] in KeywordSeparators) ==> !FuzzyMatch(desc, testFunc)
    ensures (exists i :: 0 <= i < |desc| && desc[i] !in KeywordSeparators) &&
            (forall k :: 0 <= k < |Keywords(desc)| ==> Contains(testFunc, Keywords(desc)[k])) ==>
            FuzzyMatch(desc, testFunc)
  {
    WordsEmptyIff(desc, KeywordSeparators);
    if forall k :: 0 <= k < |Keywords(desc)| ==> Contains(testFunc, Keywords(desc)[k]) {
      AllHit(Keywords(desc), testFunc);
    }
  }

  lemma {:induction false} AllHit(keywords: seq<string>, testFunc: string)
    requires forall k :: 0 <= k < |keywords| ==> Contains(testFunc, keywords[k])
    ensures HitCount(keywords, testFunc) == |keywords|
    decreases |keywords|
  {
    if keywords != [] {
      AllHit(keywords[..|keywords| - 1], testFunc);
    }
  }

  /** With one to three keywords the threshold max(1, n / 2) is 1, so a
      description fuzzy-matches iff one of its keywords occurs. */
  lemma {:induction false} FewKeywords(desc: string, testFunc: string)
    requires 1 <= |Keywords(desc)| <= 3
    ensures FuzzyMatch(desc, testFunc) <==>
      exists k :: 0 <= k < |Keywords(desc)| && Contains(testFunc, Keywords(desc)[k])
  {
    var kw := Keywords(desc);
    HitCountPositive(kw, testFunc);
  }

  lemma {:induction false} HitCountPositive(keywords: seq<string>, testFunc: string)
    ensures HitCount(keywords, testFunc) > 0 <==>
      exists k :: 0 <= k < |keywords| && Contains(testFunc, keywords[k])
    decreases |keywords|
  {
    if keywords != [] {
      var init := keywords[..|keywords| - 1];
      HitCountPositive(init, testFunc);
      forall k | 0 <= k < |init| ensures init[k] == keywords[k] { }
    }
  }

  // ---------------------------------------------------------------------
  // analyze_coverage

  /** The test's feature matches the description (both lower-cased): either
      contains the other, or they fuzzy-match. */
  predicate Matches(descLower: string, funcLower: string) {
    Contains(funcLower, descLower) || Contains(descLower, funcLower) || FuzzyMatch(descLower, funcLower)
  }

  function MatchesTest(descLower: string): TestCase -> bool {
    (t: TestCase) => Matches(descLower, Lower(t.testFunction))
  }

  function TestIdOf(t: TestCase): string {
    t.testId
  }

  /** Ids of the tests whose lower-cased feature matches, in test order. */
  function MatchedIds(descLower: string, tests: seq<TestCase>): seq<string> {
    Select(tests, MatchesTest(descLower), TestIdOf)
  }

  /** mapping_index: full name -> description, a later entry overriding an
      earlier one. */
  function MappingIndex(entries: seq<MappingEntry>): map<string, string>
    decreases |entries|
  {
    if entries == [] then map[]
    else
      var e := entries[|entries| - 1];
      MappingIndex(entries[..|entries| - 1])[FullQualifiedName(e) := e.description]
  }

  /** A name is indexed iff some entry has it, and then it maps to the
      description of the LAST such entry. */
  lemma {:induction false} MappingIndexLastWins(entries: seq<MappingEntry>, name: string)
    ensures name in MappingIndex(entries) <==>
      exists j :: 0 <= j < |entries| && FullQualifiedName(entries[j]) == name
    ensures name in MappingIndex(entries) ==>
      exists j :: && 0 <= j < |entries| && FullQualifiedName(entries[j]) == name
                  && MappingIndex(entries)[name] == entries[j].description
                  && forall k :: j < k < |entries| ==> FullQualifiedName(entries[k]) != name
    decreases |entries|
  {
    if entries != [] {
      var init := entries[..|entries| - 1];
      var last := |entries| - 1;
      MappingIndexLastWins(init, name);
      forall j | 0 <= j < |init| ensures init[j] == entries[j] { }
      if FullQualifiedName(entries[last]) == name {
        assert MappingIndex(entries)[name] == entries[last].description;
      } else if name in MappingIndex(init) {
        var j :| && 0 <= j < |init| && FullQualifiedName(init[j]) == name
                 && MappingIndex(init)[name] == init[j].description
                 && forall k :: j < k < |init| ==> FullQualifiedName(init[k]) != name;
        assert MappingIndex(entries)[name] == entries[j].description;
      }
    }
  }

  method BuildMappingIndex(entries: seq<MappingEntry>) returns (index: map<string, string>)
    ensures index == MappingIndex(entries)
  {
    index := map[];
    for i := 0 to |entries|
      invariant index == MappingIndex(entries[..i])
    {
      assert entries[..i + 1][..i] == entries[..i];
      var key := FullQualifiedName(entries[i]);
      index := index[key := entries[i].description];
    }
    assert entries[..|entries|] == entries;
  }

  /** The inner loop over the test cases for one description. */
  method MatchTests(descLower: string, tests: seq<TestCase>) returns (isCovered: bool, matched: seq<string>)
    ensures matched == MatchedIds(descLower, tests)
    ensures isCovered == (matched != [])
  {
    isCovered := false;
    matched := [];
    for t := 0 to |tests|
      invariant matched == Select(tests[..t], MatchesTest(descLower), TestIdOf)
      invariant isCovered == (matched != [])
    {
      SelectStep(tests, t, MatchesTest(descLower), TestIdOf);
      var funcLower := Lower(tests[t].testFunction);
      if Contains(funcLower, descLower) || Contains(descLower, funcLower) || FuzzyMatch(descLower, funcLower) {
        isCovered := true;
        matched := matched + [tests[t].testId];
      }
    }
    assert tests[..|tests|] == tests;
  }

  function DescriptionOf(index: map<string, string>, name: string): string {
    if name in index then index[name] else ""
  }

  /** The detail row of one changed method; it depends on the method only
      through its full name. */
  function DetailOf(name: string, index: map<string, string>, tests: seq<TestCase>): DetailRow {
    var desc := DescriptionOf(index, name);
    var matched := if desc != "" then MatchedIds(Lower(desc), tests) else [];
    DetailRow(name, if desc != "" then desc else NoMappingDescription, matched != [], matched)
  }

  function Details(changed: seq<ChangedMethod>, index: map<string, string>, tests: seq<TestCase>): (d: seq<DetailRow>)
    ensures |d| == |changed|
  {
    seq(|changed|, i requires 0 <= i < |changed| => DetailOf(FullName(changed[i]), index, tests))
  }

  predicate IsCovered(d: DetailRow) {
    d.isCovered
  }

  predicate IsUncovered(d: DetailRow) {
    !d.isCovered
  }

  function MethodOf(d: DetailRow): string {
    d.methodName
  }

  function CoveredNames(details: seq<DetailRow>): seq<string> {
    Select(details, IsCovered, MethodOf)
  }

  function UncoveredNames(details: seq<DetailRow>): seq<string> {
    Select(details, IsUncovered, MethodOf)
  }

  /** What analyze_coverage returns. */
  function CoverageOf(changed: seq<ChangedMethod>, entries: seq<MappingEntry>, tests: seq<TestCase>): CoverageResult {
    if changed == [] then CoverageResult(0, [], [], 0.0, [], Some(NoChangesError))
    else
      var details := Details(changed, MappingIndex(entries), tests);
      var covered := CoveredNames(details);
      CoverageResult(|changed|, covered, UncoveredNames(details),
                     |covered| as real / |changed| as real, details, None)
  }

  method AnalyzeCoverage(changed: seq<ChangedMethod>, entries: seq<MappingEntry>, tests: seq<TestCase>)
    returns (r: CoverageResult)
    ensures r == CoverageOf(changed, entries, tests)
  {
    if |changed| == 0 {
      return CoverageResult(0, [], [], 0.0, [], Some(NoChangesError));
    }

    var index := BuildMappingIndex(entries);

    var covered: seq<string> := [];
    var uncovered: seq<string> := [];
    var details: seq<DetailRow> := [];
    for k := 0 to |changed|
      invariant details == Details(changed[..k], index, tests)
      invariant covered == CoveredNames(details)
      invariant uncovered == UncoveredNames(details)
    {
      var row := DescribeMethod(changed[k], index, tests);
      if row.isCovered {
        covered := covered + [row.methodName];
      } else {
        uncovered := uncovered + [row.methodName];
      }
      DetailsStep(changed, k, index, tests);
      NamesStep(details, row);
      details := details + [row];
    }
    assert changed[..|changed|] == changed;
    r := CoverageResult(|changed|, covered, uncovered, |covered| as real / |changed| as real, details, None);
  }

  /** The body of the loop over the changed methods. */
  method DescribeMethod(m: ChangedMethod, index: map<string, string>, tests: seq<TestCase>) returns (row: DetailRow)
    ensures row == DetailOf(FullName(m), index, tests)
  {
    var fullName := DottedName(m.packageName, m.className, m.methodName);
    var description := if fullName in index then index[fullName] else "";
    var isCovered := false;
    var matched: seq<string> := [];
    if description != "" {
      isCovered, matched := MatchTests(Lower(description), tests);
    }
    row := DetailRow(fullName, if description != "" then description else NoMappingDescription, isCovered, matched);
  }

  lemma DetailsStep(changed: seq<ChangedMethod>, k: nat, index: map<string, string>, tests: seq<TestCase>)
    requires k < |changed|
    ensures Details(changed[..k + 1], index, tests) ==
      Details(changed[..k], index, tests) + [DetailOf(FullName(changed[k]), index, tests)]
  {
    var longer := Details(changed[..k + 1], index, tests);
    var step := Details(changed[..k], index, tests) + [DetailOf(FullName(changed[k]), index, tests)];
    forall j | 0 <= j < k + 1 ensures longer[j] == step[j] {
      if j < k {
        assert changed[..k + 1][j] == changed[..k][j];
      }
    }
    assert |longer| == |step|;
  }

  lemma NamesStep(details: seq<DetailRow>, row: DetailRow)
    ensures CoveredNames(details + [row]) ==
      CoveredNames(details) + (if row.isCovered then [row.methodName] else [])
    ensures UncoveredNames(details + [row]) ==
      UncoveredNames(details) + (if row.isCovered then [] else [row.methodName])
  {
    assert (details + [row])[..|details|] == details;
  }

  // ---------------------------------------------------------------------
  // Properties of analyze_coverage

  /** With no changed methods the result is the error with nothing in it. */
  lemma NoChangesIsError(entries: seq<MappingEntry>, tests: seq<TestCase>)
    ensures var r := CoverageOf([], entries, tests);
      && r.error == Some(NoChangesError) && r.totalChangedMethods == 0
      && r.coveredMethods == [] && r.uncoveredMethods == [] && r.coverageDetails == []
  {
  }

  /** On a non-empty change list there is one detail per changed method, and
      the covered and uncovered lists share out the full names between them,
      repeats included. */
  lemma {:induction false} CoverageCounts(changed: seq<ChangedMethod>, entries: seq<MappingEntry>, tests: seq<TestCase>)
    requires changed != []
    ensures var r := CoverageOf(changed, entries, tests);
      && r.error == None
      && r.totalChangedMethods == |changed| == |r.coverageDetails|
      && |r.coveredMethods| + |r.uncoveredMethods| == r.totalChangedMethods
      && multiset(r.coveredMethods) + multiset(r.uncoveredMethods) == multiset(MapSeq(changed, FullName))
  {
    var details := Details(changed, MappingIndex(entries), tests);
    SelectSplit(details, IsCovered, IsUncovered, MethodOf);
    assert MapSeq(details, MethodOf) == MapSeq(changed, FullName);
  }

  /** Rows with the same method name are the same row. */
  ghost predicate NameDetermines(details: seq<DetailRow>) {
    forall j, k :: 0 <= j < |details| && 0 <= k < |details| && MethodOf(details[j]) == MethodOf(details[k]) ==>
      details[j] == details[k]
  }

  /** Each detail row describes its own method. */
  lemma DetailsByName(changed: seq<ChangedMethod>, index: map<string, string>, tests: seq<TestCase>)
    ensures NameDetermines(Details(changed, index, tests))
  {
    var details := Details(changed, index, tests);
    forall j, k | 0 <= j < |details| && 0 <= k < |details| && MethodOf(details[j]) == MethodOf(details[k])
      ensures details[j] == details[k]
    {
      assert details[j] == DetailOf(FullName(changed[j]), index, tests);
      assert details[k] == DetailOf(FullName(changed[k]), index, tests);
    }
  }

  /** When rows are determined by their name, a row's flag says on which
      list its name appears. */
  lemma {:induction false} VerdictByName(details: seq<DetailRow>, i: nat)
    requires i < |details| && NameDetermines(details)
    ensures details[i].isCovered <==> MethodOf(details[i]) in CoveredNames(details)
    ensures !details[i].isCovered <==> MethodOf(details[i]) in UncoveredNames(details)
  {
    SelectMembers(details, IsCovered, MethodOf);
    SelectMembers(details, IsUncovered, MethodOf);
    if MethodOf(details[i]) in CoveredNames(details) {
      var j :| 0 <= j < |details| && IsCovered(details[j]) && MethodOf(details[j]) == MethodOf(details[i]);
    }
    if MethodOf(details[i]) in UncoveredNames(details) {
      var j :| 0 <= j < |details| && IsUncovered(details[j]) && MethodOf(details[j]) == MethodOf(details[i]);
    }
  }

  /** The i-th detail is about the i-th changed method, and its `is_covered`
      flag says on which of the two lists its name appears. */
  lemma {:induction false} CoverageDetailsAgree(changed: seq<ChangedMethod>, entries: seq<MappingEntry>, tests: seq<TestCase>, i: nat)
    requires i < |changed|
    ensures var r := CoverageOf(changed, entries, tests);
      && r.coverageDetails[i].methodName == FullName(changed[i])
      && (r.coverageDetails[i].isCovered <==> FullName(changed[i]) in r.coveredMethods)
      && (!r.coverageDetails[i].isCovered <==> FullName(changed[i]) in r.uncoveredMethods)
  {
    var index := MappingIndex(entries);
    var details := Details(changed, index, tests);
    DetailsByName(changed, index, tests);
    VerdictByName(details, i);
    assert MethodOf(details[i]) == FullName(changed[i]);
  }

  /** No name is both covered and uncovered: methods with the same full name
      get the same verdict. */
  lemma {:induction false} CoverageDisjoint(changed: seq<ChangedMethod>, entries: seq<MappingEntry>, tests: seq<TestCase>)
    ensures var r := CoverageOf(changed, entries, tests);
      forall n :: !(n in r.coveredMethods && n in r.uncoveredMethods)
  {
    if changed != [] {
      var index := MappingIndex(entries);
      var details := Details(changed, index, tests);
      SelectMembers(details, IsCovered, MethodOf);
      DetailsByName(changed, index, tests);
      forall n | n in CoveredNames(details) ensures n !in UncoveredNames(details) {
        var i :| 0 <= i < |details| && IsCovered(details[i]) && MethodOf(details[i]) == n;
        VerdictByName(details, i);
      }
    }
  }

  /** A method's matched tests are exactly the ids, in test order, of the
      tests whose feature matches its description. */
  lemma {:induction false} MatchedIdsExact(descLower: string, tests: seq<TestCase>)
    ensures forall id :: id in MatchedIds(descLower, tests) <==>
      exists i :: 0 <= i < |tests| && tests[i].testId == id && Matches(descLower, Lower(tests[i].testFunction))
    ensures MatchedIds(descLower, tests) == [] <==>
      forall i :: 0 <= i < |tests| ==> !Matches(descLower, Lower(tests[i].testFunction))
  {
    SelectMembers(tests, MatchesTest(descLower), TestIdOf);
    SelectEmpty(tests, MatchesTest(descLower), TestIdOf);
  }

  /** A changed method is covered iff its mapping gives it a non-empty
      description that some test matches; without one it is never covered
      and its detail shows the fallback text. */
  lemma {:induction false} CoveredIff(name: string, entries: seq<MappingEntry>, tests: seq<TestCase>)
    ensures var index := MappingIndex(entries);
      var d := DetailOf(name, index, tests);
      var desc := DescriptionOf(index, name);
      && (d.isCovered <==> d.matchedTests != [])
      && (d.isCovered <==>
            (desc != "" && exists i :: 0 <= i < |tests| && Matches(Lower(desc), Lower(tests[i].testFunction))))
      && (desc == "" ==> !d.isCovered && d.description == NoMappingDescription)
  {
    var desc := DescriptionOf(MappingIndex(entries), name);
    if desc != "" {
      MatchedIdsExact(Lower(desc), tests);
    }
  }

  /** A count over a positive total lies in [0, 1], and is 1 exactly when the
      count is the total. */
  lemma FractionBounds(c: nat, t: nat)
    requires 0 < t && c <= t
    ensures 0.0 <= c as real / t as real <= 1.0
    ensures c as real / t as real == 1.0 <==> c == t
  {
    var q := c as real / t as real;
    var cr, tr := c as real, t as real;
    assert q * tr == cr;
    if q == 1.0 {
      assert cr == tr;
    }
  }

  /** The coverage rate is the covered fraction: it lies in [0, 1] and is 1
      exactly when nothing is uncovered. */
  lemma {:induction false} CoverageRateBounds(changed: seq<ChangedMethod>, entries: seq<MappingEntry>, tests: seq<TestCase>)
    ensures var r := CoverageOf(changed, entries, tests);
      && 0.0 <= r.coverageRate <= 1.0
      && (changed != [] ==> (r.coverageRate == 1.0 <==> r.uncoveredMethods == []))
  {
    if changed != [] {
      var details := Details(changed, MappingIndex(entries), tests);
      SelectSplit(details, IsCovered, IsUncovered, MethodOf);
      FractionBounds(|CoveredNames(details)|, |changed|);
    }
  }
}
