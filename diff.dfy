/** Post-processing of code changes: the `current`/`history` payload is
    validated, each pair of source versions is compared through a unified
    diff whose lines are sorted into added, removed and changed, and the
    result is rendered as a bounded text summary. The unified diff itself
    (line splitting and difflib) is a parameter. */
module Diff {
  import opened Text
  import opened Seqs
  import opened Results
  import opened JsonData

  // ---------------------------------------------------------------------
  // parse_code_changes

  const RootNotObject := "JSON根元素必须是对象"
  const MissingFields := "JSON必须包含 'current' 和 'history' 字段"
  const NotArrays := "'current' 和 'history' 必须是数组"
  const DecodeErrorPrefix := "JSON解析失败: "

  /** How parse_code_changes ends: the two lists, a ValueError with its
      message, or another exception (a TypeError from `in` or `[]` applied
      to a value that does not support it), which callers do not catch. */
  datatype Parsed =
    | Changes(current: seq<Json>, history: seq<Json>)
    | Invalid(message: string)
    | Fault

  /** Python's `key in v` on a JSON value: a key of an object, an element of
      an array, a substring of a string; on anything else it raises. */
  function PyIn(key: string, v: Json): Option<bool> {
    match v
    case JObject(m) => Some(key in m)
    case JArray(xs) => Some(JString(key) in xs)
    case JString(s) => Some(Contains(s, key))
    case _ => None
  }

  /** The object the lists are read from: the "data" member when there is
      one, otherwise the root itself. */
  function Inner(m: map<string, Json>): Json {
    if "data" in m then m["data"] else JObject(m)
  }

  /** Checks, in order: the root is an object; both keys are present; both
      members are arrays. */
  function ParseCodeChanges(data: Json): (r: Parsed)
    ensures r == Invalid(RootNotObject) <==> !data.JObject?
    ensures data.JObject? && Inner(data.fields).JObject? ==>
      var inner := Inner(data.fields).fields;
      && (r == Invalid(MissingFields) <==> "current" !in inner || "history" !in inner)
      && (r == Invalid(NotArrays) <==>
            "current" in inner && "history" in inner &&
            (!inner["current"].JArray? || !inner["history"].JArray?))
    ensures r.Changes? <==>
      && data.JObject? && Inner(data.fields).JObject?
      && "current" in Inner(data.fields).fields && "history" in Inner(data.fields).fields
      && Inner(data.fields).fields["current"].JArray? && Inner(data.fields).fields["history"].JArray?
    ensures r.Changes? ==>
      && r.current == Inner(data.fields).fields["current"].items
      && r.history == Inner(data.fields).fields["history"].items
  {
    if !data.JObject? then Invalid(RootNotObject)
    else
      var inner := Inner(data.fields);
      match PyIn("current", inner)
      case None => Fault
      case Some(false) => Invalid(MissingFields)
      case Some(true) =>
        match PyIn("history", inner)
        case None => Fault
        case Some(false) => Invalid(MissingFields)
        case Some(true) =>
          if !inner.JObject? then Fault
          else
            var current := inner.fields["current"];
            var history := inner.fields["history"];
            if !current.JArray? || !history.JArray? then Invalid(NotArrays)
            else Changes(current.items, history.items)
  }

  /** A "data" member takes precedence over the root's own fields: the
      outcome is that of the "data" member, whatever else the root holds. */
  lemma DataTakesPrecedence(m: map<string, Json>, other: map<string, Json>)
    requires "data" in m && "data" in other && m["data"] == other["data"]
    ensures ParseCodeChanges(JObject(m)) == ParseCodeChanges(JObject(other))
  {
  }

  /** parse_code_changes on the text, with `json.loads` as a parameter that
      returns the decoded value or the decoder's message. */
  function ParseCodeChangesText(content: string, loads: string -> Result<Json>): (r: Parsed)
    ensures loads(content).Err? ==> r == Invalid(DecodeErrorPrefix + loads(content).message)
    ensures loads(content).Ok? ==> r == ParseCodeChanges(loads(content).value)
  {
    match loads(content)
    case Err(e) => Invalid(DecodeErrorPrefix + e)
    case Ok(data) => ParseCodeChanges(data)
  }

  // ---------------------------------------------------------------------
  // extract_package_path

  const PackagePrefix := "package "

  /** The path a line declares, or "" when it declares none: the stripped
      line must start with "package "; the rest loses its trailing ';'
      characters and surrounding whitespace. */
  function DeclaredPath(line: string): string {
    var stripped := Strip(line);
    if IsPrefix(PackagePrefix, stripped) then Strip(RStripChar(stripped[|PackagePrefix|..], ';'))
    else ""
  }

  /** The first non-empty `path(line)` among `lines`, if any: the loop of
      extract_package_path with its early return. */
  function FirstPath(lines: seq<string>, path: string -> string): Option<string>
    decreases |lines|
  {
    if lines == [] then None
    else if path(lines[0]) != "" then Some(path(lines[0]))
    else FirstPath(lines[1..], path)
  }

  function ExtractPackagePath(code: string): string {
    match FirstPath(SplitOn(code, {'\n'}), DeclaredPath)
    case Some(path) => path
    case None => "unknown"
  }

  /** The loop of extract_package_path: scan the lines in order and stop at
      the first that declares a non-empty path. */
  method FindPackagePath(code: string) returns (path: string)
    ensures path == ExtractPackagePath(code)
  {
    var found := ScanLines(SplitOn(code, {'\n'}), DeclaredPath);
    path := if found.Some? then found.value else "unknown";
  }

  method ScanLines(lines: seq<string>, path: string -> string) returns (found: Option<string>)
    ensures found == FirstPath(lines, path)
  {
    var i := 0;
    while i < |lines|
      invariant i <= |lines|
      invariant FirstPath(lines[i..], path) == FirstPath(lines, path)
    {
      var declared := path(lines[i]);
      FirstPathHead(lines[i..], path);
      if declared != "" {
        return Some(declared);
      }
      assert lines[i..][1..] == lines[i + 1..];
      i := i + 1;
    }
    return None;
  }

  /** One step of the scan: the head decides, or the search goes on in the
      tail. */
  lemma FirstPathHead(lines: seq<string>, path: string -> string)
    requires lines != []
    ensures path(lines[0]) != "" ==> FirstPath(lines, path) == Some(path(lines[0]))
    ensures path(lines[0]) == "" ==> FirstPath(lines, path) == FirstPath(lines[1..], path)
  {
  }

  /** The path comes from the first line that declares a non-empty one;
      without such a line there is none. */
  lemma {:induction false} FirstPathIsFirst(lines: seq<string>, path: string -> string)
    ensures FirstPath(lines, path).None? <==> forall i :: 0 <= i < |lines| ==> path(lines[i]) == ""
    ensures FirstPath(lines, path).Some? ==>
      exists i :: 0 <= i < |lines| && FirstPath(lines, path).value == path(lines[i]) != "" &&
        forall j :: 0 <= j < i ==> path(lines[j]) == ""
    decreases |lines|
  {
    if lines != [] && path(lines[0]) == "" {
      var rest := lines[1..];
      FirstPathIsFirst(rest, path);
      forall i | 0 <= i < |rest| ensures rest[i] == lines[i + 1] { }
      if FirstPath(lines, path).Some? {
        var i :| 0 <= i < |rest| && FirstPath(rest, path).value == path(rest[i]) != "" &&
          forall j :: 0 <= j < i ==> path(rest[j]) == "";
        assert FirstPath(lines, path).value == path(lines[i + 1]);
      }
    } else if lines != [] {
      assert FirstPath(lines, path).value == path(lines[0]);
    }
  }

  /** Without a line declaring a non-empty path, extract_package_path
      returns "unknown". */
  lemma PackagePathUnknown(code: string)
    requires forall i :: 0 <= i < |SplitOn(code, {'\n'})| ==> DeclaredPath(SplitOn(code, {'\n'})[i]) == ""
    ensures ExtractPackagePath(code) == "unknown"
  {
    FirstPathIsFirst(SplitOn(code, {'\n'}), DeclaredPath);
  }

  /** Whatever the code, the answer is a non-empty path. */
  lemma PackagePathNonEmpty(code: string)
    ensures ExtractPackagePath(code) != ""
  {
    FirstPathIsFirst(SplitOn(code, {'\n'}), DeclaredPath);
  }

  // ---------------------------------------------------------------------
  // compute_diff

  datatype FileDiff = FileDiff(
    packagePath: string, addedLines: seq<string>, removedLines: seq<string>, changedLines: seq<string>)

  /** A unified-diff line is a header when it starts with "+++", "---" or
      "@@". */
  predicate IsHeader(line: string) {
    IsPrefix("+++", line) || IsPrefix("---", line) || IsPrefix("@@", line)
  }

  predicate IsAdded(line: string) {
    !IsHeader(line) && IsPrefix("+", line)
  }

  predicate IsRemoved(line: string) {
    !IsHeader(line) && IsPrefix("-", line)
  }

  predicate IsChange(line: string) {
    IsHeader(line) || IsPrefix("+", line) || IsPrefix("-", line)
  }

  /** `line[1:]` */
  function Tail(line: string): string {
    if line == [] then [] else line[1..]
  }

  function Same(line: string): string {
    line
  }

  function Added(diff: seq<string>): seq<string> {
    Select(diff, IsAdded, Tail)
  }

  function Removed(diff: seq<string>): seq<string> {
    Select(diff, IsRemoved, Tail)
  }

  function Changed(diff: seq<string>): seq<string> {
    Select(diff, IsChange, Same)
  }

  /** The classification loop of compute_diff. */
  method Classify(diff: seq<string>) returns (added: seq<string>, removed: seq<string>, changed: seq<string>)
    ensures added == Added(diff) && removed == Removed(diff) && changed == Changed(diff)
  {
    added, removed, changed := [], [], [];
    for k := 0 to |diff|
      invariant added == Added(diff[..k]) && removed == Removed(diff[..k]) && changed == Changed(diff[..k])
    {
      SelectStep(diff, k, IsAdded, Tail);
      SelectStep(diff, k, IsRemoved, Tail);
      SelectStep(diff, k, IsChange, Same);
      var line := diff[k];
      if IsPrefix("+++", line) || IsPrefix("---", line) || IsPrefix("@@", line) {
        changed := changed + [line];
      } else if IsPrefix("+", line) {
        added := added + [line[1..]];
        changed := changed + [line];
      } else if IsPrefix("-", line) {
        removed := removed + [line[1..]];
        changed := changed + [line];
      }
    }
    assert diff[..|diff|] == diff;
  }

  /** Every changed line is a header, an added line or a removed line, and
      none is counted twice. */
  lemma {:induction false} ChangedCount(diff: seq<string>)
    ensures |Changed(diff)| == |Select(diff, IsHeader, Same)| + |Added(diff)| + |Removed(diff)|
    decreases |diff|
  {
    if diff != [] {
      ChangedCount(diff[..|diff| - 1]);
    }
  }

  /** An added line is a non-header '+' line of the diff without its '+',
      and every such line is added; likewise for removed lines. */
  lemma {:induction false} AddedRemovedExact(diff: seq<string>)
    ensures forall a :: a in Added(diff) <==>
      exists i :: 0 <= i < |diff| && IsAdded(diff[i]) && a == diff[i][1..]
    ensures forall a :: a in Removed(diff) <==>
      exists i :: 0 <= i < |diff| && IsRemoved(diff[i]) && a == diff[i][1..]
  {
    SelectMembers(diff, IsAdded, Tail);
    SelectMembers(diff, IsRemoved, Tail);
  }

  /** compute_diff, with `unifiedDiff(history, current)` standing for
      difflib's unified diff of the two texts' lines (history first, so
      '+' lines are in the current version). */
  function FileDiffOf(current: string, history: string, unifiedDiff: (string, string) -> seq<string>): FileDiff {
    var diff := unifiedDiff(history, current);
    FileDiff(ExtractPackagePath(current), Added(diff), Removed(diff), Changed(diff))
  }

  method ComputeDiff(current: string, history: string, unifiedDiff: (string, string) -> seq<string>)
    returns (d: FileDiff)
    ensures d == FileDiffOf(current, history, unifiedDiff)
  {
    var packagePath := FindPackagePath(current);
    var diff := unifiedDiff(history, current);
    var added, removed, changed := Classify(diff);
    d := FileDiff(packagePath, added, removed, changed);
  }

  // ---------------------------------------------------------------------
  // analyze_code_changes

  datatype Analysis = Analysis(diffs: seq<FileDiff>, totalAdded: nat, totalRemoved: nat, error: Option<string>)

  /** The i-th code text of a list: "" past its end; None when the element
      is not a string (compute_diff then raises on it). */
  function CodeAt(list: seq<Json>, i: nat): Option<string> {
    if i >= |list| then Some("")
    else if list[i].JString? then Some(list[i].s)
    else None
  }

  predicate PairReadable(current: seq<Json>, history: seq<Json>, i: nat) {
    CodeAt(current, i).Some? && CodeAt(history, i).Some?
  }

  function AddedCount(d: FileDiff): nat {
    |d.addedLines|
  }

  function RemovedCount(d: FileDiff): nat {
    |d.removedLines|
  }

  function MaxLen(a: nat, b: nat): nat {
    if a >= b then a else b
  }

  /** analyze_code_changes. None stands for an exception that escapes it (a
      TypeError in parsing, or a list element that is not a string). */
  method AnalyzeCodeChanges(content: string, loads: string -> Result<Json>, unifiedDiff: (string, string) -> seq<string>)
    returns (r: Option<Analysis>)
    ensures ParseCodeChangesText(content, loads).Invalid? ==>
      r == Some(Analysis([], 0, 0, Some(ParseCodeChangesText(content, loads).message)))
    ensures ParseCodeChangesText(content, loads).Fault? ==> r == None
    ensures ParseCodeChangesText(content, loads).Changes? ==>
      r == PairsAnalysis(ParseCodeChangesText(content, loads).current, ParseCodeChangesText(content, loads).history,
                         unifiedDiff)
  {
    var parsed := ParseCodeChangesText(content, loads);
    match parsed {
      case Invalid(message) =>
        return Some(Analysis([], 0, 0, Some(message)));
      case Fault =>
        return None;
      case Changes(currentList, historyList) =>
        r := DiffPairs(currentList, historyList, unifiedDiff);
    }
  }

  /** compute_diff with its diff function fixed, as the loop calls it. */
  function DiffWith(unifiedDiff: (string, string) -> seq<string>): (string, string) -> FileDiff {
    (current: string, history: string) => FileDiffOf(current, history, unifiedDiff)
  }

  /** The diffs of the first `n` pairs, or None when one of them cannot be
      read (the loop then raises). */
  function DiffList(current: seq<Json>, history: seq<Json>, n: nat, diffOf: (string, string) -> FileDiff)
    : (r: Option<seq<FileDiff>>)
    ensures r.Some? ==> |r.value| == n
    decreases n
  {
    if n == 0 then Some([])
    else match DiffList(current, history, n - 1, diffOf)
      case None => None
      case Some(ds) =>
        if PairReadable(current, history, n - 1)
        then Some(ds + [diffOf(CodeAt(current, n - 1).value, CodeAt(history, n - 1).value)])
        else None
  }

  /** What the loop of analyze_code_changes returns for the two lists. */
  function PairsAnalysis(current: seq<Json>, history: seq<Json>, unifiedDiff: (string, string) -> seq<string>)
    : Option<Analysis>
  {
    match DiffList(current, history, MaxLen(|current|, |history|), DiffWith(unifiedDiff))
    case None => None
    case Some(ds) => Some(Analysis(ds, SumMap(ds, AddedCount), SumMap(ds, RemovedCount), None))
  }

  /** What the loop produces from the two lists: one diff per index up to
      the longer list's length, the shorter list read as "" past its end,
      and totals that add up the per-file counts; it raises (None) exactly
      when some element in that range is not a string. */
  ghost predicate PairsDiffed(current: seq<Json>, history: seq<Json>, unifiedDiff: (string, string) -> seq<string>,
                              r: Option<Analysis>)
  {
    var n := MaxLen(|current|, |history|);
    && (r.None? <==> exists i :: 0 <= i < n && !PairReadable(current, history, i))
    && (r.Some? ==>
          && r.value.error == None
          && |r.value.diffs| == n
          && (forall i :: 0 <= i < n ==>
                (PairReadable(current, history, i) &&
                 r.value.diffs[i] == FileDiffOf(CodeAt(current, i).value, CodeAt(history, i).value, unifiedDiff)))
          && r.value.totalAdded == SumMap(r.value.diffs, AddedCount)
          && r.value.totalRemoved == SumMap(r.value.diffs, RemovedCount))
  }

  /** The pairs' analysis has the promised shape. */
  lemma PairsAnalysisShape(current: seq<Json>, history: seq<Json>, unifiedDiff: (string, string) -> seq<string>)
    ensures PairsDiffed(current, history, unifiedDiff, PairsAnalysis(current, history, unifiedDiff))
  {
    DiffListAt(current, history, MaxLen(|current|, |history|), DiffWith(unifiedDiff));
  }

  lemma {:induction false} DiffListAt(current: seq<Json>, history: seq<Json>, n: nat, diffOf: (string, string) -> FileDiff)
    ensures DiffList(current, history, n, diffOf).None? <==> exists i :: 0 <= i < n && !PairReadable(current, history, i)
    ensures DiffList(current, history, n, diffOf).Some? ==>
      forall i :: 0 <= i < n ==>
        (PairReadable(current, history, i) &&
         DiffList(current, history, n, diffOf).value[i] == diffOf(CodeAt(current, i).value, CodeAt(history, i).value))
    decreases n
  {
    if n > 0 {
      DiffListAt(current, history, n - 1, diffOf);
      var prev := DiffList(current, history, n - 1, diffOf);
      if prev.Some? && PairReadable(current, history, n - 1) {
        var ds := prev.value;
        var d := diffOf(CodeAt(current, n - 1).value, CodeAt(history, n - 1).value);
        assert forall i :: 0 <= i < n - 1 ==> (ds + [d])[i] == ds[i];
      }
    }
  }

  /** Once a pair cannot be read, the longer prefixes cannot be either. */
  lemma {:induction false} DiffListStaysNone(current: seq<Json>, history: seq<Json>, k: nat, n: nat,
                                             diffOf: (string, string) -> FileDiff)
    requires k <= n && DiffList(current, history, k, diffOf).None?
    ensures DiffList(current, history, n, diffOf).None?
    decreases n
  {
    if k < n {
      DiffListStaysNone(current, history, k, n - 1, diffOf);
    }
  }

  /** The loop over the pairs of code texts. */
  method DiffPairs(currentList: seq<Json>, historyList: seq<Json>, unifiedDiff: (string, string) -> seq<string>)
    returns (r: Option<Analysis>)
    ensures r == PairsAnalysis(currentList, historyList, unifiedDiff)
  {
    var diffs: seq<FileDiff> := [];
    var totalAdded: nat := 0;
    var totalRemoved: nat := 0;
    var maxLen := MaxLen(|currentList|, |historyList|);
    for i := 0 to maxLen
      invariant DiffList(currentList, historyList, i, DiffWith(unifiedDiff)) == Some(diffs)
      invariant totalAdded == SumMap(diffs, AddedCount)
      invariant totalRemoved == SumMap(diffs, RemovedCount)
    {
      var currentCode := CodeAt(currentList, i);
      var historyCode := CodeAt(historyList, i);
      if currentCode.None? || historyCode.None? {
        PairUnreadable(currentList, historyList, i, unifiedDiff);
        return None;
      }
      var diffResult := ComputeDiff(currentCode.value, historyCode.value, unifiedDiff);
      DiffListStep(currentList, historyList, i, unifiedDiff);
      TotalsStep(diffs, diffResult);
      diffs := diffs + [diffResult];
      totalAdded := totalAdded + |diffResult.addedLines|;
      totalRemoved := totalRemoved + |diffResult.removedLines|;
    }
    PairsAllRead(currentList, historyList, unifiedDiff, diffs);
    return Some(Analysis(diffs, totalAdded, totalRemoved, None));
  }

  /** A pair that cannot be read makes the whole loop raise. */
  lemma PairUnreadable(current: seq<Json>, history: seq<Json>, i: nat, unifiedDiff: (string, string) -> seq<string>)
    requires i < MaxLen(|current|, |history|) && !PairReadable(current, history, i)
    ensures PairsAnalysis(current, history, unifiedDiff) == None
  {
    var n := MaxLen(|current|, |history|);
    assert DiffList(current, history, i + 1, DiffWith(unifiedDiff)).None?;
    DiffListStaysNone(current, history, i + 1, n, DiffWith(unifiedDiff));
  }

  /** Every pair read: the result holds the diffs and their totals. */
  lemma PairsAllRead(current: seq<Json>, history: seq<Json>, unifiedDiff: (string, string) -> seq<string>,
                     ds: seq<FileDiff>)
    requires DiffList(current, history, MaxLen(|current|, |history|), DiffWith(unifiedDiff)) == Some(ds)
    ensures PairsAnalysis(current, history, unifiedDiff) ==
      Some(Analysis(ds, SumMap(ds, AddedCount), SumMap(ds, RemovedCount), None))
  {
  }

  /** One more readable pair handled by the loop. */
  lemma DiffListStep(current: seq<Json>, history: seq<Json>, i: nat, unifiedDiff: (string, string) -> seq<string>)
    requires PairReadable(current, history, i)
    requires DiffList(current, history, i, DiffWith(unifiedDiff)).Some?
    ensures DiffList(current, history, i + 1, DiffWith(unifiedDiff)) ==
      Some(DiffList(current, history, i, DiffWith(unifiedDiff)).value +
           [FileDiffOf(CodeAt(current, i).value, CodeAt(history, i).value, unifiedDiff)])
  {
  }

  lemma TotalsStep(diffs: seq<FileDiff>, d: FileDiff)
    ensures SumMap(diffs + [d], AddedCount) == SumMap(diffs, AddedCount) + |d.addedLines|
    ensures SumMap(diffs + [d], RemovedCount) == SumMap(diffs, RemovedCount) + |d.removedLines|
  {
    assert (diffs + [d])[..|diffs|] == diffs;
  }

  // ---------------------------------------------------------------------
  // format_diff_summary

  const ErrorPrefix := "分析错误: "
  const ShownLines := 10

  function MinNat(a: nat, b: nat): nat {
    if a <= b then a else b
  }

  /** "    + line" for each of the first ten lines, trailing whitespace
      removed. */
  function ItemLines(sign: char, items: seq<string>): (r: seq<string>)
    ensures |r| == MinNat(ShownLines, |items|)
  {
    seq(MinNat(ShownLines, |items|), j requires 0 <= j < MinNat(ShownLines, |items|) =>
      "    " + [sign] + " " + RStrip(items[j]))
  }

  function MoreLine(hidden: nat): string {
    "    ... 还有 " + NatToString(hidden) + " 行"
  }

  /** The block of one list of lines: nothing when it is empty, otherwise a
      title, the first ten lines, and a count of the rest when there is
      any. */
  function Block(title: string, sign: char, items: seq<string>): seq<string> {
    if items == [] then []
    else ["  " + title + ":"] + ItemLines(sign, items)
         + (if |items| > ShownLines then [MoreLine(|items| - ShownLines)] else [])
  }

  function FileSection(index: nat, d: FileDiff): seq<string> {
    ["### 文件 " + NatToString(index) + ": " + d.packagePath,
     "  新增 " + NatToString(|d.addedLines|) + " 行, 删除 " + NatToString(|d.removedLines|) + " 行"]
    + Block("新增内容", '+', d.addedLines)
    + Block("删除内容", '-', d.removedLines)
    + [""]
  }

  /** The sections of the first files, numbered from 1. */
  function Sections(diffs: seq<FileDiff>): seq<string>
    decreases |diffs|
  {
    if diffs == [] then []
    else Sections(diffs[..|diffs| - 1]) + FileSection(|diffs|, diffs[|diffs| - 1])
  }

  function SummaryHeader(r: Analysis): seq<string> {
    ["共检测到 " + NatToString(|r.diffs|) + " 个代码文件变更",
     "总新增 " + NatToString(r.totalAdded) + " 行，总删除 " + NatToString(r.totalRemoved) + " 行",
     ""]
  }

  function SummaryLines(r: Analysis): seq<string> {
    SummaryHeader(r) + Sections(r.diffs)
  }

  /** `if result.error:`, an empty message counting as no error. */
  predicate HasError(r: Analysis) {
    r.error.Some? && r.error.value != ""
  }

  method FormatDiffSummary(r: Analysis) returns (text: string)
    ensures HasError(r) ==> text == ErrorPrefix + r.error.value
    ensures !HasError(r) ==> text == Join(SummaryLines(r), "\n")
  {
    if r.error.Some? && r.error.value != "" {
      return ErrorPrefix + r.error.value;
    }
    var sections := AllSections(r.diffs);
    text := Join(SummaryHeader(r) + sections, "\n");
  }

  /** The loop over the files. */
  method AllSections(diffs: seq<FileDiff>) returns (lines: seq<string>)
    ensures lines == Sections(diffs)
  {
    lines := [];
    assert diffs[..0] == [];
    for i := 0 to |diffs|
      invariant lines == Sections(diffs[..i])
    {
      SectionsStep(diffs, i);
      var section := SectionLines(i + 1, diffs[i]);
      lines := lines + section;
    }
    assert diffs[..|diffs|] == diffs;
  }

  /** One more file handled by the loop. */
  lemma SectionsStep(diffs: seq<FileDiff>, i: nat)
    requires i < |diffs|
    ensures Sections(diffs[..i + 1]) == Sections(diffs[..i]) + FileSection(i + 1, diffs[i])
  {
    assert diffs[..i + 1][..i] == diffs[..i];
  }

  /** The body of the loop over the files. */
  method SectionLines(index: nat, d: FileDiff) returns (lines: seq<string>)
    ensures lines == FileSection(index, d)
  {
    lines := ["### 文件 " + NatToString(index) + ": " + d.packagePath];
    lines := lines + ["  新增 " + NatToString(|d.addedLines|) + " 行, 删除 " + NatToString(|d.removedLines|) + " 行"];
    var addedBlock := BlockLines("新增内容", '+', d.addedLines);
    var removedBlock := BlockLines("删除内容", '-', d.removedLines);
    lines := lines + addedBlock + removedBlock + [""];
  }

  method BlockLines(title: string, sign: char, items: seq<string>) returns (lines: seq<string>)
    ensures lines == Block(title, sign, items)
  {
    lines := [];
    if items != [] {
      lines := lines + ["  " + title + ":"];
      var shown := MinNat(ShownLines, |items|);
      for j := 0 to shown
        invariant lines == ["  " + title + ":"] + ItemLines(sign, items)[..j]
      {
        assert ItemLines(sign, items)[..j + 1] == ItemLines(sign, items)[..j] + [ItemLines(sign, items)[j]];
        lines := lines + ["    " + [sign] + " " + RStrip(items[j])];
      }
      assert ItemLines(sign, items)[..shown] == ItemLines(sign, items);
      if |items| > ShownLines {
        lines := lines + [MoreLine(|items| - ShownLines)];
      }
    }
  }

  /** A line reporting how many lines were left out. */
  predicate IsMoreLine(line: string) {
    IsPrefix("    ... ", line)
  }

  /** A block shows at most ten of its lines, in order, and its one
      "还有 n 行" line is its last, present exactly when more than ten were
      left out. */
  lemma BlockShape(title: string, sign: char, items: seq<string>)
    requires title != [] && title[0] != ' ' && sign != '.'
    ensures var b := Block(title, sign, items);
      && (items == [] <==> b == [])
      && |b| == (if items == [] then 0 else 1 + MinNat(ShownLines, |items|) + (if |items| > ShownLines then 1 else 0))
      && (forall j :: 0 <= j < MinNat(ShownLines, |items|) ==> b[j + 1] == "    " + [sign] + " " + RStrip(items[j]))
      && (forall k :: 0 <= k < |b| ==> (IsMoreLine(b[k]) <==> |items| > ShownLines && k == |b| - 1))
      && (|items| > ShownLines ==> b[|b| - 1] == MoreLine(|items| - ShownLines))
  {
    var b := Block(title, sign, items);
    forall k | 0 <= k < |b| ensures IsMoreLine(b[k]) <==> |items| > ShownLines && k == |b| - 1 {
      if k == 0 {
        assert b[0][2] == title[0];
      } else if k <= MinNat(ShownLines, |items|) {
        assert b[k][4] == sign;
      } else {
        assert b[k] == MoreLine(|items| - ShownLines);
      }
    }
  }
}
