/** The request helpers of the entry module (api/index.py): where the code
    lists are read from, the collection of changed methods across files,
    the order in which a mapping source is chosen, what is recorded of an
    AI call, and the upload check. Routing, file reading and persistence
    are not modelled. */
module Api {
  import opened Text
  import opened Results
  import opened Seqs
  import opened Rows
  import opened JsonData
  import opened Coverage
  import opened Diff
  import opened JavaMethods
  import opened Upload
  import opened AiClient

  // ---------------------------------------------------------------------
  // parse_code_changes_data

  /** The object holding the lists: the "data" member when there is one,
      the object itself when it has both lists, otherwise two empty
      lists. */
  function ParseCodeChangesData(data: map<string, Json>): (r: Json)
    ensures "data" in data ==> r == data["data"]
    ensures "data" !in data && "current" in data && "history" in data ==> r == JObject(data)
    ensures "data" !in data && ("current" !in data || "history" !in data) ==>
      r == JObject(map["current" := JArray([]), "history" := JArray([])])
  {
    if "data" in data then data["data"]
    else if "current" in data && "history" in data then JObject(data)
    else JObject(map["current" := JArray([]), "history" := JArray([])])
  }

  /** Whenever the diff analyzer accepted the upload, this helper reads the
      very lists the analyzer diffed. */
  lemma CodeDataAgreesWithDiff(data: map<string, Json>)
    requires ParseCodeChanges(JObject(data)).Changes?
    ensures ParseCodeChangesData(data).JObject?
    ensures ParseCodeChangesData(data).fields["current"] == JArray(ParseCodeChanges(JObject(data)).current)
    ensures ParseCodeChangesData(data).fields["history"] == JArray(ParseCodeChanges(JObject(data)).history)
  {
    assert ParseCodeChangesData(data) == Inner(data);
  }

  // ---------------------------------------------------------------------
  // The changed-method collection loop

  /** `code_json["history"][i] if i < len(...) else ""` */
  function HistoryAt(history: seq<string>, i: nat): string {
    if i < |history| then history[i] else ""
  }

  /** The dictionary the route builds for one changed method. */
  function ToChanged(m: MethodInfo): ChangedMethod {
    ChangedMethod(m.packageName, m.className, m.methodName)
  }

  /** The changed methods of file `i`. */
  function FileChanges(current: seq<string>, history: seq<string>, i: nat, parse: string -> ParseOutcome): seq<MethodInfo>
    requires i < |current|
  {
    ChangedAmong(MethodsOf(current[i], parse), MethodsOf(HistoryAt(history, i), parse))
  }

  /** The changed methods of each file; none past the current list. */
  function FilesChanges(current: seq<string>, history: seq<string>, parse: string -> ParseOutcome)
    : nat -> seq<MethodInfo>
  {
    (i: nat) => if i < |current| then FileChanges(current, history, i, parse) else []
  }

  /** The changed methods of the first `n` files, file by file, each file's
      in extraction order. */
  function Collected(current: seq<string>, history: seq<string>, n: nat, parse: string -> ParseOutcome)
    : seq<ChangedMethod>
  {
    ConcatMap(FilesChanges(current, history, parse), n, ToChanged)
  }

  /** The loop runs over the current list only: the history list is padded
      with "" when shorter, and its extra entries are never read. */
  method CollectChangedMethods(current: seq<string>, history: seq<string>, parse: string -> ParseOutcome)
    returns (changed: seq<ChangedMethod>)
    ensures changed == Collected(current, history, |current|, parse)
  {
    changed := [];
    for i := 0 to |current|
      invariant changed == Collected(current, history, i, parse)
    {
      var currentCode := current[i];
      var historyCode := if i < |history| then history[i] else "";
      var methods := ExtractChangedMethods(currentCode, historyCode, parse);
      var fileChanged := ToChangedList(methods);
      assert methods == FileChanges(current, history, i, parse);
      CollectedStep(current, history, i, parse);
      changed := changed + fileChanged;
    }
  }

  /** One more file handled by the loop. */
  lemma CollectedStep(current: seq<string>, history: seq<string>, i: nat, parse: string -> ParseOutcome)
    requires i < |current|
    ensures Collected(current, history, i + 1, parse) ==
      Collected(current, history, i, parse) + MapSeq(FileChanges(current, history, i, parse), ToChanged)
  {
    assert FilesChanges(current, history, parse)(i) == FileChanges(current, history, i, parse);
  }

  /** The inner loop: one dictionary per changed method. */
  method ToChangedList(methods: seq<MethodInfo>) returns (out: seq<ChangedMethod>)
    ensures out == MapSeq(methods, ToChanged)
  {
    out := [];
    for j := 0 to |methods|
      invariant out == MapSeq(methods[..j], ToChanged)
    {
      out := out + [ToChanged(methods[j])];
    }
    assert methods[..|methods|] == methods;
  }

  /** History entries past the end of the current list change nothing. */
  lemma {:induction false} CollectedIgnoresExtraHistory(current: seq<string>, history: seq<string>, n: nat,
                                                       parse: string -> ParseOutcome)
    requires n <= |current| < |history|
    ensures Collected(current, history, n, parse) == Collected(current, history[..|current|], n, parse)
    decreases n
  {
    if n > 0 {
      CollectedIgnoresExtraHistory(current, history, n - 1, parse);
      CollectedStep(current, history, n - 1, parse);
      CollectedStep(current, history[..|current|], n - 1, parse);
      FileChangesSameHistory(current, history, history[..|current|], n - 1, parse);
    }
  }

  /** A file's changes depend on its history entry only. */
  lemma FileChangesSameHistory(current: seq<string>, history: seq<string>, history': seq<string>, i: nat,
                               parse: string -> ParseOutcome)
    requires i < |current| && i < |history'| <= |history| && history' == history[..|history'|]
    ensures FileChanges(current, history, i, parse) == FileChanges(current, history', i, parse)
  {
    assert HistoryAt(history, i) == HistoryAt(history', i);
  }

  /** Every collected method comes from a changed method of some file. */
  lemma CollectedFrom(current: seq<string>, history: seq<string>, parse: string -> ParseOutcome, c: ChangedMethod)
    requires c in Collected(current, history, |current|, parse)
    ensures exists i, m :: 0 <= i < |current| && m in FileChanges(current, history, i, parse) && ToChanged(m) == c
  {
    var blocks := FilesChanges(current, history, parse);
    ConcatMapMembers(blocks, |current|, ToChanged);
    var i, m :| 0 <= i < |current| && m in blocks(i) && ToChanged(m) == c;
    assert blocks(i) == FileChanges(current, history, i, parse);
  }

  /** Every changed method of every file is collected. */
  lemma CollectedInto(current: seq<string>, history: seq<string>, parse: string -> ParseOutcome, i: nat, m: MethodInfo)
    requires i < |current| && m in FileChanges(current, history, i, parse)
    ensures ToChanged(m) in Collected(current, history, |current|, parse)
  {
    var blocks := FilesChanges(current, history, parse);
    ConcatMapMembers(blocks, |current|, ToChanged);
    assert m in blocks(i);
  }

  /** A method is collected iff it is a changed method of one of the
      current files. */
  lemma CollectedMembers(current: seq<string>, history: seq<string>, parse: string -> ParseOutcome)
    ensures forall c :: c in Collected(current, history, |current|, parse) <==>
      exists i, m :: 0 <= i < |current| && m in FileChanges(current, history, i, parse) && ToChanged(m) == c
  {
    forall c | c in Collected(current, history, |current|, parse)
      ensures exists i, m :: 0 <= i < |current| && m in FileChanges(current, history, i, parse) && ToChanged(m) == c
    {
      CollectedFrom(current, history, parse, c);
    }
    forall i: nat, m | i < |current| && m in FileChanges(current, history, i, parse)
      ensures ToChanged(m) in Collected(current, history, |current|, parse)
    {
      CollectedInto(current, history, parse, i, m);
    }
  }

  /** The count adds up file by file. */
  lemma CollectedCount(current: seq<string>, history: seq<string>, parse: string -> ParseOutcome)
    ensures |Collected(current, history, |current|, parse)| == BlockLengths(FilesChanges(current, history, parse), |current|)
  {
    ConcatMapMembers(FilesChanges(current, history, parse), |current|, ToChanged);
  }

  /** A file compared with an identical history contributes nothing; a
      file without history contributes all its methods. */
  lemma FileChangesEdges(current: seq<string>, history: seq<string>, i: nat, parse: string -> ParseOutcome)
    requires i < |current|
    ensures HistoryAt(history, i) == current[i] ==> FileChanges(current, history, i, parse) == []
    ensures i >= |history| && Blank(current[i]) ==> FileChanges(current, history, i, parse) == []
    ensures i >= |history| ==>
      FileChanges(current, history, i, parse) == ChangedAmong(MethodsOf(current[i], parse), MethodsOf("", parse))
  {
    if HistoryAt(history, i) == current[i] {
      UnchangedReportsNothing(MethodsOf(current[i], parse));
    }
    if i >= |history| && Blank(current[i]) {
      assert MethodsOf(current[i], parse) == [];
    }
  }

  /** An empty history file yields no methods, so every method of a file
      beyond the history list is reported. */
  lemma NewFileReportsAll(current: seq<string>, history: seq<string>, i: nat, parse: string -> ParseOutcome)
    requires |history| <= i < |current|
    ensures FileChanges(current, history, i, parse) == MethodsOf(current[i], parse)
  {
    assert Blank("");
    assert MethodsOf("", parse) == [];
    NoHistoryReportsAll(MethodsOf(current[i], parse));
  }

  // ---------------------------------------------------------------------
  // Choosing the mapping source

  const NoGlobalMapping := "未上传映射文件且未配置全局映射，请先在『映射管理』中上传映射文件"
  const NoProjectMapping := "未提供映射文件且项目未绑定映射数据"

  /** A stored mapping record: its mapping_data, when present. */
  datatype StoredMapping = StoredMapping(mappingData: Option<seq<MappingEntry>>)

  /** `if x.get("mapping_data")`: present and non-empty. */
  predicate HasMappingData(s: StoredMapping) {
    s.mappingData.Some? && s.mappingData.value != []
  }

  /** An uploaded mapping file: checked as a CSV upload, read, and turned
      into entries. */
  function UploadedMapping(filename: string, content: seq<byte>, decode: Decoder, readRows: string -> seq<Row>,
                           formatSize: real -> string, formatLimit: real -> string): Result<seq<MappingEntry>>
  {
    var err := ValidateFile(filename, |content|, [CsvType], DefaultMaxSizeMb, formatSize, formatLimit);
    if err != "" then Err(err)
    else match CsvOf(ByteContent(content), decode, readRows)
      case Err(message) => Err(message)
      case Ok(rows) => Ok(MappingEntries(rows))
  }

  /** /api/analyze: the uploaded file if any, else the latest global
      mapping, which must exist and hold data. */
  function GlobalMappingSource(upload: Option<Result<seq<MappingEntry>>>, latest: Option<StoredMapping>)
    : (r: Result<seq<MappingEntry>>)
    ensures upload.Some? ==> r == upload.value
    ensures upload.None? && latest.Some? && HasMappingData(latest.value) ==> r == Ok(latest.value.mappingData.value)
    ensures upload.None? && !(latest.Some? && HasMappingData(latest.value)) ==> r == Err(NoGlobalMapping)
  {
    match upload
    case Some(result) => result
    case None =>
      if latest.None? || !HasMappingData(latest.value) then Err(NoGlobalMapping)
      else Ok(latest.value.mappingData.value)
  }

  /** The project route: the uploaded file if any, else the project's own
      non-empty mapping data. */
  function ProjectMappingSource(upload: Option<Result<seq<MappingEntry>>>, project: StoredMapping)
    : (r: Result<seq<MappingEntry>>)
    ensures upload.Some? ==> r == upload.value
    ensures upload.None? && HasMappingData(project) ==> r == Ok(project.mappingData.value)
    ensures upload.None? && !HasMappingData(project) ==> r == Err(NoProjectMapping)
  {
    match upload
    case Some(result) => result
    case None =>
      if HasMappingData(project) then Ok(project.mappingData.value) else Err(NoProjectMapping)
  }

  /** Without an upload, a successful choice always comes with at least one
      entry; the two routes agree whenever the stored mapping they fall back
      to is the same and holds data. */
  lemma MappingSourcesAgree(upload: Option<Result<seq<MappingEntry>>>, stored: StoredMapping)
    ensures upload.None? && GlobalMappingSource(upload, Some(stored)).Ok? ==>
      GlobalMappingSource(upload, Some(stored)).value != []
    ensures upload.None? && ProjectMappingSource(upload, stored).Ok? ==>
      ProjectMappingSource(upload, stored).value != []
    ensures upload.Some? || HasMappingData(stored) ==>
      GlobalMappingSource(upload, Some(stored)) == ProjectMappingSource(upload, stored)
  {
  }

  /** An upload that is not a CSV file is refused before it is read. */
  lemma UploadedMappingMustBeCsv(filename: string, content: seq<byte>, decode: Decoder, readRows: string -> seq<Row>,
                                 formatSize: real -> string, formatLimit: real -> string)
    requires DetectFileType(filename) != CsvType
    ensures UploadedMapping(filename, content, decode, readRows, formatSize, formatLimit).Err?
  {
    assert ValidateFile(filename, |content|, [CsvType], DefaultMaxSizeMb, formatSize, formatLimit) != "";
  }

  // ---------------------------------------------------------------------
  // What is recorded of the AI analysis

  datatype AiAnalysis = AiResult(result: Json) | AiError(error: string)

  /** ai_result, ai_cost, token_usage and the cost that is saved. */
  datatype AiRecord = AiRecord(analysis: Option<AiAnalysis>, cost: Option<Cost>, tokenUsage: nat, savedCost: real)

  function AiRecordOf(useAi: bool, response: CallResult): (r: AiRecord)
    ensures r.cost.None? ==> r.tokenUsage == 0 && r.savedCost == 0.0
    ensures r.cost.Some? ==> r.savedCost == r.cost.value.totalCost && r.tokenUsage == r.cost.value.totalTokens
  {
    if !useAi then AiRecord(None, None, 0, 0.0)
    else match response
      case Failure(error) => AiRecord(Some(AiError(error)), None, 0, 0.0)
      case Success(result, usage) =>
        var cost := CalculateCost(usage);
        AiRecord(Some(AiResult(result)), Some(cost), Tokens(usage, TotalKey), cost.totalCost)
  }

  /** Without AI, or when the call failed, there is no cost and no token
      count; a successful call records its price and total tokens. */
  lemma AiDefaults(useAi: bool, response: CallResult)
    ensures !useAi ==> AiRecordOf(useAi, response) == AiRecord(None, None, 0, 0.0)
    ensures useAi && response.Failure? ==>
      AiRecordOf(useAi, response) == AiRecord(Some(AiError(response.error)), None, 0, 0.0)
    ensures useAi && response.Success? ==>
      && AiRecordOf(useAi, response).cost == Some(CalculateCost(response.usage))
      && AiRecordOf(useAi, response).tokenUsage == Tokens(response.usage, TotalKey)
  {
  }

  // ---------------------------------------------------------------------
  // /api/upload/validate

  datatype UploadCheck = Valid(fileType: string, rowCount: nat) | Rejected(error: string)

  const UploadTypes := [CsvType, ExcelType, JsonType]

  /** The validation message of an upload, "" when it passes. */
  function UploadError(filename: string, content: seq<byte>, formatSize: real -> string, formatLimit: real -> string): string {
    ValidateFile(filename, |content|, UploadTypes, DefaultMaxSizeMb, formatSize, formatLimit)
  }

  /** The upload check: the file must pass validation for CSV, Excel or
      JSON and then parse; CSV and Excel report their row count, JSON 0.
      A failed validation or parse is reported with its own message. */
  function CheckUpload(filename: string, content: seq<byte>, decode: Decoder, readRows: string -> seq<Row>,
                       load: seq<byte> -> Workbook, loads: string -> Result<Json>,
                       formatSize: real -> string, formatLimit: real -> string): (r: UploadCheck)
    ensures UploadError(filename, content, formatSize, formatLimit) != "" ==>
      r == Rejected(UploadError(filename, content, formatSize, formatLimit))
    ensures UploadError(filename, content, formatSize, formatLimit) == "" ==>
      DetectFileType(filename) in UploadTypes && (r.Valid? ==> r.fileType == DetectFileType(filename))
    ensures UploadError(filename, content, formatSize, formatLimit) == "" && DetectFileType(filename) == CsvType ==>
      && (r.Valid? <==> CsvOf(ByteContent(content), decode, readRows).Ok?)
      && (CsvOf(ByteContent(content), decode, readRows).Err? ==>
            r == Rejected(CsvOf(ByteContent(content), decode, readRows).message))
    ensures UploadError(filename, content, formatSize, formatLimit) == "" && DetectFileType(filename) == ExcelType ==>
      && (r.Valid? <==> ExcelOf(content, load).Ok?)
      && (ExcelOf(content, load).Err? ==> r == Rejected(ExcelOf(content, load).message))
    ensures UploadError(filename, content, formatSize, formatLimit) == "" && DetectFileType(filename) == JsonType ==>
      && (r.Valid? <==> ParseJson(ByteContent(content), decode, loads).Ok?)
      && (ParseJson(ByteContent(content), decode, loads).Err? ==>
            r == Rejected(ParseJson(ByteContent(content), decode, loads).message))
    ensures r.Valid? ==> r.fileType in UploadTypes
    ensures r.Valid? && r.fileType == JsonType ==> r.rowCount == 0
    ensures r.Valid? && r.fileType == CsvType ==>
      CsvOf(ByteContent(content), decode, readRows).Ok?
      && r.rowCount == |CsvOf(ByteContent(content), decode, readRows).value| > 0
    ensures r.Valid? && r.fileType == ExcelType ==>
      ExcelOf(content, load).Ok? && r.rowCount == |ExcelOf(content, load).value| > 0
  {
    var err := UploadError(filename, content, formatSize, formatLimit);
    if err != "" then Rejected(err)
    else
      var fileType := DetectFileType(filename);
      if fileType == CsvType then
        CsvOutcomes(ByteContent(content), decode, readRows);
        RowsCheck(fileType, CsvOf(ByteContent(content), decode, readRows))
      else if fileType == ExcelType then
        ExcelRowsShape(content, load);
        RowsCheck(fileType, ExcelOf(content, load))
      else
        match ParseJson(ByteContent(content), decode, loads)
        case Err(message) => Rejected(message)
        case Ok(_) => Valid(fileType, 0)
  }

  /** The answer for a parsed table: its row count, or the parser's message. */
  function RowsCheck(fileType: string, parsed: Result<seq<Row>>): (r: UploadCheck)
    ensures r.Valid? <==> parsed.Ok?
    ensures parsed.Err? ==> r == Rejected(parsed.message)
    ensures parsed.Ok? ==> r == Valid(fileType, |parsed.value|)
  {
    match parsed
    case Err(message) => Rejected(message)
    case Ok(rows) => Valid(fileType, |rows|)
  }
}
