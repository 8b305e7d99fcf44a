/** Upload checks and file readers (api/services/file_parser.py): file type
    detection by suffix, the ordered validation of an upload, and the
    error paths and row normalisation of the CSV, Excel and JSON readers.
    Byte decoding, the CSV dialect, the workbook reader and the JSON
    decoder are foreign code and enter as function parameters; every
    ValueError the readers raise is an `Err` with its message. */
module Upload {
  import opened Text
  import opened Results
  import opened Seqs
  import opened Rows
  import opened JsonData

  newtype byte = x: int | 0 <= x < 256

  /** `str` or `bytes`, as the readers accept either. */
  datatype Content = TextContent(text: string) | ByteContent(bytes: seq<byte>)

  /** `bytes.decode(encoding)`: the text, or the codec's error message. */
  type Decoder = (string, seq<byte>) -> Result<string>

  // ---------------------------------------------------------------------
  // detect_file_type

  const CsvType := "csv"
  const ExcelType := "excel"
  const JsonType := "json"
  const UnknownType := "unknown"

  /** The type named by the file's suffix, compared without regard to case:
      ".csv", then ".xlsx"/".xls", then ".json"; anything else is
      unknown. */
  function DetectFileType(filename: string): (r: string)
    ensures r in {CsvType, ExcelType, JsonType, UnknownType}
    ensures r == CsvType <==> EndsWith(Lower(filename), ".csv")
    ensures r == ExcelType <==>
      !EndsWith(Lower(filename), ".csv") && (EndsWith(Lower(filename), ".xlsx") || EndsWith(Lower(filename), ".xls"))
    ensures r == UnknownType <==>
      !EndsWith(Lower(filename), ".csv") && !EndsWith(Lower(filename), ".xlsx")
      && !EndsWith(Lower(filename), ".xls") && !EndsWith(Lower(filename), ".json")
  {
    var name := Lower(filename);
    if EndsWith(name, ".csv") then CsvType
    else if EndsWith(name, ".xlsx") || EndsWith(name, ".xls") then ExcelType
    else if EndsWith(name, ".json") then JsonType
    else UnknownType
  }

  /** The detected type does not depend on the case of the name. */
  lemma DetectIgnoresCase(filename: string)
    ensures DetectFileType(Lower(filename)) == DetectFileType(filename)
  {
    LowerIdempotent(filename);
  }

  // ---------------------------------------------------------------------
  // validate_file

  const Mebibyte: nat := 1024 * 1024
  const DefaultMaxSizeMb: real := 10.0

  function UnsupportedMessage(filename: string, allowed: seq<string>): string {
    "不支持的文件格式: " + filename + "，请上传 " + Join(allowed, ", ") + " 格式文件"
  }

  function NotAllowedMessage(fileType: string, allowed: seq<string>): string {
    "该接口不支持 " + fileType + " 格式，请上传 " + Join(allowed, ", ") + " 格式文件"
  }

  /** `formatSize` renders `{size_mb:.1f}` and `formatLimit` renders
      `{max_size_mb}`; float formatting is not modelled. */
  function TooLargeMessage(sizeMb: real, maxSizeMb: real, formatSize: real -> string, formatLimit: real -> string): string {
    "文件过大 (" + formatSize(sizeMb) + "MB)，最大允许 " + formatLimit(maxSizeMb) + "MB"
  }

  /** The error message for an upload of `size` bytes, or "" when it is
      acceptable. The checks come in a fixed order: an unknown type, then a
      type the route does not allow, then the size, which may reach the
      limit exactly but not exceed it. */
  function ValidateFile(filename: string, size: nat, allowed: seq<string>, maxSizeMb: real,
                        formatSize: real -> string, formatLimit: real -> string): (r: string)
    ensures r == "" <==>
      DetectFileType(filename) != UnknownType && DetectFileType(filename) in allowed
      && (size as real) <= maxSizeMb * (Mebibyte as real)
    ensures DetectFileType(filename) == UnknownType ==> r == UnsupportedMessage(filename, allowed)
    ensures DetectFileType(filename) != UnknownType && DetectFileType(filename) !in allowed ==>
      r == NotAllowedMessage(DetectFileType(filename), allowed)
    ensures DetectFileType(filename) != UnknownType && DetectFileType(filename) in allowed
            && (size as real) > maxSizeMb * (Mebibyte as real) ==>
      r == TooLargeMessage((size as real) / (Mebibyte as real), maxSizeMb, formatSize, formatLimit)
  {
    var fileType := DetectFileType(filename);
    if fileType == UnknownType then UnsupportedMessage(filename, allowed)
    else if fileType !in allowed then NotAllowedMessage(fileType, allowed)
    else
      var sizeMb := (size as real) / (Mebibyte as real);
      SizeLimit(size, maxSizeMb);
      if sizeMb > maxSizeMb then TooLargeMessage(sizeMb, maxSizeMb, formatSize, formatLimit)
      else ""
  }

  /** Comparing megabytes is comparing bytes against the limit in bytes. */
  lemma SizeLimit(size: nat, maxSizeMb: real)
    ensures (size as real) / (Mebibyte as real) > maxSizeMb <==> (size as real) > maxSizeMb * (Mebibyte as real)
  {
    var m := Mebibyte as real;
    assert (size as real) == ((size as real) / m) * m;
  }

  /** A file of exactly the limit passes, one byte more does not. */
  lemma SizeLimitInclusive(filename: string, allowed: seq<string>, maxMb: nat,
                           formatSize: real -> string, formatLimit: real -> string)
    requires DetectFileType(filename) != UnknownType && DetectFileType(filename) in allowed
    ensures ValidateFile(filename, maxMb * Mebibyte, allowed, maxMb as real, formatSize, formatLimit) == ""
    ensures ValidateFile(filename, maxMb * Mebibyte + 1, allowed, maxMb as real, formatSize, formatLimit) != ""
  {
    var m := Mebibyte as real;
    assert ((maxMb * Mebibyte) as real) == (maxMb as real) * m;
    assert ((maxMb * Mebibyte + 1) as real) > (maxMb as real) * m;
  }

  // ---------------------------------------------------------------------
  // parse_csv

  const CsvEncodings := ["utf-8", "gbk", "gb2312", "utf-8-sig"]
  const CsvEncodingError := "无法识别CSV文件编码，请使用UTF-8编码"
  const CsvEmpty := "CSV文件内容为空"
  const CsvNoRows := "CSV文件没有数据行"

  /** The text from the first encoding that decodes the bytes, if any. */
  function FirstDecoding(encodings: seq<string>, bytes: seq<byte>, decode: Decoder): Option<string>
    decreases |encodings|
  {
    if encodings == [] then None
    else match decode(encodings[0], bytes)
      case Ok(text) => Some(text)
      case Err(_) => FirstDecoding(encodings[1..], bytes, decode)
  }

  /** The first encoding that succeeds wins; there is none only when every
      encoding fails. */
  lemma {:induction false} FirstDecodingWins(encodings: seq<string>, bytes: seq<byte>, decode: Decoder)
    ensures FirstDecoding(encodings, bytes, decode).None? <==>
      forall i :: 0 <= i < |encodings| ==> decode(encodings[i], bytes).Err?
    ensures FirstDecoding(encodings, bytes, decode).Some? ==>
      exists i :: && 0 <= i < |encodings|
                  && decode(encodings[i], bytes) == Ok(FirstDecoding(encodings, bytes, decode).value)
                  && forall j :: 0 <= j < i ==> decode(encodings[j], bytes).Err?
    decreases |encodings|
  {
    if encodings != [] && decode(encodings[0], bytes).Err? {
      var rest := encodings[1..];
      FirstDecodingWins(rest, bytes, decode);
      forall i | 0 <= i < |rest| ensures rest[i] == encodings[i + 1] { }
      if FirstDecoding(encodings, bytes, decode).Some? {
        var i :| && 0 <= i < |rest|
                 && decode(rest[i], bytes) == Ok(FirstDecoding(rest, bytes, decode).value)
                 && forall j :: 0 <= j < i ==> decode(rest[j], bytes).Err?;
        assert decode(encodings[i + 1], bytes) == Ok(FirstDecoding(encodings, bytes, decode).value);
      }
    } else if encodings != [] {
      assert decode(encodings[0], bytes) == Ok(FirstDecoding(encodings, bytes, decode).value);
    }
  }

  /** The for/else loop over the encodings. */
  method DecodeCsvBytes(bytes: seq<byte>, decode: Decoder) returns (r: Option<string>)
    ensures r == FirstDecoding(CsvEncodings, bytes, decode)
  {
    var encodings := CsvEncodings;
    for i := 0 to |encodings|
      invariant FirstDecoding(encodings, bytes, decode) == FirstDecoding(encodings[i..], bytes, decode)
    {
      assert encodings[i..][1..] == encodings[i + 1..];
      var attempt := decode(encodings[i], bytes);
      if attempt.Ok? {
        return Some(attempt.value);
      }
    }
    return None;
  }

  /** The text of a CSV upload, or the encoding error. */
  function CsvText(content: Content, decode: Decoder): Result<string> {
    match content
    case TextContent(text) => Ok(text)
    case ByteContent(bytes) =>
      match FirstDecoding(CsvEncodings, bytes, decode)
      case Some(text) => Ok(text)
      case None => Err(CsvEncodingError)
  }

  /** What parse_csv returns; `readRows` is the CSV dialect reader. */
  function CsvOf(content: Content, decode: Decoder, readRows: string -> seq<Row>): Result<seq<Row>> {
    match CsvText(content, decode)
    case Err(message) => Err(message)
    case Ok(text) =>
      if Blank(text) then Err(CsvEmpty)
      else if readRows(text) == [] then Err(CsvNoRows)
      else Ok(readRows(text))
  }

  method ParseCsv(content: Content, decode: Decoder, readRows: string -> seq<Row>) returns (r: Result<seq<Row>>)
    ensures r == CsvOf(content, decode, readRows)
  {
    var text: string;
    match content {
      case TextContent(t) =>
        text := t;
      case ByteContent(bytes) =>
        var decoded := DecodeCsvBytes(bytes, decode);
        if decoded.None? {
          return Err(CsvEncodingError);
        }
        text := decoded.value;
    }
    if Blank(text) {
      return Err(CsvEmpty);
    }
    var rows := readRows(text);
    if rows == [] {
      return Err(CsvNoRows);
    }
    return Ok(rows);
  }

  /** A CSV upload is read iff it decodes, is not blank and has a data row;
      otherwise the first of these that fails names the error. */
  lemma CsvOutcomes(content: Content, decode: Decoder, readRows: string -> seq<Row>)
    ensures CsvOf(content, decode, readRows) == Err(CsvEncodingError) <==>
      content.ByteContent? && forall i :: 0 <= i < |CsvEncodings| ==> decode(CsvEncodings[i], content.bytes).Err?
    ensures CsvOf(content, decode, readRows) == Err(CsvEmpty) <==>
      CsvText(content, decode).Ok? && Blank(CsvText(content, decode).value)
    ensures CsvOf(content, decode, readRows).Ok? <==>
      && CsvText(content, decode).Ok? && !Blank(CsvText(content, decode).value)
      && readRows(CsvText(content, decode).value) != []
    ensures CsvOf(content, decode, readRows).Ok? ==>
      CsvOf(content, decode, readRows).value == readRows(CsvText(content, decode).value)
  {
    if content.ByteContent? {
      FirstDecodingWins(CsvEncodings, content.bytes, decode);
    }
  }

  // ---------------------------------------------------------------------
  // parse_excel

  /** A worksheet cell: empty (None), or a value given by its `str()`
      rendering and its Python truthiness (False for "", 0, 0.0, False). */
  datatype Cell = NoValue | Value(text: string, truthy: bool)

  /** What load_workbook gives: the active sheet's rows, if there is an
      active sheet, or the reader's error message. */
  datatype Workbook = Opened(active: Option<seq<seq<Cell>>>) | Unreadable(message: string)

  const ExcelInvalidPrefix := "Excel文件格式无效: "
  const ExcelNoSheet := "Excel文件没有活动工作表"
  const ExcelEmpty := "Excel文件为空"
  const ExcelNoRows := "Excel文件没有数据行"
  const ColumnPrefix := "col_"

  predicate Truthy(c: Cell) {
    c.Value? && c.truthy
  }

  /** The header of column `i`: the stripped text of a truthy cell,
      otherwise "col_i". */
  function HeaderOf(i: nat, c: Cell): string {
    if Truthy(c) then Strip(c.text) else ColumnPrefix + NatToString(i)
  }

  function Headers(cells: seq<Cell>): (r: seq<string>)
    ensures |r| == |cells|
    ensures forall i :: 0 <= i < |cells| ==> r[i] == HeaderOf(i, cells[i])
  {
    seq(|cells|, i requires 0 <= i < |cells| => HeaderOf(i, cells[i]))
  }

  /** Generated column names never collide with each other. */
  lemma GeneratedHeadersDistinct(i: nat, j: nat)
    requires i != j
    ensures ColumnPrefix + NatToString(i) != ColumnPrefix + NatToString(j)
  {
    DecimalRoundTrip(i);
    DecimalRoundTrip(j);
    assert (ColumnPrefix + NatToString(i))[|ColumnPrefix|..] == NatToString(i);
    assert (ColumnPrefix + NatToString(j))[|ColumnPrefix|..] == NatToString(j);
  }

  /** The text stored for a cell: "" for None, the stripped rendering
      otherwise. */
  function CellString(c: Cell): string {
    match c
    case NoValue => ""
    case Value(text, _) => Strip(text)
  }

  /** The row dictionary built from the first cells of a row: each cell
      under its column's header while there is one, a later column
      overwriting an earlier one with the same header. */
  function RowDict(headers: seq<string>, cells: seq<Cell>): Row
    decreases |cells|
  {
    if cells == [] then map[]
    else
      var i := |cells| - 1;
      var d := RowDict(headers, cells[..i]);
      if i < |headers| then d[headers[i] := CellString(cells[i])] else d
  }

  /** `any(v for v in row_dict.values())` */
  predicate HasContent(d: Row) {
    exists k :: k in d && d[k] != ""
  }

  predicate KeptRow(headers: seq<string>, cells: seq<Cell>) {
    HasContent(RowDict(headers, cells))
  }

  function Keeps(headers: seq<string>): seq<Cell> -> bool {
    (cells: seq<Cell>) => KeptRow(headers, cells)
  }

  function DictOf(headers: seq<string>): seq<Cell> -> Row {
    (cells: seq<Cell>) => RowDict(headers, cells)
  }

  /** What parse_excel returns for a workbook. */
  function ExcelOf(content: seq<byte>, load: seq<byte> -> Workbook): Result<seq<Row>> {
    match load(content)
    case Unreadable(message) => Err(ExcelInvalidPrefix + message)
    case Opened(None) => Err(ExcelNoSheet)
    case Opened(Some(sheet)) =>
      if sheet == [] then Err(ExcelEmpty)
      else
        var rows := SheetRows(sheet);
        if rows == [] then Err(ExcelNoRows) else Ok(rows)
  }

  /** The dictionaries of the rows below the header row that hold a value. */
  function SheetRows(sheet: seq<seq<Cell>>): seq<Row>
    requires sheet != []
  {
    var headers := Headers(sheet[0]);
    Select(sheet[1..], Keeps(headers), DictOf(headers))
  }

  method ParseExcel(content: seq<byte>, load: seq<byte> -> Workbook) returns (r: Result<seq<Row>>)
    ensures r == ExcelOf(content, load)
  {
    var workbook := load(content);
    if workbook.Unreadable? {
      return Err(ExcelInvalidPrefix + workbook.message);
    }
    if workbook.active.None? {
      return Err(ExcelNoSheet);
    }
    var sheet := workbook.active.value;
    if sheet == [] {
      return Err(ExcelEmpty);
    }
    var headers := Headers(sheet[0]);
    var body := sheet[1..];
    var rows: seq<Row> := [];
    for n := 0 to |body|
      invariant rows == Select(body[..n], Keeps(headers), DictOf(headers))
    {
      SelectStep(body, n, Keeps(headers), DictOf(headers));
      var rowDict := BuildRowDict(headers, body[n]);
      if exists k :: k in rowDict && rowDict[k] != "" {
        rows := rows + [rowDict];
      }
    }
    assert body[..|body|] == body;
    if rows == [] {
      return Err(ExcelNoRows);
    }
    return Ok(rows);
  }

  /** The loop over one row's cells. */
  method BuildRowDict(headers: seq<string>, cells: seq<Cell>) returns (d: Row)
    ensures d == RowDict(headers, cells)
  {
    d := map[];
    for i := 0 to |cells|
      invariant d == RowDict(headers, cells[..i])
    {
      assert cells[..i + 1][..i] == cells[..i];
      if i < |headers| {
        d := d[headers[i] := CellString(cells[i])];
      }
    }
    assert cells[..|cells|] == cells;
  }

  /** A header is a key of the row iff one of the row's cells sits in its
      column; cells past the last header are dropped. */
  lemma {:induction false} RowDictKeys(headers: seq<string>, cells: seq<Cell>, k: string)
    ensures k in RowDict(headers, cells) <==>
      exists i :: 0 <= i < |cells| && i < |headers| && headers[i] == k
    decreases |cells|
  {
    if cells != [] {
      var init := cells[..|cells| - 1];
      RowDictKeys(headers, init, k);
    }
  }

  /** The last of the first `n` columns whose header is `k`, or -1. */
  function LastColumn(headers: seq<string>, k: string, n: nat): (r: int)
    ensures -1 <= r < n
    ensures r >= 0 ==> r < |headers| && headers[r] == k
    ensures forall j :: r < j < n && j < |headers| ==> headers[j] != k
  {
    if n == 0 then -1
    else if n - 1 < |headers| && headers[n - 1] == k then n - 1
    else LastColumn(headers, k, n - 1)
  }

  /** The value under a header is the cell of the LAST column with that
      header. */
  lemma {:induction false} RowDictLastWins(headers: seq<string>, cells: seq<Cell>, k: string)
    ensures k in RowDict(headers, cells) <==> LastColumn(headers, k, |cells|) >= 0
    ensures k in RowDict(headers, cells) ==>
      RowDict(headers, cells)[k] == CellString(cells[LastColumn(headers, k, |cells|)])
    decreases |cells|
  {
    if cells != [] {
      var last := |cells| - 1;
      var init := cells[..last];
      RowDictLastWins(headers, init, k);
      if !(last < |headers| && headers[last] == k) && k in RowDict(headers, init) {
        assert init[LastColumn(headers, k, |init|)] == cells[LastColumn(headers, k, |init|)];
      }
    }
  }

  /** Cells beyond the header count change nothing. */
  lemma {:induction false} RowDictIgnoresExtraCells(headers: seq<string>, cells: seq<Cell>)
    requires |cells| > |headers|
    ensures RowDict(headers, cells) == RowDict(headers, cells[..|headers|])
    decreases |cells|
  {
    var init := cells[..|cells| - 1];
    if |init| > |headers| {
      RowDictIgnoresExtraCells(headers, init);
      assert init[..|headers|] == cells[..|headers|];
    } else {
      assert init == cells[..|headers|];
    }
  }

  /** The rows kept from a sheet hold a value; every sheet row that holds
      one is kept; none is kept exactly when no row below the header holds a
      value. */
  lemma {:induction false} SheetRowsShape(sheet: seq<seq<Cell>>)
    requires sheet != []
    ensures forall d :: d in SheetRows(sheet) ==> HasContent(d)
    ensures forall n :: 1 <= n < |sheet| && KeptRow(Headers(sheet[0]), sheet[n]) ==>
      RowDict(Headers(sheet[0]), sheet[n]) in SheetRows(sheet)
    ensures SheetRows(sheet) == [] <==> forall n :: 1 <= n < |sheet| ==> !KeptRow(Headers(sheet[0]), sheet[n])
  {
    var headers := Headers(sheet[0]);
    var body := sheet[1..];
    SelectMembers(body, Keeps(headers), DictOf(headers));
    SelectEmpty(body, Keeps(headers), DictOf(headers));
    forall n | 1 <= n < |sheet| ensures sheet[n] == body[n - 1] { }
  }

  /** Every row returned has a non-empty value, and there is at least one;
      every sheet row with a non-empty value is returned, in order. */
  lemma ExcelRowsShape(content: seq<byte>, load: seq<byte> -> Workbook)
    ensures ExcelOf(content, load).Ok? ==>
      && ExcelOf(content, load).value != []
      && (forall d :: d in ExcelOf(content, load).value ==> HasContent(d))
    ensures ExcelOf(content, load).Ok? ==>
      var sheet := load(content).active.value;
      forall n :: 1 <= n < |sheet| && KeptRow(Headers(sheet[0]), sheet[n]) ==>
        RowDict(Headers(sheet[0]), sheet[n]) in ExcelOf(content, load).value
    ensures ExcelOf(content, load) == Err(ExcelNoRows) <==>
      && load(content).Opened? && load(content).active.Some? && load(content).active.value != []
      && var sheet := load(content).active.value;
         forall n :: 1 <= n < |sheet| ==> !KeptRow(Headers(sheet[0]), sheet[n])
  {
    var workbook := load(content);
    if workbook.Opened? && workbook.active.Some? && workbook.active.value != [] {
      SheetRowsShape(workbook.active.value);
    } else {
      assert ExcelOf(content, load).Err? && ExcelOf(content, load) != Err(ExcelNoRows);
    }
  }

  // ---------------------------------------------------------------------
  // parse_json

  const JsonEmpty := "JSON文件内容为空"
  const JsonInvalidPrefix := "JSON格式无效: "

  /** The text of a JSON upload: utf-8, else utf-8-sig, whose own failure
      propagates as its error. */
  function JsonText(content: Content, decode: Decoder): Result<string> {
    match content
    case TextContent(text) => Ok(text)
    case ByteContent(bytes) =>
      match decode("utf-8", bytes)
      case Ok(text) => Ok(text)
      case Err(_) => decode("utf-8-sig", bytes)
  }

  /** What parse_json returns; `loads` is the JSON decoder. */
  function ParseJson(content: Content, decode: Decoder, loads: string -> Result<Json>): (r: Result<Json>)
    ensures JsonText(content, decode).Ok? && Blank(JsonText(content, decode).value) ==> r == Err(JsonEmpty)
    ensures r.Ok? <==>
      && JsonText(content, decode).Ok? && !Blank(JsonText(content, decode).value)
      && loads(JsonText(content, decode).value).Ok?
    ensures r.Ok? ==> r == loads(JsonText(content, decode).value)
    ensures JsonText(content, decode).Ok? && !Blank(JsonText(content, decode).value)
            && loads(JsonText(content, decode).value).Err? ==>
      r == Err(JsonInvalidPrefix + loads(JsonText(content, decode).value).message)
  {
    match JsonText(content, decode)
    case Err(message) => Err(message)
    case Ok(text) =>
      if Blank(text) then Err(JsonEmpty)
      else match loads(text)
        case Ok(data) => Ok(data)
        case Err(message) => Err(JsonInvalidPrefix + message)
  }
}
