/**
 * usecase/transaction_reports.go: the four category reports, the tag dispatch
 * of GenerateReports and the run of all four with its first-error fold.
 *
 * Transport, JSON decoding and os.Getwd are the parameters of an `Env`; the
 * filesystem is a FileStore. The four tasks, which the source runs as
 * goroutines, run one after another in a given completion order.
 */
module Reports {

  import opened Wrappers
  import opened Errors
  import opened Constants
  import opened Strconv
  import opened Calendar
  import opened Reflect
  import opened Models
  import opened Files
  import opened Util
  import opened Etherscan
  import opened Provider

  /** What the outside world answers: the transport per request, each JSON decoding, and os.Getwd. */
  datatype Env = Env(
    fetch: RequestURL -> Result<string, Error>,
    decodeEnvelope: string -> Result<EtherscanBaseResponse, Error>,
    decodeExternal: RawMessage -> Result<seq<ExternalTransaction>, Error>,
    decodeInternal: RawMessage -> Result<seq<InternalTransaction>, Error>,
    decodeErc20: RawMessage -> Result<seq<TokenTransaction>, Error>,
    decodeErc721: RawMessage -> Result<seq<NftTransaction>, Error>,
    getwd: Option<string>)

  // ---------------------------------------------------------------------------
  // Projections

  /** The DateTime cell: the formatted timestamp, or "" when it does not parse (the error is dropped). */
  function DateTimeCell(timeStamp: string): (r: string)
    ensures r == "" <==> !IsInt64Literal(timeStamp)
    ensures IsInt64Literal(timeStamp) && LiteralValue(timeStamp) == 0 ==> r == ZeroTimestampText
    ensures IsInt64Literal(timeStamp) && LiteralValue(timeStamp) != 0
            && MinFourDigitUnix <= LiteralValue(timeStamp) <= MaxFourDigitUnix ==>
      IsDateTimeText(r) && ValidDateTime(ReadDateTimeText(r)) && ToUnix(ReadDateTimeText(r)) == LiteralValue(timeStamp)
  {
    FormatUnixTimestampString(timeStamp).0
  }

  function ExternalRow(tx: ExternalTransaction): (r: ReportResponse)
    ensures r.transactionHash == tx.hash && r.fromAddress == tx.from && r.toAddress == tx.to
    ensures r.assetContractAddress == tx.contractAddress && r.valueAmount == tx.value && r.gasFeeEth == tx.gas
    ensures r.transactionType == TypeLabel(External) && r.assetSymbolName == TokenSymbolEth && r.tokenID == ""
    ensures r.dateTime == DateTimeCell(tx.timeStamp)
    ensures r.dateTime == "" <==> !IsInt64Literal(tx.timeStamp)
  {
    ReportResponse(tx.hash, DateTimeCell(tx.timeStamp), tx.from, tx.to, TransactionTypeEthTransfer,
                   tx.contractAddress, TokenSymbolEth, "", tx.value, tx.gas)
  }

  function InternalRow(tx: InternalTransaction): (r: ReportResponse)
    ensures r.transactionHash == tx.hash && r.fromAddress == tx.from && r.toAddress == tx.to
    ensures r.assetContractAddress == tx.contractAddress && r.valueAmount == tx.value && r.gasFeeEth == tx.gas
    ensures r.transactionType == TypeLabel(Internal) && r.assetSymbolName == TokenSymbolEth && r.tokenID == ""
    ensures r.dateTime == DateTimeCell(tx.timeStamp)
    ensures r.dateTime == "" <==> !IsInt64Literal(tx.timeStamp)
  {
    ReportResponse(tx.hash, DateTimeCell(tx.timeStamp), tx.from, tx.to, TransactionTypeInternalTransfer,
                   tx.contractAddress, TokenSymbolEth, "", tx.value, tx.gas)
  }

  function Erc20Row(tx: TokenTransaction): (r: ReportResponse)
    ensures r.transactionHash == tx.hash && r.fromAddress == tx.from && r.toAddress == tx.to
    ensures r.assetContractAddress == tx.contractAddress && r.valueAmount == tx.value && r.gasFeeEth == tx.gas
    ensures r.transactionType == TypeLabel(Erc20) && r.tokenID == ""
    ensures r.assetSymbolName == tx.tokenSymbol + " " + tx.tokenName
    ensures r.dateTime == DateTimeCell(tx.timeStamp)
    ensures r.dateTime == "" <==> !IsInt64Literal(tx.timeStamp)
  {
    ReportResponse(tx.hash, DateTimeCell(tx.timeStamp), tx.from, tx.to, TransactionTypeErc20Transfer,
                   tx.contractAddress, tx.tokenSymbol + " " + tx.tokenName, "", tx.value, tx.gas)
  }

  /** The NFT record has no value: ValueAmount is filled from TransactionIndex. */
  function Erc721Row(tx: NftTransaction): (r: ReportResponse)
    ensures r.transactionHash == tx.hash && r.fromAddress == tx.from && r.toAddress == tx.to
    ensures r.assetContractAddress == tx.contractAddress && r.gasFeeEth == tx.gas
    ensures r.valueAmount == tx.transactionIndex && r.tokenID == tx.tokenID
    ensures r.transactionType == TypeLabel(Erc721)
    ensures r.assetSymbolName == tx.tokenSymbol + " " + tx.tokenName
    ensures r.dateTime == DateTimeCell(tx.timeStamp)
    ensures r.dateTime == "" <==> !IsInt64Literal(tx.timeStamp)
  {
    ReportResponse(tx.hash, DateTimeCell(tx.timeStamp), tx.from, tx.to, TransactionTypeErc721Transfer,
                   tx.contractAddress, tx.tokenSymbol + " " + tx.tokenName, tx.tokenID, tx.transactionIndex, tx.gas)
  }

  /** The projection loop of each report: one row per record, in order. */
  method ProjectRows<R>(txList: seq<R>, project: R -> ReportResponse) returns (csvResp: seq<ReportResponse>)
    ensures |csvResp| == |txList|
    ensures forall i :: 0 <= i < |txList| ==> csvResp[i] == project(txList[i])
  {
    csvResp := [];
    for i := 0 to |txList|
      invariant |csvResp| == i
      invariant forall j :: 0 <= j < i ==> csvResp[j] == project(txList[j])
    {
      csvResp := csvResp + [project(txList[i])];
    }
  }

  /** The rows the projection loop builds: row i is record i projected. */
  function MapRows<R>(txList: seq<R>, project: R -> ReportResponse): (r: seq<ReportResponse>)
    ensures |r| == |txList|
    ensures forall i :: 0 <= i < |txList| ==> r[i] == project(txList[i])
  {
    seq(|txList|, i requires 0 <= i < |txList| => project(txList[i]))
  }

  // ---------------------------------------------------------------------------
  // Report files

  function ReportSuffix(c: Category): string
  {
    match c
    case External => "_external_report.csv"
    case Internal => "_internal_report.csv"
    case Erc20 => "_erc-20_report.csv"
    case Erc721 => "_erc-721_report.csv"
  }

  /** The reports directory under a clean working directory. */
  function ReportsDir(dir: string): (q: string)
    ensures |q| > 0
  {
    (if dir == "/" then "" else dir) + "/files/reports"
  }

  /** filepath.Join(dir, "/files/reports", wallet + suffix) for a clean working directory: the file name ends the path. */
  function ReportPath(dir: string, walletAddress: string, c: Category): (p: string)
    ensures |p| > |walletAddress + ReportSuffix(c)|
    ensures p[|p| - |walletAddress + ReportSuffix(c)|..] == walletAddress + ReportSuffix(c)
  {
    JoinParts(ReportsDir(dir), walletAddress + ReportSuffix(c));
    ReportsDir(dir) + "/" + (walletAddress + ReportSuffix(c))
  }

  /** For a wallet address without '/', the directory WriteCSV creates for a report is the reports directory. */
  lemma ReportPathDir(dir: string, walletAddress: string, c: Category)
    requires '/' !in walletAddress
    ensures Dir(ReportPath(dir, walletAddress, c)) == ReportsDir(dir)
  {
    NoSlashInConcat(walletAddress, ReportSuffix(c));
    JoinParts(ReportsDir(dir), walletAddress + ReportSuffix(c));
  }

  lemma NoSlashInConcat(a: string, b: string)
    requires '/' !in a && '/' !in b
    ensures '/' !in a + b
  {
    assert forall x :: x in a + b ==> x in a || x in b;
  }

  lemma PrefixCancel(p: string, a: string, b: string)
    ensures p + a == p + b ==> a == b
  {
    if p + a == p + b {
      assert (p + a)[|p|..] == a;
      assert (p + b)[|p|..] == b;
    }
  }

  /** The four reports of one wallet go to four different files. */
  lemma ReportPathsDistinct(dir: string, walletAddress: string, c1: Category, c2: Category)
    requires c1 != c2
    ensures ReportPath(dir, walletAddress, c1) != ReportPath(dir, walletAddress, c2)
  {
    PrefixCancel(ReportsDir(dir) + "/", walletAddress + ReportSuffix(c1), walletAddress + ReportSuffix(c2));
    PrefixCancel(walletAddress, ReportSuffix(c1), ReportSuffix(c2));
  }

  /** What one report task returns, and the file it leaves (path and records), if any. */
  datatype TaskEffect = TaskEffect(err: Option<Error>, written: Option<(string, seq<seq<string>>)>)

  function ApplyEffect(files: map<string, seq<seq<string>>>, e: TaskEffect): map<string, seq<seq<string>>>
  {
    if e.written.Some? then files[e.written.value.0 := e.written.value.1] else files
  }

  /**
   * One category report: decode the list, stop quietly on an empty list,
   * project every record, resolve the working directory and write the CSV.
   */
  function ReportSpec<R>(decoded: Result<seq<R>, Error>, project: R -> ReportResponse, getwd: Option<string>,
                         walletAddress: string, c: Category, mk: set<string>, cr: set<string>): (e: TaskEffect)
    ensures e.err.None? && e.written.None? ==> decoded.Ok? && |decoded.value| == 0
    ensures decoded.Err? ==> e.err == Some(decoded.error) && e.written.None?
  {
    if decoded.Err? then TaskEffect(Some(decoded.error), None)
    else if |decoded.value| == 0 then TaskEffect(None, None)
    else match GetCurrentWorkingDirectory(getwd)
      case Err(e) => TaskEffect(Some(e), None)
      case Ok(dir) =>
        var path := ReportPath(dir, walletAddress, c);
        var o := WriteCsvSpec(path, ReportResponseType, MapRows(decoded.value, project), mk, cr);
        TaskEffect(o.err, if o.file.Some? then Some((path, o.file.value)) else None)
  }

  /** The shared body of ExternalReport, InternalReport, Erc20Report and Erc721Report. */
  method CategoryReport<R>(store: FileStore, decoded: Result<seq<R>, Error>, project: R -> ReportResponse,
                           getwd: Option<string>, walletAddress: string, c: Category) returns (err: Option<Error>)
    modifies store
    ensures var e := ReportSpec(decoded, project, getwd, walletAddress, c, store.mkdirDenied, store.createDenied);
      err == e.err && store.files == ApplyEffect(old(store.files), e)
  {
    if decoded.Err? {
      return Some(decoded.error);
    }
    var txList := decoded.value;
    if |txList| == 0 {
      return None;
    }
    var csvResp := ProjectRows(txList, project);
    assert csvResp == MapRows(txList, project);
    var dir := GetCurrentWorkingDirectory(getwd);
    if dir.Err? {
      return Some(dir.error);
    }
    var filePath := ReportPath(dir.value, walletAddress, c);
    err := WriteCSV(store, filePath, ReportResponseType, csvResp);
  }

  method ExternalReport(store: FileStore, env: Env, res: RawMessage, walletAddress: string) returns (err: Option<Error>)
    modifies store
    ensures var e := ReportSpec(env.decodeExternal(res), ExternalRow, env.getwd, walletAddress, External,
                                store.mkdirDenied, store.createDenied);
      err == e.err && store.files == ApplyEffect(old(store.files), e)
  {
    err := CategoryReport(store, env.decodeExternal(res), ExternalRow, env.getwd, walletAddress, External);
  }

  method InternalReport(store: FileStore, env: Env, res: RawMessage, walletAddress: string) returns (err: Option<Error>)
    modifies store
    ensures var e := ReportSpec(env.decodeInternal(res), InternalRow, env.getwd, walletAddress, Internal,
                                store.mkdirDenied, store.createDenied);
      err == e.err && store.files == ApplyEffect(old(store.files), e)
  {
    err := CategoryReport(store, env.decodeInternal(res), InternalRow, env.getwd, walletAddress, Internal);
  }

  method Erc20Report(store: FileStore, env: Env, res: RawMessage, walletAddress: string) returns (err: Option<Error>)
    modifies store
    ensures var e := ReportSpec(env.decodeErc20(res), Erc20Row, env.getwd, walletAddress, Erc20,
                                store.mkdirDenied, store.createDenied);
      err == e.err && store.files == ApplyEffect(old(store.files), e)
  {
    err := CategoryReport(store, env.decodeErc20(res), Erc20Row, env.getwd, walletAddress, Erc20);
  }

  method Erc721Report(store: FileStore, env: Env, res: RawMessage, walletAddress: string) returns (err: Option<Error>)
    modifies store
    ensures var e := ReportSpec(env.decodeErc721(res), Erc721Row, env.getwd, walletAddress, Erc721,
                                store.mkdirDenied, store.createDenied);
      err == e.err && store.files == ApplyEffect(old(store.files), e)
  {
    err := CategoryReport(store, env.decodeErc721(res), Erc721Row, env.getwd, walletAddress, Erc721);
  }

  // ---------------------------------------------------------------------------
  // Report contents

  /** The header row of every report. */
  const ReportHeaders: seq<string> :=
    ["Transaction Hash", "Date Time", "From Address", "To Address", "Transaction Type",
     "Asset Contract Address", "Asset Symbol Name", "Token ID", "Value Amount", "Gas Fee (ETH)"]

  /** The ten tags, in declaration order, are the report headers, and none is "" or "-". */
  lemma ReportTags()
    ensures |ReportResponseType.fields| == |ReportHeaders|
    ensures forall i :: 0 <= i < |ReportHeaders| ==> ReportResponseType.fields[i].csvTag == ReportHeaders[i]
    ensures forall i :: 0 <= i < |ReportHeaders| ==> IsExportTag(ReportHeaders[i])
  {
  }

  /** Every ReportResponse field is exported, in declaration order, under these ten headers. */
  lemma ReportMetadata()
    ensures ExportedIndices(ReportResponseType.fields) == seq(10, i => i)
    ensures HeadersFor(ReportResponseType.fields, ExportedIndices(ReportResponseType.fields)) == ReportHeaders
  {
    ReportTags();
    var f := ReportResponseType.fields;
    AllTagged(f);
    var h := HeadersFor(f, ExportedIndices(f));
    assert forall i :: 0 <= i < |h| ==> h[i] == ReportHeaders[i];
  }

  /** When every field is tagged, every field is exported, in declaration order. */
  lemma {:induction false} AllTagged<T>(f: seq<StructField<T>>)
    requires forall i :: 0 <= i < |f| ==> IsExportTag(f[i].csvTag)
    ensures ExportedIndices(f) == seq(|f|, i => i)
    decreases |f|
  {
    if f != [] {
      var init := f[..|f| - 1];
      AllTagged(init);
      assert seq(|f|, i => i) == seq(|init|, i => i) + [|f| - 1];
    }
  }

  lemma ReportHeadersDistinct()
    ensures |ReportHeaders| == 10
    ensures ReportHeaders[6] == "Asset Symbol Name"
    ensures forall i, j :: 0 <= i < j < 10 ==> ReportHeaders[i] != ReportHeaders[j]
  {
  }

  /**
   * A report that is written holds the ten headers and then one row per
   * record, in record order, whose cells are the projected row's fields.
   */
  lemma ReportFileContents<R>(decoded: Result<seq<R>, Error>, project: R -> ReportResponse, getwd: Option<string>,
                              walletAddress: string, c: Category, mk: set<string>, cr: set<string>)
    requires ReportSpec(decoded, project, getwd, walletAddress, c, mk, cr).written.Some?
    ensures var file := ReportSpec(decoded, project, getwd, walletAddress, c, mk, cr).written.value.1;
      decoded.Ok? && getwd.Some?
      && |file| == 1 + |decoded.value| && file[0] == ReportHeaders
      && forall i :: 0 <= i < |decoded.value| ==> file[i + 1] == ReportCells(project(decoded.value[i]))
  {
    ReportSpecWritten(decoded, project, getwd, walletAddress, c, mk, cr);
    var rows := MapRows(decoded.value, project);
    ReportCsvFile(ReportPath(getwd.value, walletAddress, c), rows, mk, cr);
    assert forall i :: 0 <= i < |decoded.value| ==> rows[i] == project(decoded.value[i]);
  }

  /** A written report CSV: the ten headers, then each row's ten cells. */
  lemma ReportCsvFile(path: string, rows: seq<ReportResponse>, mk: set<string>, cr: set<string>)
    requires WriteCsvSpec(path, ReportResponseType, rows, mk, cr).file.Some?
    ensures var file := WriteCsvSpec(path, ReportResponseType, rows, mk, cr).file.value;
      |file| == 1 + |rows| && file[0] == ReportHeaders
      && forall i :: 0 <= i < |rows| ==> file[i + 1] == ReportCells(rows[i])
  {
    ReportCsvRows(path, rows, mk, cr);
    ReportRowsCells(rows);
  }

  lemma ReportRowsCells(rows: seq<ReportResponse>)
    ensures var file := [ReportHeaders] + Rows(ReportResponseType.fields, seq(10, i => i), rows);
      |file| == 1 + |rows| && file[0] == ReportHeaders
      && forall i :: 0 <= i < |rows| ==> file[i + 1] == ReportCells(rows[i])
  {
    var file := [ReportHeaders] + Rows(ReportResponseType.fields, seq(10, i => i), rows);
    forall i | 0 <= i < |rows|
      ensures file[i + 1] == ReportCells(rows[i])
    {
      assert file[i + 1] == CsvRow(ReportResponseType.fields, seq(10, i => i), rows[i]);
      ReportRowCells(rows[i]);
    }
  }

  lemma ReportCsvRows(path: string, rows: seq<ReportResponse>, mk: set<string>, cr: set<string>)
    requires WriteCsvSpec(path, ReportResponseType, rows, mk, cr).file.Some?
    ensures WriteCsvSpec(path, ReportResponseType, rows, mk, cr).file.value
         == [ReportHeaders] + Rows(ReportResponseType.fields, seq(10, i => i), rows)
  {
    var fields := ReportResponseType.fields;
    ReportTags();
    ReportMetadata();
    assert IsExportTag(fields[0].csvTag);
    WriteCsvContents(path, fields, rows, mk, cr);
  }

  lemma ReportSpecWritten<R>(decoded: Result<seq<R>, Error>, project: R -> ReportResponse, getwd: Option<string>,
                             walletAddress: string, c: Category, mk: set<string>, cr: set<string>)
    requires ReportSpec(decoded, project, getwd, walletAddress, c, mk, cr).written.Some?
    ensures decoded.Ok? && getwd.Some? && |decoded.value| > 0
    ensures ReportSpec(decoded, project, getwd, walletAddress, c, mk, cr).written.value ==
      (ReportPath(getwd.value, walletAddress, c),
       WriteCsvSpec(ReportPath(getwd.value, walletAddress, c), ReportResponseType, MapRows(decoded.value, project), mk, cr).file.value)
  {
  }

  /** A report row, written through the ReportResponse metadata, is its ten fields' text. */
  lemma ReportRowCells(r: ReportResponse)
    ensures CsvRow(ReportResponseType.fields, seq(10, i => i), r) == ReportCells(r)
  {
    ReportFieldsAreText(r);
  }

  /** A report task succeeds exactly when decoding succeeds and the list is empty or is fully written. */
  lemma ReportOutcome<R>(decoded: Result<seq<R>, Error>, project: R -> ReportResponse, getwd: Option<string>,
                         walletAddress: string, c: Category, mk: set<string>, cr: set<string>)
    ensures var e := ReportSpec(decoded, project, getwd, walletAddress, c, mk, cr);
      (e.err.None? <==>
         (decoded.Ok? && (|decoded.value| == 0
           || (getwd.Some? && Dir(ReportPath(getwd.value, walletAddress, c)) !in mk
               && ReportPath(getwd.value, walletAddress, c) !in cr))))
      && (decoded.Ok? && |decoded.value| == 0 ==> e == TaskEffect(None, None))
      && (e.err.None? && decoded.Ok? && |decoded.value| > 0 ==> e.written.Some?)
  {
    if decoded.Ok? && |decoded.value| > 0 && getwd.Some? {
      ReportMetadata();
      var path := ReportPath(getwd.value, walletAddress, c);
      WriteCsvSucceeds(path, ReportResponseType, MapRows(decoded.value, project), mk, cr);
      assert IsExportTag(ReportResponseType.fields[0].csvTag);
    }
  }

  // ---------------------------------------------------------------------------
  // GenerateReports

  /** The report a category's tag selects, on the category's own decoder and projection. */
  function CategorySpec(env: Env, c: Category, result: RawMessage, walletAddress: string,
                        mk: set<string>, cr: set<string>): TaskEffect
  {
    match c
    case External => ReportSpec(env.decodeExternal(result), ExternalRow, env.getwd, walletAddress, External, mk, cr)
    case Internal => ReportSpec(env.decodeInternal(result), InternalRow, env.getwd, walletAddress, Internal, mk, cr)
    case Erc20 => ReportSpec(env.decodeErc20(result), Erc20Row, env.getwd, walletAddress, Erc20, mk, cr)
    case Erc721 => ReportSpec(env.decodeErc721(result), Erc721Row, env.getwd, walletAddress, Erc721, mk, cr)
  }

  /** The switch on the tag: a tag of no category leaves err nil and does nothing. */
  function DispatchSpec(env: Env, result: RawMessage, walletAddress: string, tag: string,
                        mk: set<string>, cr: set<string>): TaskEffect
  {
    match CategoryOfTag(tag)
    case None => TaskEffect(None, None)
    case Some(c) => CategorySpec(env, c, result, walletAddress, mk, cr)
  }

  /** GenerateReports: build the URL, fetch, decode the envelope, then dispatch on the tag. */
  function GenerateReportsSpec(p: DataProvider, env: Env, walletAddress: string, action: string, tag: string,
                               mk: set<string>, cr: set<string>): (e: TaskEffect)
    ensures var url := RequestURL(p.etherscan.baseURL, QuerySpec(p.etherscan, action, walletAddress));
      e.written.Some? ==> env.fetch(url).Ok? && env.decodeEnvelope(env.fetch(url).value).Ok?
  {
    var url := RequestURL(p.etherscan.baseURL, QuerySpec(p.etherscan, action, walletAddress));
    var (res, fetchErr) := FetchTransactionData(env.fetch(url));
    if fetchErr.Some? then TaskEffect(fetchErr, None)
    else match env.decodeEnvelope(res)
      case Err(e) => TaskEffect(Some(e), None)
      case Ok(resp) => DispatchSpec(env, resp.result, walletAddress, tag, mk, cr)
  }

  method GenerateReports(store: FileStore, p: DataProvider, env: Env, walletAddress: string, action: string, tag: string)
    returns (err: Option<Error>)
    modifies store
    ensures var e := GenerateReportsSpec(p, env, walletAddress, action, tag, store.mkdirDenied, store.createDenied);
      err == e.err && store.files == ApplyEffect(old(store.files), e)
  {
    var url := Etherscan.BuildRequestURL(p.etherscan, action, walletAddress);
    var (res, fetchErr) := FetchTransactionData(env.fetch(url));
    if fetchErr.Some? {
      return fetchErr;
    }
    var resp := env.decodeEnvelope(res);
    if resp.Err? {
      return Some(resp.error);
    }
    var result := resp.value.result;
    if tag == Constants.ExternalReport {
      err := ExternalReport(store, env, result, walletAddress);
    } else if tag == Constants.InternalReport {
      err := InternalReport(store, env, result, walletAddress);
    } else if tag == Constants.Erc20Report {
      err := Erc20Report(store, env, result, walletAddress);
    } else if tag == Constants.Erc721Report {
      err := Erc721Report(store, env, result, walletAddress);
    } else {
      err := None;
    }
  }

  /** The envelope's status and message never matter: only its result payload reaches the report. */
  lemma EnvelopeStatusIgnored(p: DataProvider, env: Env, walletAddress: string, action: string, tag: string,
                              mk: set<string>, cr: set<string>, body: string, resp: EtherscanBaseResponse)
    requires env.fetch(RequestURL(p.etherscan.baseURL, QuerySpec(p.etherscan, action, walletAddress))) == Ok(body)
    requires env.decodeEnvelope(body) == Ok(resp)
    ensures GenerateReportsSpec(p, env, walletAddress, action, tag, mk, cr)
         == DispatchSpec(env, resp.result, walletAddress, tag, mk, cr)
  {
  }

  /** A tag of no category succeeds without writing anything once the fetch and the envelope succeed. */
  lemma UnmatchedTagDoesNothing(p: DataProvider, env: Env, walletAddress: string, action: string, tag: string,
                                mk: set<string>, cr: set<string>)
    requires forall c :: Tag(c) != tag
    ensures GenerateReportsSpec(p, env, walletAddress, action, tag, mk, cr).written.None?
    ensures var url := RequestURL(p.etherscan.baseURL, QuerySpec(p.etherscan, action, walletAddress));
      env.fetch(url).Ok? && env.decodeEnvelope(env.fetch(url).value).Ok? ==>
        GenerateReportsSpec(p, env, walletAddress, action, tag, mk, cr) == TaskEffect(None, None)
  {
  }

  /** Each category's tag selects that category's report. */
  lemma TagSelectsCategory(env: Env, result: RawMessage, walletAddress: string, c: Category, mk: set<string>, cr: set<string>)
    ensures DispatchSpec(env, result, walletAddress, Tag(c), mk, cr) == CategorySpec(env, c, result, walletAddress, mk, cr)
  {
    TagsDistinct(c, CategoryOfTag(Tag(c)).value);
  }

  /** A task can only write the file its category names, under the working directory. */
  lemma WrittenPath(p: DataProvider, env: Env, walletAddress: string, action: string, tag: string,
                    mk: set<string>, cr: set<string>)
    requires GenerateReportsSpec(p, env, walletAddress, action, tag, mk, cr).written.Some?
    ensures CategoryOfTag(tag).Some? && env.getwd.Some?
    ensures GenerateReportsSpec(p, env, walletAddress, action, tag, mk, cr).written.value.0
         == ReportPath(env.getwd.value, walletAddress, CategoryOfTag(tag).value)
  {
    var url := RequestURL(p.etherscan.baseURL, QuerySpec(p.etherscan, action, walletAddress));
    var resp := env.decodeEnvelope(env.fetch(url).value).value;
    var c := CategoryOfTag(tag).value;
    var result := resp.result;
    match c
    case External => ReportSpecWritten(env.decodeExternal(result), ExternalRow, env.getwd, walletAddress, External, mk, cr);
    case Internal => ReportSpecWritten(env.decodeInternal(result), InternalRow, env.getwd, walletAddress, Internal, mk, cr);
    case Erc20 => ReportSpecWritten(env.decodeErc20(result), Erc20Row, env.getwd, walletAddress, Erc20, mk, cr);
    case Erc721 => ReportSpecWritten(env.decodeErc721(result), Erc721Row, env.getwd, walletAddress, Erc721, mk, cr);
  }

  // ---------------------------------------------------------------------------
  // GenerateTransactionReports

  /** The category tags, each with the action that fetches it. */
  const ActionTagMap: map<string, string> :=
    map[Constants.ExternalReport := ExternalReportAction, Constants.InternalReport := InternalReportAction,
        Constants.Erc20Report := Erc20ReportAction, Constants.Erc721Report := Erc721ReportAction]

  const TaskKeys: seq<string> := [Constants.ExternalReport, Constants.InternalReport, Constants.Erc20Report, Constants.Erc721Report]

  /** The map pairs every category's tag with its action, and holds nothing else. */
  lemma ActionTagMapIsCategories()
    ensures forall c :: Tag(c) in ActionTagMap && ActionTagMap[Tag(c)] == Action(c)
    ensures forall k :: k in ActionTagMap <==> k in TaskKeys
    ensures forall k :: k in ActionTagMap ==> CategoryOfTag(k).Some?
    ensures |TaskKeys| == 4 && forall i, j :: 0 <= i < j < 4 ==> TaskKeys[i] != TaskKeys[j]
  {
  }

  /** A completion order of the four tasks: each key of the map exactly once. */
  predicate IsSchedule(order: seq<string>)
  {
    multiset(order) == multiset(TaskKeys)
  }

  lemma ScheduleKeys(order: seq<string>)
    requires IsSchedule(order)
    ensures forall i :: 0 <= i < |order| ==> order[i] in ActionTagMap
    ensures forall k :: k in ActionTagMap <==> k in order
    ensures forall i, j :: 0 <= i < j < |order| ==> order[i] != order[j]
  {
    ActionTagMapIsCategories();
    forall i | 0 <= i < |order|
      ensures order[i] in ActionTagMap
    {
      assert order[i] in multiset(order);
    }
    forall k | k in ActionTagMap
      ensures k in order
    {
      assert k in multiset(TaskKeys);
    }
    forall i, j | 0 <= i < j < |order|
      ensures order[i] != order[j]
    {
      RepeatCounts(order, i, j);
      TaskKeysOnce(order[i]);
    }
  }

  lemma TaskKeysOnce(k: string)
    ensures multiset(TaskKeys)[k] <= 1
  {
    ActionTagMapIsCategories();
  }

  /** An element at two positions occurs at least twice. */
  lemma RepeatCounts<T>(s: seq<T>, i: nat, j: nat)
    requires i < j < |s|
    ensures s[i] == s[j] ==> multiset(s)[s[i]] >= 2
  {
    assert s == s[..i] + [s[i]] + s[i + 1..j] + [s[j]] + s[j + 1..];
  }

  /** The task for one key: GenerateReports with the key's action and the key as the tag. */
  function TaskSpec(p: DataProvider, env: Env, walletAddress: string, key: string, mk: set<string>, cr: set<string>): TaskEffect
    requires key in ActionTagMap
  {
    GenerateReportsSpec(p, env, walletAddress, ActionTagMap[key], key, mk, cr)
  }

  /** The tasks of one run, by key; a key outside the map starts no task. */
  function Tasks(p: DataProvider, env: Env, walletAddress: string, mk: set<string>, cr: set<string>): string -> TaskEffect
  {
    k => if k in ActionTagMap then TaskSpec(p, env, walletAddress, k, mk, cr) else TaskEffect(None, None)
  }

  /** The channel's contents after the tasks in `order` finished: each failure wrapped with its key. */
  function ChannelErrors(task: string -> TaskEffect, order: seq<string>): (errs: seq<Error>)
    ensures |errs| <= |order|
    ensures forall i :: 0 <= i < |errs| ==> errs[i].ReportFailed? && errs[i].key in order
  {
    if order == [] then []
    else
      var last := order[|order| - 1];
      var rest := ChannelErrors(task, order[..|order| - 1]);
      if task(last).err.Some? then rest + [ReportFailed(last, task(last).err.value)] else rest
  }

  /** The files after the tasks in `order` ran one after another. */
  function RunFiles(files: map<string, seq<seq<string>>>, task: string -> TaskEffect, order: seq<string>)
    : (r: map<string, seq<seq<string>>>)
    ensures files.Keys <= r.Keys
  {
    if order == [] then files
    else ApplyEffect(RunFiles(files, task, order[..|order| - 1]), task(order[|order| - 1]))
  }

  /** The draining loop: the first error received is kept, later ones are read and dropped. */
  method FirstReceived(errChan: seq<Error>) returns (firstError: Option<Error>)
    ensures errChan == [] ==> firstError.None?
    ensures errChan != [] ==> firstError == Some(errChan[0])
  {
    firstError := None;
    for i := 0 to |errChan|
      invariant i == 0 ==> firstError.None?
      invariant i > 0 ==> firstError == Some(errChan[0])
    {
      if firstError.None? {
        firstError := Some(errChan[i]);
      }
    }
  }

  /** How a run ends: returning an error or nil, or the panic of calling through a nil provider. */
  datatype RunOutcome = Completed(err: Option<Error>) | NilProviderPanic

  /** GenerateTransactionReports with the tasks completing in `order`: its outcome and the files it leaves. */
  function RunSpec(providerType: string, config: Config, env: Env, order: seq<string>,
                   files: map<string, seq<seq<string>>>, mk: set<string>, cr: set<string>)
    : (r: (RunOutcome, map<string, seq<seq<string>>>))
    ensures r.0.NilProviderPanic? || NewDataProvider(providerType, config).1.Some? ==> r.1 == files
  {
    var (provider, err) := NewDataProvider(providerType, config);
    if err.Some? then (Completed(err), files)
    else if provider.None? then (NilProviderPanic, files)
    else
      var task := Tasks(provider.value, env, config.walletAddress, mk, cr);
      var errs := ChannelErrors(task, order);
      (Completed(if errs == [] then None else Some(errs[0])), RunFiles(files, task, order))
  }

  method GenerateTransactionReports(store: FileStore, providerType: string, config: Config, env: Env, order: seq<string>)
    returns (outcome: RunOutcome)
    requires IsSchedule(order)
    modifies store
    ensures var r := RunSpec(providerType, config, env, order, old(store.files), store.mkdirDenied, store.createDenied);
      outcome == r.0 && store.files == r.1
  {
    ScheduleKeys(order);
    var (dataProvider, err) := NewDataProvider(providerType, config);
    if err.Some? {
      return Completed(err);
    }
    if dataProvider.None? {
      return NilProviderPanic;
    }
    var provider := dataProvider.value;
    RunSpecOfProvider(providerType, config, env, order, old(store.files), store.mkdirDenied, store.createDenied);
    var errChan := RunTasks(store, provider, env, config.walletAddress, order);
    var firstError := FirstReceived(errChan);
    outcome := Completed(firstError);
  }

  /** The four tasks, one after another in `order`, each sending its error, wrapped with its key, to the channel. */
  method RunTasks(store: FileStore, provider: DataProvider, env: Env, walletAddress: string, order: seq<string>)
    returns (errChan: seq<Error>)
    requires forall i :: 0 <= i < |order| ==> order[i] in ActionTagMap
    modifies store
    ensures var task := Tasks(provider, env, walletAddress, store.mkdirDenied, store.createDenied);
      errChan == ChannelErrors(task, order) && store.files == RunFiles(old(store.files), task, order)
  {
    ghost var task := Tasks(provider, env, walletAddress, store.mkdirDenied, store.createDenied);
    errChan := [];
    var i := 0;
    while i < |order|
      invariant 0 <= i <= |order|
      invariant errChan == ChannelErrors(task, order[..i])
      invariant store.files == RunFiles(old(store.files), task, order[..i])
    {
      var k := order[i];
      RunStep(old(store.files), task, order, i);
      TaskOfKey(provider, env, walletAddress, store.mkdirDenied, store.createDenied, k);
      ghost var effect := task(k);
      ghost var before := store.files;
      var taskErr := GenerateReports(store, provider, env, walletAddress, ActionTagMap[k], k);
      assert taskErr == effect.err && store.files == ApplyEffect(before, effect);
      if taskErr.Some? {
        errChan := errChan + [ReportFailed(k, taskErr.value)];
      }
      i := i + 1;
    }
    assert order[..|order|] == order;
  }

  /** One more task of the order: its error joins the channel and its file is written over the others. */
  lemma RunStep(files: map<string, seq<seq<string>>>, task: string -> TaskEffect, order: seq<string>, i: nat)
    requires i < |order|
    ensures var k := order[i];
      ChannelErrors(task, order[..i + 1])
        == ChannelErrors(task, order[..i]) + (if task(k).err.Some? then [ReportFailed(k, task(k).err.value)] else [])
      && RunFiles(files, task, order[..i + 1]) == ApplyEffect(RunFiles(files, task, order[..i]), task(k))
  {
    assert order[..i + 1][..i] == order[..i];
    var k := order[i];
    if task(k).err.None? {
      assert ChannelErrors(task, order[..i]) + [] == ChannelErrors(task, order[..i]);
    }
  }

  lemma TaskOfKey(p: DataProvider, env: Env, walletAddress: string, mk: set<string>, cr: set<string>, k: string)
    requires k in ActionTagMap
    ensures Tasks(p, env, walletAddress, mk, cr)(k) == GenerateReportsSpec(p, env, walletAddress, ActionTagMap[k], k, mk, cr)
  {
  }

  /** With a provider in hand, the outcome is the first channel error and the files are the tasks' writes. */
  lemma RunSpecOfProvider(providerType: string, config: Config, env: Env, order: seq<string>,
                          files: map<string, seq<seq<string>>>, mk: set<string>, cr: set<string>)
    requires NewDataProvider(providerType, config).0.Some?
    ensures var task := Tasks(NewDataProvider(providerType, config).0.value, env, config.walletAddress, mk, cr);
      var errs := ChannelErrors(task, order);
      RunSpec(providerType, config, env, order, files, mk, cr)
        == (Completed(if errs == [] then None else Some(errs[0])), RunFiles(files, task, order))
  {
  }

  // ---------------------------------------------------------------------------
  // The channel and the files, for any tasks

  predicate Distinct(order: seq<string>)
  {
    forall i, j :: 0 <= i < j < |order| ==> order[i] != order[j]
  }

  /** Tasks whose keys differ never write the same file. */
  ghost predicate PathsApart(task: string -> TaskEffect)
  {
    forall k1, k2 :: k1 != k2 && task(k1).written.Some? && task(k2).written.Some?
      ==> task(k1).written.value.0 != task(k2).written.value.0
  }

  /** No error reaches the channel exactly when every task in the order succeeded. */
  lemma {:induction false} ChannelErrorsEmpty(task: string -> TaskEffect, order: seq<string>)
    ensures ChannelErrors(task, order) == [] <==> forall i :: 0 <= i < |order| ==> task(order[i]).err.None?
  {
    if order != [] {
      var init := order[..|order| - 1];
      ChannelErrorsEmpty(task, init);
      assert forall i :: 0 <= i < |init| ==> init[i] == order[i];
    }
  }

  /** The first error on the channel is the wrapped error of the first task in the order that failed. */
  lemma {:induction false} ChannelErrorsFirst(task: string -> TaskEffect, order: seq<string>)
    requires ChannelErrors(task, order) != []
    ensures exists i :: (0 <= i < |order| && task(order[i]).err.Some?
      && ChannelErrors(task, order)[0] == ReportFailed(order[i], task(order[i]).err.value)
      && forall j :: 0 <= j < i ==> task(order[j]).err.None?)
  {
    var init := order[..|order| - 1];
    assert forall i :: 0 <= i < |init| ==> init[i] == order[i];
    if ChannelErrors(task, init) != [] {
      ChannelErrorsFirst(task, init);
      var i :| 0 <= i < |init| && task(init[i]).err.Some?
        && ChannelErrors(task, init)[0] == ReportFailed(init[i], task(init[i]).err.value)
        && forall j :: 0 <= j < i ==> task(init[j]).err.None?;
      assert ChannelErrors(task, order)[0] == ChannelErrors(task, init)[0];
    } else {
      ChannelErrorsEmpty(task, init);
    }
  }

  /** A task's file survives the tasks after it: each report is kept whatever its siblings do. */
  lemma {:induction false} RunFilesWritten(files: map<string, seq<seq<string>>>, task: string -> TaskEffect,
                                           order: seq<string>, i: nat)
    requires PathsApart(task) && Distinct(order) && i < |order| && task(order[i]).written.Some?
    ensures var w := task(order[i]).written.value;
      w.0 in RunFiles(files, task, order) && RunFiles(files, task, order)[w.0] == w.1
  {
    var last := |order| - 1;
    if i < last {
      var init := order[..last];
      assert init[i] == order[i];
      assert forall a :: 0 <= a < |init| ==> init[a] == order[a];
      RunFilesWritten(files, task, init, i);
    }
  }

  /** A file no task in the order writes is left as it was. */
  lemma {:induction false} RunFilesUntouched(files: map<string, seq<seq<string>>>, task: string -> TaskEffect,
                                             order: seq<string>, path: string)
    requires forall i :: 0 <= i < |order| && task(order[i]).written.Some? ==> task(order[i]).written.value.0 != path
    ensures path in RunFiles(files, task, order) <==> path in files
    ensures path in files ==> RunFiles(files, task, order)[path] == files[path]
  {
    if order != [] {
      var init := order[..|order| - 1];
      assert forall a :: 0 <= a < |init| ==> init[a] == order[a];
      RunFilesUntouched(files, task, init, path);
    }
  }

  /** One path after two orders of the same tasks: present in both or neither, with the same content. */
  lemma RunFilesSamePath(files: map<string, seq<seq<string>>>, task: string -> TaskEffect,
                         o1: seq<string>, o2: seq<string>, path: string)
    requires PathsApart(task) && Distinct(o1) && Distinct(o2) && forall k :: k in o1 <==> k in o2
    ensures var m1, m2 := RunFiles(files, task, o1), RunFiles(files, task, o2);
      (path in m1 <==> path in m2) && (path in m1 ==> m1[path] == m2[path])
  {
    if i1 :| 0 <= i1 < |o1| && task(o1[i1]).written.Some? && task(o1[i1]).written.value.0 == path {
      assert o1[i1] in o2;
      var i2 :| 0 <= i2 < |o2| && o2[i2] == o1[i1];
      RunFilesWritten(files, task, o1, i1);
      RunFilesWritten(files, task, o2, i2);
    } else {
      forall i | 0 <= i < |o2| && task(o2[i]).written.Some?
        ensures task(o2[i]).written.value.0 != path
      {
        assert o2[i] in o1;
      }
      RunFilesUntouched(files, task, o1, path);
      RunFilesUntouched(files, task, o2, path);
    }
  }

  /** The files left do not depend on the order in which the tasks complete. */
  lemma RunFilesOrderIrrelevant(files: map<string, seq<seq<string>>>, task: string -> TaskEffect,
                                o1: seq<string>, o2: seq<string>)
    requires PathsApart(task) && Distinct(o1) && Distinct(o2) && forall k :: k in o1 <==> k in o2
    ensures RunFiles(files, task, o1) == RunFiles(files, task, o2)
  {
    var m1, m2 := RunFiles(files, task, o1), RunFiles(files, task, o2);
    forall path
      ensures (path in m1 <==> path in m2) && (path in m1 ==> m1[path] == m2[path])
    {
      RunFilesSamePath(files, task, o1, o2, path);
    }
  }

  // ---------------------------------------------------------------------------
  // What a run promises

  /** The four report tasks write four different files. */
  lemma TasksApart(p: DataProvider, env: Env, walletAddress: string, mk: set<string>, cr: set<string>)
    ensures PathsApart(Tasks(p, env, walletAddress, mk, cr))
  {
    var task := Tasks(p, env, walletAddress, mk, cr);
    forall k1, k2 | k1 != k2 && task(k1).written.Some? && task(k2).written.Some?
      ensures task(k1).written.value.0 != task(k2).written.value.0
    {
      WrittenPathsDistinct(p, env, walletAddress, k1, k2, mk, cr);
    }
  }

  /** Two different keys never write the same file. */
  lemma WrittenPathsDistinct(p: DataProvider, env: Env, walletAddress: string, k1: string, k2: string,
                             mk: set<string>, cr: set<string>)
    requires k1 in ActionTagMap && k2 in ActionTagMap && k1 != k2
    requires TaskSpec(p, env, walletAddress, k1, mk, cr).written.Some?
    requires TaskSpec(p, env, walletAddress, k2, mk, cr).written.Some?
    ensures TaskSpec(p, env, walletAddress, k1, mk, cr).written.value.0
         != TaskSpec(p, env, walletAddress, k2, mk, cr).written.value.0
  {
    WrittenPath(p, env, walletAddress, ActionTagMap[k1], k1, mk, cr);
    WrittenPath(p, env, walletAddress, ActionTagMap[k2], k2, mk, cr);
    var c1, c2 := CategoryOfTag(k1).value, CategoryOfTag(k2).value;
    ReportPathsDistinct(env.getwd.value, walletAddress, c1, c2);
  }

  /**
   * A run returns nil exactly when the factory yields a provider and all four
   * tasks succeed, whatever order they complete in.
   */
  lemma RunSucceeds(providerType: string, config: Config, env: Env, order: seq<string>,
                    files: map<string, seq<seq<string>>>, mk: set<string>, cr: set<string>)
    requires IsSchedule(order)
    ensures RunSpec(providerType, config, env, order, files, mk, cr).0 == Completed(None)
        <==> NewDataProvider(providerType, config).0.Some?
             && forall k :: k in ActionTagMap ==>
                  Tasks(NewDataProvider(providerType, config).0.value, env, config.walletAddress, mk, cr)(k).err.None?
  {
    ScheduleKeys(order);
    var (provider, err) := NewDataProvider(providerType, config);
    if provider.Some? {
      RunSpecOfProvider(providerType, config, env, order, files, mk, cr);
      var task := Tasks(provider.value, env, config.walletAddress, mk, cr);
      ChannelErrorsEmpty(task, order);
      OrderCovers(task, order, ActionTagMap.Keys);
    }
  }

  /** An order holding exactly the given keys: all its tasks succeed iff every key's task does. */
  lemma OrderCovers(task: string -> TaskEffect, order: seq<string>, keys: set<string>)
    requires forall k :: k in keys <==> k in order
    ensures (forall i :: 0 <= i < |order| ==> task(order[i]).err.None?)
        <==> (forall k :: k in keys ==> task(k).err.None?)
  {
    if forall i :: 0 <= i < |order| ==> task(order[i]).err.None? {
      forall k | k in keys
        ensures task(k).err.None?
      {
        var i :| 0 <= i < |order| && order[i] == k;
      }
    }
  }

  /**
   * A run that returns an error returns the factory's error, before any task
   * ran and with no file touched, or the wrapped error of the first task in
   * the order to report one.
   */
  lemma RunError(providerType: string, config: Config, env: Env, order: seq<string>,
                 files: map<string, seq<seq<string>>>, mk: set<string>, cr: set<string>, e: Error)
    ensures RunSpec(providerType, config, env, order, files, mk, cr).0 == Completed(Some(e)) ==>
      (NewDataProvider(providerType, config).1 == Some(e) && e == UnknownProvider(providerType)
       && RunSpec(providerType, config, env, order, files, mk, cr).1 == files)
      || (NewDataProvider(providerType, config).0.Some?
          && exists i :: (0 <= i < |order|
               && var task := Tasks(NewDataProvider(providerType, config).0.value, env, config.walletAddress, mk, cr);
               task(order[i]).err.Some? && e == ReportFailed(order[i], task(order[i]).err.value)
               && forall j :: 0 <= j < i ==> task(order[j]).err.None?))
  {
    NewDataProviderUnknown(providerType, config);
    var (provider, err) := NewDataProvider(providerType, config);
    if provider.Some? {
      RunSpecOfProvider(providerType, config, env, order, files, mk, cr);
      var task := Tasks(provider.value, env, config.walletAddress, mk, cr);
      if ChannelErrors(task, order) != [] {
        ChannelErrorsFirst(task, order);
      }
    }
  }

  /** Any casing of "blockscout" ends the run in the nil-provider panic, with no file written. */
  lemma BlockscoutRunPanics(providerType: string, config: Config, env: Env, order: seq<string>,
                            files: map<string, seq<seq<string>>>, mk: set<string>, cr: set<string>)
    requires IsCasingOf(providerType, ProviderBlockscout)
    ensures RunSpec(providerType, config, env, order, files, mk, cr) == (NilProviderPanic, files)
  {
    NewDataProviderBlockscout(providerType, config);
  }

  /**
   * Each report a task writes is in place when the run ends, even when a
   * sibling task failed: the tasks share nothing but the error channel.
   */
  lemma RunKeepsEachReport(providerType: string, config: Config, env: Env, order: seq<string>,
                           files: map<string, seq<seq<string>>>, mk: set<string>, cr: set<string>, key: string)
    requires IsSchedule(order) && key in ActionTagMap
    requires NewDataProvider(providerType, config).0.Some?
    requires TaskSpec(NewDataProvider(providerType, config).0.value, env, config.walletAddress, key, mk, cr).written.Some?
    ensures var w := TaskSpec(NewDataProvider(providerType, config).0.value, env, config.walletAddress, key, mk, cr).written.value;
      var after := RunSpec(providerType, config, env, order, files, mk, cr).1;
      w.0 in after && after[w.0] == w.1
  {
    ScheduleKeys(order);
    var p := NewDataProvider(providerType, config).0.value;
    var task := Tasks(p, env, config.walletAddress, mk, cr);
    TasksApart(p, env, config.walletAddress, mk, cr);
    var i :| 0 <= i < |order| && order[i] == key;
    RunSpecOfProvider(providerType, config, env, order, files, mk, cr);
    RunFilesWritten(files, task, order, i);
  }

  /** Two completion orders of the same run leave the same files. */
  lemma RunOrderKeepsFiles(providerType: string, config: Config, env: Env, o1: seq<string>, o2: seq<string>,
                           files: map<string, seq<seq<string>>>, mk: set<string>, cr: set<string>)
    requires IsSchedule(o1) && IsSchedule(o2)
    ensures RunSpec(providerType, config, env, o1, files, mk, cr).1 == RunSpec(providerType, config, env, o2, files, mk, cr).1
  {
    var (provider, err) := NewDataProvider(providerType, config);
    if provider.Some? {
      ScheduleKeys(o1);
      ScheduleKeys(o2);
      RunSpecOfProvider(providerType, config, env, o1, files, mk, cr);
      RunSpecOfProvider(providerType, config, env, o2, files, mk, cr);
      TasksApart(provider.value, env, config.walletAddress, mk, cr);
      RunFilesOrderIrrelevant(files, Tasks(provider.value, env, config.walletAddress, mk, cr), o1, o2);
    }
  }

  /** Two completion orders of the same run both succeed or both fail. */
  lemma RunOrderKeepsSuccess(providerType: string, config: Config, env: Env, o1: seq<string>, o2: seq<string>,
                             files: map<string, seq<seq<string>>>, mk: set<string>, cr: set<string>)
    requires IsSchedule(o1) && IsSchedule(o2)
    ensures (RunSpec(providerType, config, env, o1, files, mk, cr).0 == Completed(None))
        == (RunSpec(providerType, config, env, o2, files, mk, cr).0 == Completed(None))
  {
    RunSucceeds(providerType, config, env, o1, files, mk, cr);
    RunSucceeds(providerType, config, env, o2, files, mk, cr);
  }
}
