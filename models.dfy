/**
 * The records of models/etherscan.go, models/report.go and models/config.go.
 * Every provider field is text: nothing is decoded numerically at this layer.
 */
module Models {

  import opened Reflect

  /** json.RawMessage: the undecoded `result` payload, decoded later once the category is known. */
  type RawMessage = string

  /** The outer envelope every provider response shares. */
  datatype EtherscanBaseResponse = EtherscanBaseResponse(status: string, message: string, result: RawMessage)

  /** One normal (external) transaction, as returned by the `txlist` action. */
  datatype ExternalTransaction = ExternalTransaction(
    blockNumber: string, timeStamp: string, hash: string, nonce: string, blockHash: string,
    transactionIndex: string, from: string, to: string, value: string, gas: string,
    gasPrice: string, isError: string, txReceiptStatus: string, input: string,
    contractAddress: string, cumulativeGasUsed: string, gasUsed: string,
    confirmations: string, methodId: string, functionName: string)

  /** One internal transaction, as returned by the `txlistinternal` action. */
  datatype InternalTransaction = InternalTransaction(
    blockNumber: string, timeStamp: string, hash: string, from: string, to: string,
    value: string, contractAddress: string, input: string, kind: string, gas: string,
    gasUsed: string, traceId: string, isError: string, errCode: string)

  /** One ERC-20 token transfer, as returned by the `tokentx` action. */
  datatype TokenTransaction = TokenTransaction(
    blockNumber: string, timeStamp: string, hash: string, nonce: string, blockHash: string,
    from: string, contractAddress: string, to: string, value: string, tokenName: string,
    tokenSymbol: string, tokenDecimal: string, transactionIndex: string, gas: string,
    gasPrice: string, gasUsed: string, cumulativeGasUsed: string, input: string,
    confirmations: string)

  /** One ERC-721 / ERC-1155 transfer, as returned by the `tokennfttx` action; it has no value field. */
  datatype NftTransaction = NftTransaction(
    blockNumber: string, timeStamp: string, hash: string, nonce: string, blockHash: string,
    from: string, contractAddress: string, to: string, tokenID: string, tokenName: string,
    tokenSymbol: string, tokenDecimal: string, transactionIndex: string, gas: string,
    gasPrice: string, gasUsed: string, cumulativeGasUsed: string, input: string,
    confirmations: string)

  /** The unified report row. */
  datatype ReportResponse = ReportResponse(
    transactionHash: string, dateTime: string, fromAddress: string, toAddress: string,
    transactionType: string, assetContractAddress: string, assetSymbolName: string,
    tokenID: string, valueAmount: string, gasFeeEth: string)

  /** The declaration of ReportResponse: its fields in order, with their csv tags. */
  const ReportResponseType: TypeDesc<ReportResponse> := Struct([
    StructField("TransactionHash", "Transaction Hash", (r: ReportResponse) => String(r.transactionHash)),
    StructField("DateTime", "Date Time", (r: ReportResponse) => String(r.dateTime)),
    StructField("FromAddress", "From Address", (r: ReportResponse) => String(r.fromAddress)),
    StructField("ToAddress", "To Address", (r: ReportResponse) => String(r.toAddress)),
    StructField("TransactionType", "Transaction Type", (r: ReportResponse) => String(r.transactionType)),
    StructField("AssetContractAddress", "Asset Contract Address", (r: ReportResponse) => String(r.assetContractAddress)),
    StructField("AssetSymbolName", "Asset Symbol Name", (r: ReportResponse) => String(r.assetSymbolName)),
    StructField("TokenID", "Token ID", (r: ReportResponse) => String(r.tokenID)),
    StructField("ValueAmount", "Value Amount", (r: ReportResponse) => String(r.valueAmount)),
    StructField("GasFeeEth", "Gas Fee (ETH)", (r: ReportResponse) => String(r.gasFeeEth))
  ])

  /** The text of every ReportResponse field, in declaration order. */
  function ReportCells(r: ReportResponse): seq<string>
  {
    [r.transactionHash, r.dateTime, r.fromAddress, r.toAddress, r.transactionType,
     r.assetContractAddress, r.assetSymbolName, r.tokenID, r.valueAmount, r.gasFeeEth]
  }

  /** Per-provider settings; `retries` is never read by the pipeline. */
  datatype ThirdPartyApiConfig = ThirdPartyApiConfig(baseURL: string, apiKey: string, retries: int)

  datatype Config = Config(etherscan: ThirdPartyApiConfig, blockscout: ThirdPartyApiConfig, walletAddress: string)

  /** Every ReportResponse field is a string field, so its value is its text. */
  lemma ReportFieldsAreText(r: ReportResponse)
    ensures |ReportResponseType.fields| == |ReportCells(r)| == 10
    ensures forall i :: 0 <= i < 10 ==> ReportResponseType.fields[i].get(r) == String(ReportCells(r)[i])
  {
  }
}
