/** The constants of shared/constants/constants.go and the category registry built from them. */
module Constants {

  import opened Wrappers

  const ProviderEtherscan: string := "etherscan"
  const ProviderBlockscout: string := "blockscout"

  const ExternalReport: string := "EXTERNAL_REPORT"
  const InternalReport: string := "INTERNAL_REPORT"
  const Erc20Report: string := "ERC20_REPORT"
  const Erc721Report: string := "ERC721_REPORT"

  const ExternalReportAction: string := "txlist"
  const InternalReportAction: string := "txlistinternal"
  const Erc20ReportAction: string := "tokentx"
  const Erc721ReportAction: string := "tokennfttx"

  const TransactionTypeEthTransfer: string := "ETH Transfer"
  const TransactionTypeInternalTransfer: string := "Internal"
  const TransactionTypeErc20Transfer: string := "ERC-20 Transfer"
  const TransactionTypeErc721Transfer: string := "ERC-721 Transfer"

  const TokenSymbolEth: string := "ETH"

  /** Go's reference-time layout for "YYYY-MM-DD HH:MM:SS". */
  const DateFormat: string := "2006-01-02 15:04:05"

  /** The four report categories. */
  datatype Category = External | Internal | Erc20 | Erc721

  /** Every category, in the order the source declares them. */
  const AllCategories: seq<Category> := [External, Internal, Erc20, Erc721]

  function Tag(c: Category): string
  {
    match c
    case External => ExternalReport
    case Internal => InternalReport
    case Erc20 => Erc20Report
    case Erc721 => Erc721Report
  }

  function Action(c: Category): string
  {
    match c
    case External => ExternalReportAction
    case Internal => InternalReportAction
    case Erc20 => Erc20ReportAction
    case Erc721 => Erc721ReportAction
  }

  function TypeLabel(c: Category): string
  {
    match c
    case External => TransactionTypeEthTransfer
    case Internal => TransactionTypeInternalTransfer
    case Erc20 => TransactionTypeErc20Transfer
    case Erc721 => TransactionTypeErc721Transfer
  }

  /** The category whose tag is `tag`, if any. */
  function CategoryOfTag(tag: string): (r: Option<Category>)
    ensures r.Some? ==> Tag(r.value) == tag
    ensures r.None? ==> forall c :: Tag(c) != tag
  {
    if tag == ExternalReport then Some(External)
    else if tag == InternalReport then Some(Internal)
    else if tag == Erc20Report then Some(Erc20)
    else if tag == Erc721Report then Some(Erc721)
    else None
  }

  /** Distinct categories have distinct tags. */
  lemma TagsDistinct(c: Category, d: Category)
    ensures Tag(c) == Tag(d) ==> c == d
  {
  }

  /** Distinct categories ask the provider for distinct actions. */
  lemma ActionsDistinct(c: Category, d: Category)
    ensures Action(c) == Action(d) ==> c == d
  {
  }

  /** Distinct categories carry distinct transaction-type labels. */
  lemma TypeLabelsDistinct(c: Category, d: Category)
    ensures TypeLabel(c) == TypeLabel(d) ==> c == d
  {
  }
}
