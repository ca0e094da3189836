/** The errors the pipeline can return, one constructor per `fmt.Errorf` / library error it surfaces. */
module Errors {

  /** The cause carried by a strconv.NumError. */
  datatype NumError = ErrSyntax | ErrRange

  datatype Error =
    /** util.StringToInt: "invalid timestamp string format '<input>': <cause>" */
    | InvalidTimestamp(input: string, reason: NumError)
    /** util.WriteCSV, data non-empty and T not a struct */
    | NotStructSlice(kind: string)
    /** util.WriteCSV, data empty and the element type not a struct */
    | ElemNotStruct(kind: string)
    /** util.WriteCSV: os.MkdirAll failed for the parent directory */
    | MkdirFailed(dir: string)
    /** util.WriteCSV: os.Create failed */
    | CreateFailed(path: string)
    /** util.WriteCSV: records given but no field carries a csv tag */
    | NoTaggedFields
    /** util.GetCurrentWorkingDirectory: os.Getwd failed */
    | GetwdFailed
    /** thirdparty.NewDataProvider: the provider type matched no case */
    | UnknownProvider(providerType: string)
    /** an HTTP failure reported by the transport (opaque here) */
    | Transport(detail: string)
    /** a JSON decoding failure reported by encoding/json (opaque here) */
    | Decode(detail: string)
    /** usecase.GenerateTransactionReports: a task's error wrapped with its category key */
    | ReportFailed(key: string, cause: Error)
  {
    /** The prefix of the error text the source produces for the constructor, followed by its payload. */
    function Message(): string
    {
      match this
      case InvalidTimestamp(input, _) => "invalid timestamp string format '" + input + "'"
      case NotStructSlice(kind) => "input data must be a slice of structs, got " + kind
      case ElemNotStruct(kind) => "input data slice element is not a struct, got " + kind
      case MkdirFailed(dir) => "failed to create directory " + dir
      case CreateFailed(path) => "failed to create file " + path
      case NoTaggedFields => "data provided but no fields found with 'csv' tag"
      case GetwdFailed => "error getting current working directory"
      case UnknownProvider(p) => "unknown provider: " + p
      case Transport(d) => d
      case Decode(d) => d
      case ReportFailed(key, cause) => "report generation failed for key '" + key + "': " + cause.Message()
    }
  }
}
