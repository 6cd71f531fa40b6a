/** The records of models/jd_result.py that the modelled services build. */
module JdResult {
  import opened Wrappers

  /** `ExtractionStatus`, a string enumeration. */
  datatype ExtractionStatus = Success | Partial | Failed

  /** The string each status stands for. */
  function StatusValue(s: ExtractionStatus): string {
    match s
    case Success => "success"
    case Partial => "partial"
    case Failed => "failed"
  }

  /** `JDExtractionResult`; every field defaults to `None`. The timestamp field, never set by the modelled code, is left out. */
  datatype JDExtractionResult = JDExtractionResult(
    billRate: Option<string>,
    duration: Option<string>,
    experienceRequired: Option<string>,
    gbamsRgsId: Option<string>,
    aiLocation: Option<string>,
    skills: Option<seq<string>>,
    roleDescription: Option<string>,
    mspOwner: Option<string>,
    aiModelUsed: Option<string>,
    aiExtractionStatus: Option<ExtractionStatus>)

  /** `JDExtractionResult()` with every field at its default. */
  function EmptyResult(): JDExtractionResult {
    JDExtractionResult(None, None, None, None, None, None, None, None, None, None)
  }

  /** `ExcelJDRow`: one extracted row of a spreadsheet. */
  datatype ExcelJDRow = ExcelJDRow(rowIndex: int, originalJd: string, extractedData: JDExtractionResult)

  /** `ExcelJDResponse`: the summary of a spreadsheet run. */
  datatype ExcelJDResponse = ExcelJDResponse(
    requestId: string,
    results: seq<ExcelJDRow>,
    totalProcessed: int,
    successCount: int,
    failureCount: int)

  /** `AIAuditLog`, without its clock-stamped `timestamp`. */
  datatype AIAuditLog = AIAuditLog(
    requestId: string,
    modelName: string,
    modelType: string,
    promptTokens: Option<int>,
    completionTokens: Option<int>,
    totalTokens: Option<int>,
    responseTimeMs: int,
    status: ExtractionStatus,
    errorMessage: Option<string>)
}
