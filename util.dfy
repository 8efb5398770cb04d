/**
 * The parts of the backend's util package that the workflow client relies on:
 * the error codes and error shapes it returns, and the run-correlation label key.
 * Message formatting is not modelled; an error carries its code, the identifiers
 * and its cause.
 */
module Util {

  /** The custom codes a failed cache lookup is classified into. */
  datatype CustomCode = CustomCodeNotFound | CustomCodeGeneric

  /** An error from the indexed cache; isNotFound is what util.IsNotFound reports of it. */
  datatype LookupError = LookupError(isNotFound: bool, cause: string)

  /** An error from a live list query against the cluster. */
  datatype ApiError = ApiError(cause: string)

  /** What Get can return as its error. */
  datatype GetError =
    | CustomError(code: CustomCode, namespace: string, name: string, lookupCause: LookupError)
    | InternalServerError(apiCause: ApiError, message: string)

  /** The label every sub-record of a run carries, with the run's id as its value. */
  const LabelKeyWorkflowRunId: string := "pipeline/runid"
}
