/** FastAPI's `HTTPException`: a status code, a detail message and extra headers. */
module Http {
  import Text

  datatype HttpError = HttpError(status: nat, detail: string, headers: seq<(string, string)>)
  {
    /** `str(e)` of an `HTTPException`, which Starlette renders as "<status>: <detail>". */
    function Message(): string
    {
      Text.Decimal(status) + ": " + detail
    }
  }

  /** An error raised with no extra headers. */
  function Raise(status: nat, detail: string): HttpError
  {
    HttpError(status, detail, [])
  }
}
