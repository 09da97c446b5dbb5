/** What an axios call can come back with, taken as an input of the model:
    a 2xx response body, or an `AxiosError` with or without a response. */
module Transport {
  import opened Wrappers
  import opened JsValue

  datatype HttpResponse = HttpResponse(status: int, data: Value)

  datatype AxiosError = AxiosError(response: Option<HttpResponse>, message: string)

  datatype Reply = Ok(data: Value) | Rejected(error: AxiosError)

  /** An error caught by a client's `catch (error: any)`: one raised by
      axios, or a plain `Error` the client threw itself. */
  datatype Cause = AxiosFailure(error: AxiosError) | Raised(message: string)

  function ResponseData(c: Cause): (v: Value)
    ensures c.Raised? ==> v == Undefined
  {
    match c
    case AxiosFailure(AxiosError(Some(r), _)) => r.data
    case _ => Undefined
  }

  function CauseMessage(c: Cause): string {
    match c
    case AxiosFailure(e) => e.message
    case Raised(m) => m
  }

  /** `error.response?.data?.message || error.response?.data?.detail?.[0]?.msg
      || error.message`: the detail both extraction clients report. */
  function CaughtDetail(c: Cause): (d: string)
    ensures TextOf(Get(ResponseData(c), "message")).Some? ==>
              d == TextOf(Get(ResponseData(c), "message")).value
    ensures TextOf(Get(ResponseData(c), "message")).None?
              && TextOf(Chain(ResponseData(c), [Key("detail"), Index(0), Key("msg")])).Some? ==>
              d == TextOf(Chain(ResponseData(c), [Key("detail"), Index(0), Key("msg")])).value
    ensures c.Raised? ==> d == c.message
    ensures c.AxiosFailure? && c.error.response.None? ==> d == c.error.message
  {
    var data := ResponseData(c);
    TextOr(Get(data, "message"),
      TextOr(Chain(data, [Key("detail"), Index(0), Key("msg")]), CauseMessage(c)))
  }
}
