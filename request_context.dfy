/** The per-request Zuul context as the security filter uses it: response
    headers to add, whether the upstream response is sent, the response body,
    and the (possibly absent) servlet response whose content type can be set. */
module Zuul {
  import opened Dto

  type Header = (string, string)

  class ServletResponse {
    var contentType: Option<string>

    constructor ()
      ensures contentType == None
    {
      contentType := None;
    }

    method SetContentType(mediaType: string)
      modifies this
      ensures contentType == Some(mediaType)
    {
      contentType := Some(mediaType);
    }
  }

  /** What the filter can observe of a context; `contentType` is that of the
      servlet response, and `None` when there is no servlet response. */
  datatype ContextState = ContextState(
    headers: seq<Header>,
    sendZuulResponse: bool,
    body: Option<ResponseBody>,
    hasResponse: bool,
    contentType: Option<string>)

  class RequestContext {
    var zuulResponseHeaders: seq<Header>
    var sendZuulResponse: bool
    var responseBody: Option<ResponseBody>
    const response: ServletResponse?

    constructor (response: ServletResponse?)
      ensures zuulResponseHeaders == [] && sendZuulResponse && responseBody == None
      ensures this.response == response
    {
      zuulResponseHeaders := [];
      sendZuulResponse := true;
      responseBody := None;
      this.response := response;
    }

    function State(): ContextState
      reads this, response
    {
      ContextState(zuulResponseHeaders, sendZuulResponse, responseBody, response != null,
                   if response == null then None else response.contentType)
    }

    method AddZuulResponseHeader(name: string, value: string)
      modifies this`zuulResponseHeaders
      ensures zuulResponseHeaders == old(zuulResponseHeaders) + [(name, value)]
    {
      zuulResponseHeaders := zuulResponseHeaders + [(name, value)];
    }

    method SetSendZuulResponse(send: bool)
      modifies this`sendZuulResponse
      ensures sendZuulResponse == send
    {
      sendZuulResponse := send;
    }

    method SetResponseBody(body: ResponseBody)
      modifies this`responseBody
      ensures responseBody == Some(body)
    {
      responseBody := Some(body);
    }
  }
}
