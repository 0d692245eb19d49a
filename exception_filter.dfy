/** The global exception filter (src/global-exception.filter.ts): an HTTP
    exception is answered with its own status and message; any other
    exception is reported by an alert e-mail and answered with status 500. */
module ExceptionFilter {
  import opened Wrappers
  import opened Strings

  const INTERNAL_SERVER_ERROR := 500
  const GENERIC_MESSAGE := "An error occurred"
  const API_ERROR_SUBJECT := "API Error"
  const STACK_TRACE_SUBJECT := "Error Stack Trace"

  /** The exceptions the filter tells apart. For a request-library error,
      `url` is the request's URL and `responseData` the JSON text of the
      response body, `None` when no response arrived. Other exceptions may
      lack a message or a stack (a thrown string has neither). */
  datatype Exception =
    | HttpException(status: int, message: string)
    | AxiosError(url: Option<string>, responseData: Option<string>)
    | OtherException(errorMessage: Option<string>, stack: Option<string>)

  /** What the filter does, in order: send an alert, answer the request,
      or itself throw a `TypeError` (reading the body of a missing
      response). */
  datatype FilterEffect = SendAlert(subject: string, text: string) | Respond(status: int, message: string) | TypeErrorThrown

  /** A template literal renders a missing value as "undefined". */
  function Render(v: Option<string>): (r: string)
    ensures v.Some? ==> r == v.value
  {
    match v
    case Some(s) => s
    case None => "undefined"
  }

  function ApiAlertText(url: Option<string>, data: string): string
  {
    "URL: " + Render(url) + "\n\n" + data
  }

  function StackAlertText(message: Option<string>, stack: Option<string>): string
  {
    "Error occurred: " + Render(message) + "\n\nStack Trace:\n" + Render(stack)
  }

  /** `catch`: the filter throws only on a request-library error without a
      response; otherwise it sends alerts, if any, and then answers the
      request once, last, an HTTP exception with its own status and
      message. */
  function Catch(e: Exception): (effects: seq<FilterEffect>)
    ensures effects == [TypeErrorThrown] <==> e.AxiosError? && e.responseData.None?
    ensures effects != [TypeErrorThrown] ==>
              && 0 < |effects| && effects[|effects| - 1].Respond?
              && forall k :: 0 <= k < |effects| - 1 ==> effects[k].SendAlert?
    ensures e.HttpException? ==> effects == [Respond(e.status, e.message)]
  {
    match e
    case HttpException(status, message) => [Respond(status, message)]
    case AxiosError(url, responseData) =>
      if responseData.None? then [TypeErrorThrown]
      else [SendAlert(API_ERROR_SUBJECT, ApiAlertText(url, responseData.value)),
            Respond(INTERNAL_SERVER_ERROR, GENERIC_MESSAGE)]
    case OtherException(message, stack) =>
      [SendAlert(STACK_TRACE_SUBJECT, StackAlertText(message, stack)), Respond(INTERNAL_SERVER_ERROR, GENERIC_MESSAGE)]
  }

  /** An HTTP exception keeps its status and message, and no alert is sent. */
  lemma HttpExceptionPassesThrough(status: int, message: string)
    ensures Catch(HttpException(status, message)) == [Respond(status, message)]
    ensures forall k :: 0 <= k < |Catch(HttpException(status, message))| ==>
              !Catch(HttpException(status, message))[k].SendAlert?
  {
  }

  /** Any other exception, once the filter gets past reading it, sends
      exactly one alert and then answers 500 "An error occurred". */
  lemma OtherExceptionsAlertThen500(e: Exception)
    requires !e.HttpException?
    requires e.AxiosError? ==> e.responseData.Some?
    ensures |Catch(e)| == 2
    ensures Catch(e)[0].SendAlert? && Catch(e)[1] == Respond(INTERNAL_SERVER_ERROR, GENERIC_MESSAGE)
  {
  }

  /** The request-library alert is "API Error" and leads with the URL, then
      a blank line, then the response body. */
  lemma {:induction false} ApiErrorAlert(url: string, data: string)
    ensures var effects := Catch(AxiosError(Some(url), Some(data)));
            && effects[0].SendAlert? && effects[0].subject == API_ERROR_SUBJECT
            && StartsWith(effects[0].text, "URL: " + url + "\n\n")
            && EndsWith(effects[0].text, data)
  {
    var text := ApiAlertText(Some(url), data);
    assert text[..|"URL: " + url + "\n\n"|] == "URL: " + url + "\n\n";
    assert text[|text| - |data|..] == data;
  }

  /** Any other exception's alert is "Error Stack Trace" and carries the
      message and the stack. */
  lemma {:induction false} StackTraceAlert(message: string, stack: string)
    ensures var effects := Catch(OtherException(Some(message), Some(stack)));
            && effects[0].SendAlert? && effects[0].subject == STACK_TRACE_SUBJECT
            && StartsWith(effects[0].text, "Error occurred: " + message)
            && EndsWith(effects[0].text, "Stack Trace:\n" + stack)
  {
    var text := StackAlertText(Some(message), Some(stack));
    var head := "Error occurred: " + message;
    var tail := "Stack Trace:\n" + stack;
    assert text == head + "\n\n" + tail;
    assert text[..|head|] == head;
    assert text[|text| - |tail|..] == tail;
  }
}
