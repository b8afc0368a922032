/**
  The form API wrappers: fetch the template list, fetch one template,
  submit a filled-in form. Each wraps the axios call's outcome into
  `{success: true, data}` or `{success: false, error}` and never throws.
*/
module FormService {
  import opened Js
  import opened Http

  datatype ServiceResult = Success(data: Json) | Failure(error: string)

  const TemplatesFallback := "Failed to fetch form templates."
  const SubmitDefault := "Failed to submit form."

  function TemplateFallback(templateId: string): string
  {
    "Failed to fetch form template " + templateId + "."
  }

  /** `error.response?.data?.detail || fallback` */
  function DetailOr(e: AxiosError, fallback: string): string
  {
    if e.ErrResponse? && Truthy(Get(e.data, "detail")) then ToStr(Get(e.data, "detail")) else fallback
  }

  /** `fetchFormTemplates()` given the outcome of GET /form-templates/. */
  function FetchFormTemplates(reply: Outcome): ServiceResult
  {
    match reply
    case Ok(data) => Success(data)
    case Err(e) => Failure(DetailOr(e, TemplatesFallback))
  }

  /** `fetchFormTemplateById(templateId)` given the outcome of
      GET /form-templates/<templateId>/. */
  function FetchFormTemplateById(templateId: string, reply: Outcome): ServiceResult
  {
    match reply
    case Ok(data) => Success(data)
    case Err(e) => Failure(DetailOr(e, TemplateFallback(templateId)))
  }

  /** The submission error message: the body's `detail`, else its field
      errors, else the default. */
  function SubmitErrorMessage(e: AxiosError): string
  {
    if e.ErrResponse? && Truthy(e.data) then
      if Truthy(Get(e.data, "detail")) then ToStr(Get(e.data, "detail"))
      else OrElse(FieldErrors(e.data), SubmitDefault)
    else SubmitDefault
  }

  /** `submitSubmission(submissionData)` given the outcome of POST /submissions/. */
  function SubmitSubmission(reply: Outcome): ServiceResult
  {
    match reply
    case Ok(data) => Success(data)
    case Err(e) => Failure(SubmitErrorMessage(e))
  }

  /** All three wrappers settle with success exactly for a 2xx reply, carry
      its body unchanged, and otherwise carry a message. */
  lemma ResultWrapping(templateId: string, reply: Outcome)
    ensures FetchFormTemplates(reply).Success? <==> reply.Ok?
    ensures FetchFormTemplateById(templateId, reply).Success? <==> reply.Ok?
    ensures SubmitSubmission(reply).Success? <==> reply.Ok?
    ensures reply.Ok? ==>
      FetchFormTemplates(reply).data == reply.data
      && FetchFormTemplateById(templateId, reply).data == reply.data
      && SubmitSubmission(reply).data == reply.data
  {
  }

  /** A failed fetch reports the body's `detail` when it has a truthy one,
      and otherwise the fixed fallback for that call. */
  lemma FetchFailureMessage(templateId: string, e: AxiosError)
    ensures var fallback := FetchFormTemplates(Err(e)).error;
      fallback == (if e.ErrResponse? && Truthy(Get(e.data, "detail")) then ToStr(Get(e.data, "detail"))
                   else TemplatesFallback)
    ensures var byId := FetchFormTemplateById(templateId, Err(e)).error;
      byId == (if e.ErrResponse? && Truthy(Get(e.data, "detail")) then ToStr(Get(e.data, "detail"))
               else "Failed to fetch form template " + templateId + ".")
  {
  }

  /** The submission message: `detail` wins over field errors; field errors
      are used when the body has any entries; the default stands in for no
      body, a falsy body or a body with no entries. */
  lemma SubmitMessageRules(e: AxiosError)
    ensures !(e.ErrResponse? && Truthy(e.data)) ==> SubmitErrorMessage(e) == SubmitDefault
    ensures e.ErrResponse? && Truthy(e.data) && Truthy(Get(e.data, "detail")) ==>
      SubmitErrorMessage(e) == ToStr(Get(e.data, "detail"))
    ensures e.ErrResponse? && Truthy(e.data) && !Truthy(Get(e.data, "detail")) ==>
      SubmitErrorMessage(e) == if |Entries(e.data)| == 0 then SubmitDefault else FieldErrors(e.data)
  {
    if e.ErrResponse? && Truthy(e.data) {
      FieldErrorsEmpty(e.data);
    }
  }

  /** A Django REST framework validation body with one field and one
      message, such as `{responses: ["This field is required."]}`, is
      reported as `field: message`. */
  lemma SubmitSingleFieldError(status: int, field: string, message: string)
    requires field != "detail"
    ensures SubmitErrorMessage(ErrResponse(status, JObj([(field, JArr([JStr(message)]))])))
         == field + ": " + message
  {
    var entry := (field, JArr([JStr(message)]));
    var body := JObj([entry]);
    assert Get(body, "detail") == JUndefined;
    assert Entries(body) == [entry];
    assert JoinParts([JStr(message)]) == [message];
    assert FieldErrorTexts([entry]) == [field + ": " + message];
  }
}
