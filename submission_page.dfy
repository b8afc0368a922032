/**
  The submission page: the effect that loads the form template named in
  the URL, the clean-up effect that resets the form on leaving, and the
  handler that turns the filled-in form into a submission.
*/
module SubmissionPage {
  import opened Js
  import opened Http
  import AuthStore
  import FormStore
  import FormService

  const NoTemplateId := "No form template ID provided."
  const UserMissing := "User not authenticated or user ID is missing. Cannot submit."
  const TemplateMissing := "Form template not loaded. Cannot submit."
  const SubmitFallback := "Submission failed. Please try again."
  /** The polling unit every submission names for now. */
  const PlaceholderPollingUnit := 1

  /** `${templateId}` of the route parameter, which may be missing. */
  function IdText(templateId: Option<string>): string
  {
    if templateId.Some? then templateId.value else "undefined"
  }

  function LoadFallback(templateId: string): string
  {
    "Failed to load form template " + templateId + "."
  }

  /** A navigation: the target path and the `from` path passed in its state. */
  datatype Navigation = Navigation(to: string, from: Option<string>)

  /** The body of the submission call. */
  datatype Submission = Submission(observer: Json, pollingUnit: int, formTemplate: Json, responses: map<string, Json>)

  class Page {
    /** `pageError` (null is `None`). */
    var pageError: Option<string>

    constructor ()
      ensures pageError == None
    {
      pageError := None;
    }

    /** The loading effect with `reply` the outcome of fetching the
        template: `navigation` is where an anonymous visitor is sent, and
        `fetched` the template id requested, if any. */
    method LoadTemplate(auth: AuthStore.Store, forms: FormStore.Store, templateId: Option<string>, reply: Outcome)
      returns (navigation: Option<Navigation>, fetched: Option<string>)
      modifies this, forms
      // an anonymous visitor is sent to log in and nothing is fetched
      ensures !auth.IsAuthenticated() ==>
        navigation == Some(Navigation("/login", Some("/submissions/template/" + IdText(templateId) + "/new")))
        && fetched == None && pageError == old(pageError) && forms.State() == old(forms.State())
      ensures auth.IsAuthenticated() ==> navigation == None
      // no id: the same message in the page and in the form store
      ensures auth.IsAuthenticated() && !(templateId.Some? && templateId.value != "") ==>
        fetched == None && pageError == Some(NoTemplateId)
        && forms.State() == old(forms.State()).(error := Some(NoTemplateId), isLoading := false)
      // an id: the template is fetched; it is installed, or the error shown
      ensures auth.IsAuthenticated() && templateId.Some? && templateId.value != "" ==>
        var id := templateId.value;
        fetched == Some(id)
        && match FormService.FetchFormTemplateById(id, reply)
           case Success(data) =>
             pageError == None
             && forms.State() == old(forms.State()).(currentFormTemplate := data, currentFormData := map[],
                                                     isLoading := false, error := None)
           case Failure(error) =>
             var message := OrElse(error, LoadFallback(id));
             pageError == Some(message)
             && forms.State() == old(forms.State()).(isLoading := false, error := Some(message))
    {
      navigation, fetched := None, None;
      if !auth.IsAuthenticated() {
        navigation := Some(Navigation("/login", Some("/submissions/template/" + IdText(templateId) + "/new")));
        return;
      }
      if templateId.Some? && templateId.value != "" {
        var id := templateId.value;
        forms.SetLoading(true);
        pageError := None;
        fetched := Some(id);
        var response := FormService.FetchFormTemplateById(id, reply);
        match response
        case Success(data) =>
          forms.SetCurrentFormTemplate(data);
        case Failure(error) =>
          var message := OrElse(error, LoadFallback(id));
          forms.SetError(Some(message));
          pageError := Some(message);
      } else {
        pageError := Some(NoTemplateId);
        forms.SetError(Some(NoTemplateId));
      }
    }

    /** The clean-up effect, run on leaving the page or changing template:
        the current form is reset and the template list kept. */
    method Leave(forms: FormStore.Store)
      modifies forms
      ensures forms.State() == FormStore.InitialFormState.(formTemplates := old(forms.formTemplates))
    {
      forms.ResetCurrentForm();
    }

    /** `handleFormSubmit(formData)` with `reply` the outcome of the
        submission call: `submitted` is the submission sent, if any,
        `inFlight` the form store's state while it is under way, and
        `navigateTo` the page navigated to, if any. */
    method HandleFormSubmit(auth: AuthStore.Store, forms: FormStore.Store, formData: map<string, Json>, reply: Outcome)
      returns (submitted: Option<Submission>, inFlight: Option<FormStore.FormState>, navigateTo: Option<string>)
      modifies forms
      // no user id: nothing is sent
      ensures !(Truthy(auth.user) && Truthy(Get(auth.user, "id"))) ==>
        submitted == None && inFlight == None && navigateTo == None
        && forms.State() == old(forms.State()).(error := Some(UserMissing), isLoading := false)
      // then, no loaded template id: nothing is sent
      ensures Truthy(auth.user) && Truthy(Get(auth.user, "id"))
              && !(Truthy(old(forms.currentFormTemplate)) && Truthy(Get(old(forms.currentFormTemplate), "id"))) ==>
        submitted == None && inFlight == None && navigateTo == None
        && forms.State() == old(forms.State()).(error := Some(TemplateMissing), isLoading := false)
      // otherwise the submission is sent; success resets the form and
      // goes to the dashboard, failure shows the message
      ensures Truthy(auth.user) && Truthy(Get(auth.user, "id"))
              && Truthy(old(forms.currentFormTemplate)) && Truthy(Get(old(forms.currentFormTemplate), "id")) ==>
        submitted == Some(Submission(Get(auth.user, "id"), PlaceholderPollingUnit,
                                     Get(old(forms.currentFormTemplate), "id"), formData))
        // the store shows loading, and no error, while the call is under way
        && inFlight == Some(old(forms.State()).(isLoading := true, error := None))
        && (navigateTo.Some? <==> reply.Ok?)
        && (reply.Ok? ==>
              navigateTo == Some("/dashboard")
              && forms.State() == FormStore.InitialFormState.(formTemplates := old(forms.formTemplates)))
        && (reply.Err? ==>
              forms.State() == old(forms.State()).(isLoading := false,
                error := Some(OrElse(FormService.SubmitErrorMessage(reply.error), SubmitFallback))))
    {
      submitted, inFlight, navigateTo := None, None, None;
      var user := auth.user;
      if !Truthy(user) || !Truthy(Get(user, "id")) {
        forms.SetError(Some(UserMissing));
        return;
      }
      var template := forms.currentFormTemplate;
      if !Truthy(template) || !Truthy(Get(template, "id")) {
        forms.SetError(Some(TemplateMissing));
        return;
      }
      var submission := Submission(Get(user, "id"), PlaceholderPollingUnit, Get(template, "id"), formData);
      submitted := Some(submission);
      forms.SetLoading(true);
      inFlight := Some(forms.State());
      var result := FormService.SubmitSubmission(reply);
      forms.SetLoading(false);
      match result
      case Success(_) =>
        navigateTo := Some("/dashboard");
        forms.ResetCurrentForm();
      case Failure(error) =>
        forms.SetError(Some(OrElse(error, SubmitFallback)));
    }
  }
}
