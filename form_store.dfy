/**
  The form store (a zustand store, not persisted): the available templates,
  the template being filled in, the responses entered so far, and the
  loading and error status of form API calls.
*/
module FormStore {
  import opened Js

  /** The value of the five store fields. */
  datatype FormState = FormState(
    formTemplates: Json,
    currentFormTemplate: Json,
    currentFormData: map<string, Json>,
    isLoading: bool,
    error: Option<string>)

  /** The state the store is created with. */
  const InitialFormState := FormState(JArr([]), JNull, map[], false, None)

  class Store {
    var formTemplates: Json
    var currentFormTemplate: Json
    var currentFormData: map<string, Json>
    var isLoading: bool
    var error: Option<string>

    function State(): FormState
      reads this
    {
      FormState(formTemplates, currentFormTemplate, currentFormData, isLoading, error)
    }

    constructor ()
      ensures State() == InitialFormState
    {
      formTemplates, currentFormTemplate, currentFormData := JArr([]), JNull, map[];
      isLoading, error := false, None;
    }

    /** `setLoading(loadingStatus)`: starting or ending a call clears the error. */
    method SetLoading(loading: bool)
      modifies this
      ensures State() == old(State()).(isLoading := loading, error := None)
    {
      isLoading, error := loading, None;
    }

    /** `setError(errorMessage)` */
    method SetError(message: Option<string>)
      modifies this
      ensures State() == old(State()).(error := message, isLoading := false)
    {
      error, isLoading := message, false;
    }

    /** `setFormTemplates(templates)` */
    method SetFormTemplates(templates: Json)
      modifies this
      ensures State() == old(State()).(formTemplates := templates, isLoading := false, error := None)
    {
      formTemplates, isLoading, error := templates, false, None;
    }

    /** `setCurrentFormTemplate(template)`: a new template starts with no
        responses; the template list is kept. */
    method SetCurrentFormTemplate(template: Json)
      modifies this
      ensures State() == old(State()).(currentFormTemplate := template, currentFormData := map[],
                                        isLoading := false, error := None)
    {
      currentFormTemplate, currentFormData := template, map[];
      isLoading, error := false, None;
    }

    /** `updateCurrentFormField(fieldName, value)`: one key of the responses
        changes, every other key and field is kept. */
    method UpdateCurrentFormField(fieldName: string, value: Json)
      modifies this
      ensures currentFormData.Keys == old(currentFormData).Keys + {fieldName}
      ensures currentFormData[fieldName] == value
      ensures forall k :: k in old(currentFormData) && k != fieldName ==> currentFormData[k] == old(currentFormData)[k]
      ensures State() == old(State()).(currentFormData := currentFormData)
    {
      currentFormData := currentFormData[fieldName := value];
    }

    /** `resetCurrentForm()`: no template, no responses, idle, no error; the
        template list is kept. A second reset changes nothing. */
    method ResetCurrentForm()
      modifies this
      ensures State() == InitialFormState.(formTemplates := old(formTemplates))
    {
      currentFormTemplate, currentFormData := JNull, map[];
      isLoading, error := false, None;
    }

    /** `submissionSuccess(responseData)` */
    method SubmissionSuccess(responseData: Json)
      modifies this
      ensures State() == old(State()).(isLoading := false, error := None)
    {
      isLoading, error := false, None;
    }

    /** `submissionFailure(errorMessage)` */
    method SubmissionFailure(message: Option<string>)
      modifies this
      ensures State() == old(State()).(error := message, isLoading := false)
    {
      error, isLoading := message, false;
    }
  }
}
