/** The SimpleForm component's state and handlers: the form values, the
    error record and the submitting flag, updated in place by the change
    handlers and the submit handler. */
module SimpleFormComponent {
  import opened FormState
  import opened FormUpdates
  import opened Validation

  /** How the simulated API call settles: it resolves, or it rejects with
      an object whose message the handler stores. */
  datatype ApiOutcome = Resolved | Rejected(message: string)

  const ServerErrorMessage := "Server error occured, Please try again later"

  class SimpleForm {
    var formData: FormData
    var isSubmitting: bool
    var error: FormErrors

    /** The hobby list is never empty. */
    ghost predicate Valid()
      reads this
    {
      |formData.hobbies| >= 1
    }

    /** Mounting: default values, no errors, not submitting. */
    constructor ()
      ensures Valid()
      ensures formData == InitialFormData() && error == NoErrors() && !isSubmitting
    {
      formData := InitialFormData();
      isSubmitting := false;
      error := NoErrors();
    }

    /** `handleChange`: a text box, the select or the age input changed.
        Errors stay as the last submit left them. */
    method HandleChange(name: string, value: FieldValue)
      requires Valid() && FitsField(name, value)
      modifies this
      ensures Valid()
      ensures formData == WithField(old(formData), name, value)
      ensures error == old(error) && isSubmitting == old(isSubmitting)
    {
      formData := WithField(formData, name, value);
    }

    /** `handleHobbyChange`: the hobby input at `idx` changed. */
    method HandleHobbyChange(idx: nat, value: string)
      requires Valid() && idx < |formData.hobbies|
      modifies this
      ensures Valid()
      ensures formData == WithHobbyName(old(formData), idx, value)
      ensures error == old(error) && isSubmitting == old(isSubmitting)
    {
      var hobbies := formData.hobbies;
      hobbies := hobbies[idx := Hobby(value)];
      formData := formData.(hobbies := hobbies);
    }

    /** `removeHobby`: the Remove button of the hobby at `idx`, rendered only
        while more than one hobby is listed. */
    method RemoveHobby(idx: nat)
      requires Valid() && 1 < |formData.hobbies| && idx < |formData.hobbies|
      modifies this
      ensures Valid()
      ensures formData == WithoutHobby(old(formData), idx)
      ensures error == old(error) && isSubmitting == old(isSubmitting)
    {
      var hobbies := formData.hobbies;
      hobbies := hobbies[..idx] + hobbies[idx + 1..];
      formData := formData.(hobbies := hobbies);
    }

    /** `addHobby`: the Add Hobby button. */
    method AddHobby()
      requires Valid()
      modifies this
      ensures Valid()
      ensures formData == WithNewHobby(old(formData))
      ensures error == old(error) && isSubmitting == old(isSubmitting)
    {
      formData := WithNewHobby(formData);
    }

    /** The subscribe checkbox changed. */
    method HandleSubscribeChange(checked: bool)
      requires Valid()
      modifies this
      ensures Valid()
      ensures formData == WithSubscribe(old(formData), checked)
      ensures error == old(error) && isSubmitting == old(isSubmitting)
    {
      formData := WithSubscribe(formData, checked);
    }

    /** `handleSubmit`. The outcome of the API call is a parameter; `sent`
        is the record handed to the API, `None` when no call was made. On
        every path the values are untouched and the flag ends cleared. */
    method HandleSubmit(outcome: ApiOutcome) returns (sent: Option<FormData>)
      requires Valid()
      modifies this
      ensures Valid() && formData == old(formData) && !isSubmitting
      ensures !Validate(formData).IsEmpty() ==> sent == None && error == Validate(formData)
      ensures Validate(formData).IsEmpty() ==> sent == Some(formData)
      ensures Validate(formData).IsEmpty() && outcome.Rejected? ==> error == RootError(outcome.message)
      ensures Validate(formData).IsEmpty() && outcome.Resolved? ==> error == NoErrors()
    {
      isSubmitting := true;
      error := NoErrors();
      var newErrors := CollectErrors(formData);
      if !newErrors.IsEmpty() {
        error := newErrors;
        isSubmitting := false;
        return None;
      }
      sent := Some(formData);
      match outcome {
        case Rejected(message) => error := RootError(message);
        case Resolved =>
      }
      isSubmitting := false;
    }
  }

  /** A user types into both address boxes and submits: those inputs never
      reach `formData.address`, so the submit reports both address fields
      and sends nothing, whatever the API would have answered. */
  method AddressScenario()
  {
    var form := new SimpleForm();
    assert form.formData.address == Address("", "");
    form.HandleChange("address.city", Text("NYC"));
    assert Lookup(form.formData, "address.city") == Some(Text("NYC"));
    form.HandleChange("address.state", Text("NY"));
    assert Lookup(form.formData, "address.city") == Some(Text("NYC"));
    assert form.formData.address == Address("", "");
    assert AddressErrorsOf(form.formData.address) == Some(AddressErrors(Some(CityRequired), Some(StateRequired)));
    var sent := form.HandleSubmit(Resolved);
    assert sent == None && !form.isSubmitting;
    assert form.error.address == Some(AddressErrors(Some(CityRequired), Some(StateRequired)));
  }

  /** Submitting values that pass every rule while the API rejects: the
      values are sent, the record ends as exactly the rejection message under
      `root`, and the flag ends cleared. */
  method RejectedSubmitScenario()
  {
    var form := new SimpleForm();
    form.formData := SampleValues();
    SampleValuesPass();
    var sent := form.HandleSubmit(Rejected(ServerErrorMessage));
    assert sent == Some(SampleValues()) && !form.isSubmitting;
    assert form.error == RootError(ServerErrorMessage);
    assert form.error.root == Some("Server error occured, Please try again later");
  }
}
