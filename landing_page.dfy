/** The landing form of the web client (`LandingPage.jsx`): a name field and
    a consent checkbox. Submitting hands the name to the questionnaire once
    both checks pass. */
module LandingPage {
  import opened Wrappers
  import opened Text

  class LandingForm {
    var name: string
    /** The name field shows "Please enter your name to continue.". */
    var error: bool
    var agreed: bool
    /** The checkbox shows its consent message. */
    var agreeError: bool

    constructor ()
      ensures name == "" && !error && !agreed && !agreeError
    {
      name, error, agreed, agreeError := "", false, false, false;
    }

    /** Typing in the name field; an error already shown stays shown. */
    method OnNameChange(value: string)
      modifies this`name
      ensures name == value
    {
      name := value;
    }

    /** Ticking clears the consent error; unticking leaves it as it was. */
    method OnConsentChange(checked: bool)
      modifies this`agreed, this`agreeError
      ensures agreed == checked
      ensures agreeError == (old(agreeError) && !checked)
    {
      agreed := checked;
      if checked {
        agreeError := false;
      }
    }

    /** `handleSubmit`: a name made only of whitespace marks the name field
        (consent is then not examined); a missing consent marks the checkbox;
        otherwise both marks are cleared and the name, untrimmed, is handed on. */
    method HandleSubmit() returns (started: Option<string>)
      modifies this`error, this`agreeError
      ensures AllWhitespace(name, IsJsWhitespace) ==>
        started.None? && error && agreeError == old(agreeError)
      ensures !AllWhitespace(name, IsJsWhitespace) && !agreed ==>
        started.None? && agreeError && error == old(error)
      ensures started.Some? <==> !AllWhitespace(name, IsJsWhitespace) && agreed
      ensures started.Some? ==> started.value == name && !error && !agreeError
    {
      if IsBlank(name, IsJsWhitespace) {
        error := true;
        return None;
      }
      if !agreed {
        agreeError := true;
        return None;
      }
      error, agreeError := false, false;
      started := Some(name);
    }
  }

  /** A name of spaces is refused; after typing a name, the missing consent
      is reported; after ticking the box the name is handed on as typed. */
  method LandingWalkthrough() {
    var form := new LandingForm();
    form.OnNameChange("  ");
    var started := form.HandleSubmit();
    assert started.None? && form.error && !form.agreeError;
    form.OnNameChange(" Ann");
    started := form.HandleSubmit();
    assert form.name[1] == 'A' && !IsJsWhitespace(form.name[1]);
    assert started.None? && form.agreeError;
    form.OnConsentChange(true);
    assert !form.agreeError;
    started := form.HandleSubmit();
    assert started == Some(" Ann") && !form.error;
  }
}
