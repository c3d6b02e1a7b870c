/** The create-contest form: field updates, the required-field checks of submit, and the reset
    after a successful submission. */
module ContestModal {
  import opened Domain

  /** A chosen file; only its presence matters here. */
  datatype File = File(fileName: string)

  /** The form state. Text fields hold the input's string, empty when untouched. */
  datatype ContestForm = ContestForm(
    name: string,
    coverPhoto: Option<File>,
    description: string,
    startDate: string,
    endDate: string)

  const EmptyForm := ContestForm("", None, "", "", "")

  /** The inputs wired to `handleInputChange`, by their `name` attribute. */
  datatype TextField = Name | Description | StartDate | EndDate

  function FieldValue(f: ContestForm, field: TextField): string {
    match field
    case Name => f.name
    case Description => f.description
    case StartDate => f.startDate
    case EndDate => f.endDate
  }

  /** `handleInputChange`: the named field takes the new value, everything else is kept. */
  function WithField(f: ContestForm, field: TextField, value: string): (r: ContestForm)
    ensures FieldValue(r, field) == value
    ensures forall other :: other != field ==> FieldValue(r, other) == FieldValue(f, other)
    ensures r.coverPhoto == f.coverPhoto
  {
    match field
    case Name => f.(name := value)
    case Description => f.(description := value)
    case StartDate => f.(startDate := value)
    case EndDate => f.(endDate := value)
  }

  /** `handleCoverPhotoChange`: without a chosen file the form is unchanged; with one, only the
      cover photo changes. */
  function WithCoverPhoto(f: ContestForm, file: Option<File>): (r: ContestForm)
    ensures file.None? ==> r == f
    ensures file.Some? ==> r.coverPhoto == file
    ensures forall field :: FieldValue(r, field) == FieldValue(f, field)
  {
    match file
    case None => f
    case Some(_) => f.(coverPhoto := file)
  }

  const MissingFields := "Please fill in all required fields"
  const MissingCover := "Please select a cover photo"
  const SubmitFailed := "Failed to create contest. Please try again."

  /** The checks of `handleSubmit`, in order: the four text fields first, then the cover photo. */
  function SubmitError(f: ContestForm): (r: Option<string>)
    ensures r == Some(MissingFields) <==> exists field :: FieldValue(f, field) == ""
    ensures r == Some(MissingCover) <==>
      (forall field :: FieldValue(f, field) != "") && f.coverPhoto.None?
    ensures r == None <==>
      (forall field :: FieldValue(f, field) != "") && f.coverPhoto.Some?
  {
    if f.name == "" || f.description == "" || f.startDate == "" || f.endDate == "" then
      assert FieldValue(f, Name) == "" || FieldValue(f, Description) == ""
        || FieldValue(f, StartDate) == "" || FieldValue(f, EndDate) == "";
      Some(MissingFields)
    else if f.coverPhoto.None? then
      Some(MissingCover)
    else
      None
  }

  /** How the awaited `onSubmit` ended; a rejection carries the error's message. */
  datatype SubmitOutcome = Resolved | Rejected(message: string)

  /** The message shown for a rejected `onSubmit`: its own, or the generic one when it has none. */
  function RejectionText(message: string): (t: string)
    ensures t != ""
    ensures message != "" ==> t == message
    ensures message == "" ==> t == SubmitFailed
  {
    if message != "" then message else SubmitFailed
  }

  class ContestModalState {
    var form: ContestForm
    var isSubmitting: bool
    var error: Option<string>

    constructor ()
      ensures form == EmptyForm && !isSubmitting && error == None
    {
      form := EmptyForm;
      isSubmitting := false;
      error := None;
    }

    method HandleInputChange(field: TextField, value: string)
      modifies this`form
      ensures form == WithField(old(form), field, value)
    {
      match field {
        case Name => form := form.(name := value);
        case Description => form := form.(description := value);
        case StartDate => form := form.(startDate := value);
        case EndDate => form := form.(endDate := value);
      }
    }

    method HandleCoverPhotoChange(file: Option<File>)
      modifies this`form
      ensures form == WithCoverPhoto(old(form), file)
    {
      if file.Some? {
        form := form.(coverPhoto := file);
      }
    }

    /** `handleSubmit`. `outcome` is how `onSubmit` would end if it were called. Returns the form
        passed to `onSubmit` (None when it was not called) and whether `onClose` was called. */
    method HandleSubmit(outcome: SubmitOutcome) returns (submitted: Option<ContestForm>, closed: bool)
      modifies this
      ensures submitted == (if SubmitError(old(form)) == None then Some(old(form)) else None)
      ensures closed <==> submitted.Some? && outcome == Resolved
      ensures form == (if closed then EmptyForm else old(form))
      ensures error == (if SubmitError(old(form)).Some? then SubmitError(old(form))
                        else if outcome.Rejected? then Some(RejectionText(outcome.message))
                        else None)
      ensures !isSubmitting
    {
      isSubmitting := true;
      error := None;
      submitted, closed := None, false;
      if form.name == "" || form.description == "" || form.startDate == "" || form.endDate == "" {
        error := Some(MissingFields);
      } else if form.coverPhoto.None? {
        error := Some(MissingCover);
      } else {
        submitted := Some(form);
        match outcome {
          case Resolved =>
            form := EmptyForm;
            closed := true;
          case Rejected(message) =>
            error := Some(if message != "" then message else SubmitFailed);
        }
      }
      isSubmitting := false;
    }
  }
}
