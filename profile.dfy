/** The profile screen: a view/edit mode flag, the edit form's three fields,
    and the navigation actions the screen offers. */
module ProfileScreen {
  import opened Common
  import opened NavigationContext

  /** The three editable fields, named as the inputs' `name` attributes. */
  datatype FieldName = Name | Email | Phone

  datatype FormData = FormData(name: string, email: string, phone: string)

  /** The fixed user record the screen starts from and always displays in view mode. */
  const USER: FormData := FormData("Jennifer Smith", "jennifer@example.com", "+1 (555) 123-4567")

  function Get(f: FormData, field: FieldName): string
  {
    match field
    case Name => f.name
    case Email => f.email
    case Phone => f.phone
  }

  /** `{ ...prev, [name]: value }`: the named field takes the value and the
      other two keep theirs. */
  function WithField(f: FormData, field: FieldName, value: string): (r: FormData)
    ensures Get(r, field) == value
    ensures forall g :: g != field ==> Get(r, g) == Get(f, g)
  {
    match field
    case Name => f.(name := value)
    case Email => f.(email := value)
    case Phone => f.(phone := value)
  }

  /** What the profile card shows: the inputs hold `formData` in edit mode;
      view mode prints the `USER` constants. */
  function Displayed(isEditMode: bool, formData: FormData): FormData
  {
    if isEditMode then formData else USER
  }

  /** Edits are never reflected in view mode, saved or not. */
  lemma ViewModeShowsUser(formData: FormData)
    ensures Displayed(false, formData) == USER
  {
  }

  /** The screen's two state cells. */
  class ProfileForm {
    var isEditMode: bool
    var formData: FormData

    constructor ()
      ensures !isEditMode && formData == USER
    {
      isEditMode := false;
      formData := USER;
    }

    /** "Edit". */
    method StartEdit()
      modifies this`isEditMode
      ensures isEditMode
    {
      isEditMode := true;
    }

    /** `handleChange` for the input named `field`. */
    method HandleChange(field: FieldName, value: string)
      modifies this`formData
      ensures formData == WithField(old(formData), field, value)
    {
      match field
      case Name => formData := formData.(name := value);
      case Email => formData := formData.(email := value);
      case Phone => formData := formData.(phone := value);
    }

    /** `handleSave`: leaves edit mode and keeps the edited fields. */
    method HandleSave()
      modifies this`isEditMode
      ensures !isEditMode
    {
      isEditMode := false;
    }

    /** "Cancel" in edit mode: leaves edit mode and resets the form. */
    method CancelEdit()
      modifies this
      ensures !isEditMode && formData == USER
    {
      isEditMode := false;
      formData := USER;
    }

    /** `handleLogout`, with the confirmation dialog's answer as input. */
    method HandleLogout(nav: Navigator, confirmed: bool)
      requires nav.Valid()
      modifies nav
      ensures nav.Valid()
      ensures nav.State() == if confirmed then AfterNavigateTo(old(nav.State()), Home, None)
                             else old(nav.State())
    {
      if confirmed {
        nav.NavigateTo(Home, None);
      }
    }

    /** "Payment Methods". */
    method OpenPaymentMethods(nav: Navigator)
      requires nav.Valid()
      modifies nav
      ensures nav.Valid()
      ensures nav.State() == AfterNavigateTo(old(nav.State()), Payment, None)
    {
      nav.NavigateTo(Payment, None);
    }

    /** "Saved Locations". */
    method OpenSavedLocations(nav: Navigator)
      requires nav.Valid()
      modifies nav
      ensures nav.Valid()
      ensures nav.State() == AfterNavigateTo(old(nav.State()), Home, None)
    {
      nav.NavigateTo(Home, None);
    }
  }
}
