// ContactManagerScreen's remembered state and its event handlers, as a
// class over the view model. Each handler is proved to perform exactly the
// transition ContactForm gives for its event, and to keep ContactForm.Inv.

module ContactScreen {
  import opened ContactModel
  import opened ContactStore
  import opened ContactForm

  class ContactManagerScreen {
    /** The view model the screen appends to. */
    const viewModel: ContactViewModel
    /** The platform's email address pattern, `Patterns.EMAIL_ADDRESS`. */
    const isEmail: string -> bool

    var name: string
    var phone: string
    var email: string
    var selectedContactType: string
    var phoneError: bool
    var emailError: bool

    /** The screen's current state as a value of ContactForm. */
    function Snapshot(): Screen
      reads this, viewModel
    {
      Screen(Form(name, phone, email, selectedContactType, phoneError, emailError),
             viewModel.contacts)
    }

    ghost predicate Valid()
      reads this, viewModel
    {
      Inv(Snapshot(), isEmail)
    }

    /** A new composition of the screen: every remembered value starts empty
      * or false. The view model may outlive earlier compositions, so it can
      * already hold contacts; those came through the same guard. */
    constructor (viewModel: ContactViewModel, isEmail: string -> bool)
      requires AllAdmissible(viewModel.contacts, isEmail)
      ensures this.viewModel == viewModel && this.isEmail == isEmail
      ensures Snapshot() == Screen(EmptyForm, viewModel.contacts)
      ensures Valid()
    {
      this.viewModel := viewModel;
      this.isEmail := isEmail;
      name, phone, email, selectedContactType := "", "", "", "";
      phoneError, emailError := false, false;
    }

    /** The name field takes any text. */
    method OnNameChange(value: string)
      requires Valid()
      modifies this
      ensures Valid()
      ensures Snapshot() == Step(old(Snapshot()), NameChanged(value), isEmail)
    {
      name := value;
    }

    /** The phone field takes the new text only if it has at most ten
      * characters, all digits; otherwise the buffer is left as it was. */
    method OnPhoneChange(value: string)
      requires Valid()
      modifies this
      ensures Valid()
      ensures Snapshot() == Step(old(Snapshot()), PhoneChanged(value), isEmail)
      ensures phone == (if PhoneEditAllowed(value) then value else old(phone))
    {
      if PhoneEditAllowed(value) {
        phone := value;
      }
    }

    /** The email field takes any text; it is checked only on submit. */
    method OnEmailChange(value: string)
      requires Valid()
      modifies this
      ensures Valid()
      ensures Snapshot() == Step(old(Snapshot()), EmailChanged(value), isEmail)
    {
      email := value;
    }

    /** A radio button passes its label; the selection becomes that label. */
    method OnTypeSelected(choice: ContactType)
      requires Valid()
      modifies this
      ensures Valid()
      ensures Snapshot() == Step(old(Snapshot()), TypeSelected(choice), isEmail)
      ensures selectedContactType in ["Friend", "Family", "Work"]
    {
      selectedContactType := Label(choice);
      StepPreservesInv(old(Snapshot()), TypeSelected(choice), isEmail);
    }

    /** The Add Contact button. Both error flags are set from the current
      * phone and email; the contact is added, and the four inputs cleared,
      * exactly when the guard holds. The returned text is the notice as
      * intended, built from the name before the reset; the source builds it
      * after the reset, see ContactForm.AsWrittenNoticeLosesName. */
    method OnAddClick() returns (notice: string)
      requires Valid()
      modifies this, viewModel
      ensures Valid()
      ensures Snapshot() == Submit(old(Snapshot()), isEmail)
      ensures phoneError == (|old(phone)| != PhoneLength) && emailError == !isEmail(old(email))
      ensures Accepts(old(Snapshot()).form, isEmail) <==> |viewModel.contacts| == |old(viewModel.contacts)| + 1
      ensures !Accepts(old(Snapshot()).form, isEmail) ==>
                viewModel.contacts == old(viewModel.contacts) &&
                name == old(name) && phone == old(phone) && email == old(email) &&
                selectedContactType == old(selectedContactType)
      ensures notice == SubmitNotice(old(Snapshot()), isEmail)
    {
      ghost var before := Snapshot();
      phoneError := |phone| != PhoneLength;
      emailError := !isEmail(email);

      if !IsBlank(name) && !phoneError && !emailError {
        var contact := Contact(name, phone, email, selectedContactType);
        viewModel.AddContact(contact);
        notice := "Contact Added: " + name;
        name := "";
        phone := "";
        email := "";
        selectedContactType := "";
      } else {
        notice := "Please enter valid details.";
      }
      StepPreservesInv(before, AddClicked, isEmail);
    }
  }
}
