// The contact form of ContactManagerScreen as a pure state machine: the
// field checks, the phone entry filter, the type choice, the submit
// transition and the row text of the contact list. The class in
// contact_screen.dfy is proved against the transitions defined here.

module ContactForm {
  import opened ContactModel

  /** The phone length: the entry filter's upper bound and the submit check. */
  const PhoneLength := 10

  /** The three options of the single-select radio group (`availableTypes`). */
  datatype ContactType = Friend | Family | Work

  /** The label a radio button passes to its selection callback. */
  function Label(t: ContactType): string
  {
    match t
    case Friend => "Friend"
    case Family => "Family"
    case Work => "Work"
  }

  /** The options in the order the radio group shows them. */
  const AvailableTypes: seq<ContactType> := [Friend, Family, Work]

  /** The values `selectedContactType` can hold: nothing selected, or a label. */
  predicate IsTypeLabel(s: string)
  {
    s == "" || exists t :: t in AvailableTypes && Label(t) == s
  }

  /** Kotlin's `Char.isDigit`, restricted to the ASCII digits. */
  predicate IsDigit(c: char)
  {
    '0' <= c <= '9'
  }

  /** Kotlin's `s.all { it.isDigit() }`. */
  predicate AllDigits(s: string)
  {
    forall i :: 0 <= i < |s| ==> IsDigit(s[i])
  }

  /** Kotlin's `Char.isWhitespace` on the JVM: Java's `isWhitespace` or
    * `isSpaceChar`, i.e. the controls U+0009..U+000D and U+001C..U+001F and
    * the Unicode space, line and paragraph separators. */
  predicate IsWhitespace(c: char)
  {
    ('\U{0009}' <= c <= '\U{000D}') || ('\U{001C}' <= c <= '\U{0020}') ||
    c == '\U{00A0}' || c == '\U{1680}' || ('\U{2000}' <= c <= '\U{200A}') ||
    c == '\U{2028}' || c == '\U{2029}' || c == '\U{202F}' || c == '\U{205F}' ||
    c == '\U{3000}'
  }

  /** Kotlin's `CharSequence.isBlank`: empty or whitespace only. */
  predicate IsBlank(s: string)
  {
    forall i :: 0 <= i < |s| ==> IsWhitespace(s[i])
  }

  /** The values the phone field's edit filter lets through. */
  predicate PhoneEditAllowed(s: string)
  {
    |s| <= PhoneLength && AllDigits(s)
  }

  /** The phone field's `onValueChange`: the proposed text replaces the
    * buffer only if it passes the filter; otherwise the buffer stays. */
  function FilterPhone(current: string, proposed: string): (r: string)
    ensures r == proposed || r == current
    ensures r == proposed <==> PhoneEditAllowed(proposed) || proposed == current
    ensures PhoneEditAllowed(current) ==> PhoneEditAllowed(r)
  {
    if PhoneEditAllowed(proposed) then proposed else current
  }

  /** The six remembered state variables of the form. */
  datatype Form = Form(name: string, phone: string, email: string, selectedContactType: string,
                       phoneError: bool, emailError: bool)

  /** The form as it is first composed: empty texts, no type, no error shown. */
  const EmptyForm: Form := Form("", "", "", "", false, false)

  /** The form together with the view model's list of contacts. */
  datatype Screen = Screen(form: Form, contacts: seq<Contact>)

  /** A fresh screen over a fresh view model. */
  const Initial: Screen := Screen(EmptyForm, [])

  /** The user events the screen reacts to. */
  datatype Event =
    | NameChanged(value: string)
    | PhoneChanged(value: string)
    | EmailChanged(value: string)
    | TypeSelected(choice: ContactType)
    | AddClicked

  /** The submit guard: a non-blank name, a phone of exactly ten characters
    * and an email the platform's address pattern matches. The selected type
    * plays no part. */
  predicate Accepts(f: Form, isEmail: string -> bool)
  {
    !IsBlank(f.name) && |f.phone| == PhoneLength && isEmail(f.email)
  }

  /** The contact built from the current (not yet reset) field values. */
  function ContactOf(f: Form): Contact
  {
    Contact(f.name, f.phone, f.email, f.selectedContactType)
  }

  /** The Add Contact button: both error flags are recomputed; if the guard
    * holds, the contact is appended and the four input fields are cleared,
    * otherwise the inputs and the list stay as they were. */
  function Submit(s: Screen, isEmail: string -> bool): (r: Screen)
    ensures r.form.phoneError == (|s.form.phone| != PhoneLength)
    ensures r.form.emailError == !isEmail(s.form.email)
    ensures s.contacts <= r.contacts
    ensures |r.contacts| == |s.contacts| + 1 <==> Accepts(s.form, isEmail)
    ensures Accepts(s.form, isEmail) ==>
              r.contacts == s.contacts + [ContactOf(s.form)] &&
              r.form.name == "" && r.form.phone == "" && r.form.email == "" && r.form.selectedContactType == ""
    ensures !Accepts(s.form, isEmail) ==>
              r.contacts == s.contacts &&
              r.form.name == s.form.name && r.form.phone == s.form.phone &&
              r.form.email == s.form.email && r.form.selectedContactType == s.form.selectedContactType
  {
    var checked := s.form.(phoneError := |s.form.phone| != PhoneLength,
                           emailError := !isEmail(s.form.email));
    if Accepts(s.form, isEmail) then
      Screen(checked.(name := "", phone := "", email := "", selectedContactType := ""),
             s.contacts + [ContactOf(s.form)])
    else
      Screen(checked, s.contacts)
  }

  /** One event applied to the screen. */
  function Step(s: Screen, e: Event, isEmail: string -> bool): Screen
  {
    match e
    case NameChanged(v) => s.(form := s.form.(name := v))
    case PhoneChanged(v) => s.(form := s.form.(phone := FilterPhone(s.form.phone, v)))
    case EmailChanged(v) => s.(form := s.form.(email := v))
    case TypeSelected(t) => s.(form := s.form.(selectedContactType := Label(t)))
    case AddClicked => Submit(s, isEmail)
  }

  /** A sequence of events applied in order. */
  function Run(s: Screen, es: seq<Event>, isEmail: string -> bool): Screen
    decreases |es|
  {
    if es == [] then s else Run(Step(s, es[0], isEmail), es[1..], isEmail)
  }

  /** What every stored contact satisfies at the moment it is added. */
  predicate Admissible(c: Contact, isEmail: string -> bool)
  {
    !IsBlank(c.name) && |c.phone| == PhoneLength && AllDigits(c.phone) &&
    isEmail(c.email) && IsTypeLabel(c.contactType)
  }

  predicate AllAdmissible(cs: seq<Contact>, isEmail: string -> bool)
  {
    forall i :: 0 <= i < |cs| ==> Admissible(cs[i], isEmail)
  }

  /** The screen invariant: the phone buffer passes the entry filter, the
    * selected type is empty or a label, and every stored contact is
    * admissible. */
  predicate Inv(s: Screen, isEmail: string -> bool)
  {
    PhoneEditAllowed(s.form.phone) && IsTypeLabel(s.form.selectedContactType) &&
    AllAdmissible(s.contacts, isEmail)
  }

  /** Every event keeps the invariant. */
  lemma StepPreservesInv(s: Screen, e: Event, isEmail: string -> bool)
    requires Inv(s, isEmail)
    ensures Inv(Step(s, e, isEmail), isEmail)
  {
  }

  /** Any sequence of events keeps the invariant. */
  lemma {:induction false} RunPreservesInv(s: Screen, es: seq<Event>, isEmail: string -> bool)
    requires Inv(s, isEmail)
    ensures Inv(Run(s, es, isEmail), isEmail)
    decreases |es|
  {
    if es != [] {
      StepPreservesInv(s, es[0], isEmail);
      RunPreservesInv(Step(s, es[0], isEmail), es[1..], isEmail);
    }
  }

  /** Whatever keystrokes are attempted, the phone buffer never holds more
    * than ten characters or a non-digit, and every contact ever stored has a
    * non-blank name, a ten-digit phone, a matching email and an allowed type. */
  lemma ReachableScreens(es: seq<Event>, isEmail: string -> bool)
    ensures |Run(Initial, es, isEmail).form.phone| <= PhoneLength
    ensures AllDigits(Run(Initial, es, isEmail).form.phone)
    ensures IsTypeLabel(Run(Initial, es, isEmail).form.selectedContactType)
    ensures AllAdmissible(Run(Initial, es, isEmail).contacts, isEmail)
  {
    RunPreservesInv(Initial, es, isEmail);
  }

  /** The list only grows: every event sequence leaves the earlier list as
    * a prefix. */
  lemma {:induction false} RunOnlyAppends(s: Screen, es: seq<Event>, isEmail: string -> bool)
    ensures s.contacts <= Run(s, es, isEmail).contacts
    decreases |es|
  {
    if es != [] {
      var t := Step(s, es[0], isEmail);
      assert s.contacts <= t.contacts;
      RunOnlyAppends(t, es[1..], isEmail);
    }
  }

  /** The row text of `ContactListItem`. */
  function RowText(c: Contact): (r: string)
    ensures |r| == |c.name| + |c.phone| + |c.email| + |c.contactType| + 9
  {
    c.name + " - " + c.phone + " - " + c.email + " - " + c.contactType
  }

  /** Each field of a row sits at its own offset, with " - " between fields. */
  lemma RowFields(c: Contact)
    ensures var r, p, e, t := RowText(c), |c.name| + 3, |c.name| + |c.phone| + 6,
                              |c.name| + |c.phone| + |c.email| + 9;
            r[..|c.name|] == c.name && r[|c.name|..p] == " - " &&
            r[p..p + |c.phone|] == c.phone && r[p + |c.phone|..e] == " - " &&
            r[e..e + |c.email|] == c.email && r[e + |c.email|..t] == " - " &&
            r[t..] == c.contactType
  {
  }

  /** Which snackbar the click launches. */
  datatype Notice = ContactAddedNotice | InvalidDetailsNotice

  function NoticeOf(f: Form, isEmail: string -> bool): Notice
  {
    if Accepts(f, isEmail) then ContactAddedNotice else InvalidDetailsNotice
  }

  /** The snackbar text, given the value of `name` when the text is built. */
  function NoticeText(n: Notice, nameWhenShown: string): string
  {
    match n
    case ContactAddedNotice => "Contact Added: " + nameWhenShown
    case InvalidDetailsNotice => "Please enter valid details."
  }

  /** As written: the text is built inside the launched coroutine, which runs
    * after the click handler has returned, so it reads `name` after the
    * reset. */
  function NoticeShownAsWritten(s: Screen, isEmail: string -> bool): string
  {
    NoticeText(NoticeOf(s.form, isEmail), Submit(s, isEmail).form.name)
  }

  /** On every accepted submit the as-written notice has lost the name. */
  lemma AsWrittenNoticeLosesName(s: Screen, isEmail: string -> bool)
    requires Accepts(s.form, isEmail)
    ensures NoticeShownAsWritten(s, isEmail) == "Contact Added: "
    ensures NoticeShownAsWritten(s, isEmail) != "Contact Added: " + s.form.name
  {
  }

  /** Corrected: the name is captured before the fields are reset, so the
    * notice names the contact that was just stored. */
  function SubmitNotice(s: Screen, isEmail: string -> bool): (r: string)
    ensures Accepts(s.form, isEmail) ==>
              r == "Contact Added: " + Submit(s, isEmail).contacts[|s.contacts|].name
    ensures !Accepts(s.form, isEmail) ==> r == "Please enter valid details."
  {
    NoticeText(NoticeOf(s.form, isEmail), s.form.name)
  }

  /** Running `xs` and then `ys` is running `xs + ys`. */
  lemma {:induction false} RunConcat(s: Screen, xs: seq<Event>, ys: seq<Event>, isEmail: string -> bool)
    ensures Run(s, xs + ys, isEmail) == Run(Run(s, xs, isEmail), ys, isEmail)
    decreases |xs|
  {
    if xs != [] {
      assert (xs + ys)[0] == xs[0];
      assert (xs + ys)[1..] == xs[1..] + ys;
      RunConcat(Step(s, xs[0], isEmail), xs[1..], ys, isEmail);
    } else {
      assert xs + ys == ys;
    }
  }

  /** Filling in the four inputs and pressing Add Contact. */
  function Entry(name: string, phone: string, email: string, t: ContactType): seq<Event>
  {
    [NameChanged(name), PhoneChanged(phone), EmailChanged(email), TypeSelected(t), AddClicked]
  }

  /** Entering valid details appends exactly that contact and leaves an
    * empty form with no error flag set. */
  lemma EntryAdds(s: Screen, name: string, phone: string, email: string, t: ContactType,
                  isEmail: string -> bool)
    requires !IsBlank(name) && |phone| == PhoneLength && AllDigits(phone) && isEmail(email)
    ensures Run(s, Entry(name, phone, email, t), isEmail)
            == Screen(EmptyForm, s.contacts + [Contact(name, phone, email, Label(t))])
  {
    var es := Entry(name, phone, email, t);
    var s1 := Step(s, es[0], isEmail);
    var s2 := Step(s1, es[1], isEmail);
    var s3 := Step(s2, es[2], isEmail);
    var s4 := Step(s3, es[3], isEmail);
    assert s4.form.phone == phone;
    assert Accepts(s4.form, isEmail);
    assert Run(s, es, isEmail) == Run(s1, es[1..], isEmail);
    assert Run(s1, es[1..], isEmail) == Run(s2, es[2..], isEmail);
    assert Run(s2, es[2..], isEmail) == Run(s3, es[3..], isEmail);
    assert Run(s3, es[3..], isEmail) == Run(s4, es[4..], isEmail);
    assert Run(s4, es[4..], isEmail) == Run(Submit(s4, isEmail), [], isEmail);
  }

  /** Entering contact A and then contact B stores A immediately before B. */
  lemma EntriesKeepOrder(s: Screen, a: Contact, ta: ContactType, b: Contact, tb: ContactType,
                         isEmail: string -> bool)
    requires Admissible(a, isEmail) && a.contactType == Label(ta)
    requires Admissible(b, isEmail) && b.contactType == Label(tb)
    ensures Run(s, Entry(a.name, a.phone, a.email, ta) + Entry(b.name, b.phone, b.email, tb), isEmail).contacts
            == s.contacts + [a, b]
  {
    var ea, eb := Entry(a.name, a.phone, a.email, ta), Entry(b.name, b.phone, b.email, tb);
    RunConcat(s, ea, eb, isEmail);
    EntryAdds(s, a.name, a.phone, a.email, ta, isEmail);
    var mid := Run(s, ea, isEmail);
    EntryAdds(mid, b.name, b.phone, b.email, tb, isEmail);
  }

  /** Ada, 1234567890, ada@example.com, Friend: one contact with exactly
    * those fields, then every input field cleared. */
  lemma AdaIsAdded(isEmail: string -> bool)
    requires isEmail("ada@example.com")
    ensures Run(Initial, [NameChanged("Ada"), PhoneChanged("1234567890"),
                          EmailChanged("ada@example.com"), TypeSelected(Friend), AddClicked], isEmail)
            == Screen(EmptyForm, [Contact("Ada", "1234567890", "ada@example.com", "Friend")])
  {
    var s1 := Step(Initial, NameChanged("Ada"), isEmail);
    var s2 := Step(s1, PhoneChanged("1234567890"), isEmail);
    assert AllDigits("1234567890");
    var s3 := Step(s2, EmailChanged("ada@example.com"), isEmail);
    var s4 := Step(s3, TypeSelected(Friend), isEmail);
    assert !IsWhitespace("Ada"[0]);
    assert Accepts(s4.form, isEmail);
  }
}
