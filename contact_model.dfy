// The contact record that the form builds on a successful submit and that
// the view model stores (com.rahul.parmar.Model.Contact).

module ContactModel {
  /** One accepted contact. The source names the last field `type`, which is a
    * keyword in Dafny, so it is `contactType` here. */
  datatype Contact = Contact(name: string, phone: string, email: string, contactType: string)
}
