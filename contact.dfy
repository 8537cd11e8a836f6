/** The contact page of app/contact/page.tsx: its schema and the submit
    handler, which resets the form after a (simulated) send. */
module Contact {
  import opened Validations

  datatype ContactForm = ContactForm(name: string, email: string, subject: string, message: string)

  /** The form's default values. */
  const EmptyForm: ContactForm := ContactForm("", "", "", "")

  /** `contactSchema`. */
  function ContactIssues(f: ContactForm, isEmail: string -> bool): (issues: seq<Issue>)
    ensures issues == [] <==>
              MinLength(f.name, 2) && isEmail(f.email) && MinLength(f.subject, 5) && MinLength(f.message, 20)
    ensures !MinLength(f.name, 2) ==> Issue("name", "Name must be at least 2 characters") in issues
    ensures !isEmail(f.email) ==> Issue("email", "Please enter a valid email address") in issues
    ensures !MinLength(f.subject, 5) ==> Issue("subject", "Subject must be at least 5 characters") in issues
    ensures !MinLength(f.message, 20) ==> Issue("message", "Message must be at least 20 characters") in issues
  {
    var a := Check(MinLength(f.name, 2), "name", "Name must be at least 2 characters");
    var b := Check(isEmail(f.email), "email", "Please enter a valid email address");
    var c := Check(MinLength(f.subject, 5), "subject", "Subject must be at least 5 characters");
    var d := Check(MinLength(f.message, 20), "message", "Message must be at least 20 characters");
    assert a + b + c + d == a + (b + (c + d));
    a + b + c + d
  }

  /** The page state: the form's values and the `loading` flag. */
  class ContactPage {
    var form: ContactForm
    var loading: bool

    constructor ()
      ensures form == EmptyForm && !loading
    {
      form := EmptyForm;
      loading := false;
    }

    /** The user types into the form. */
    method Edit(values: ContactForm)
      modifies this
      ensures form == values && loading == old(loading)
    {
      form := values;
    }

    /** `form.handleSubmit(onSubmit)`: a form the schema rejects is left as it
        is and not sent; an accepted one is sent, the form is reset to its
        default values and `loading` ends false. */
    method Submit(isEmail: string -> bool) returns (sent: bool)
      modifies this
      ensures sent <==> ContactIssues(old(form), isEmail) == []
      ensures sent ==> form == EmptyForm && !loading
      ensures !sent ==> form == old(form) && loading == old(loading)
    {
      if ContactIssues(form, isEmail) != [] {
        return false;
      }
      loading := true;
      form := EmptyForm;
      loading := false;
      return true;
    }
  }
}
