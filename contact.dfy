/**
 * The contact form of the Contact section: a three-field record replaced one
 * field at a time by the inputs and cleared on submit.
 */
module Contact {

  datatype FormData = FormData(name: string, email: string, message: string)

  const EmptyForm: FormData := FormData("", "", "")

  /** The name input's `onChange`. */
  function WithName(f: FormData, v: string): (r: FormData)
    ensures r.name == v && r.email == f.email && r.message == f.message
  {
    f.(name := v)
  }

  /** The email input's `onChange`. */
  function WithEmail(f: FormData, v: string): (r: FormData)
    ensures r.email == v && r.name == f.name && r.message == f.message
  {
    f.(email := v)
  }

  /** The message textarea's `onChange`. */
  function WithMessage(f: FormData, v: string): (r: FormData)
    ensures r.message == v && r.name == f.name && r.email == f.email
  {
    f.(message := v)
  }

  /** `handleSubmit`: every field is emptied, whatever it held. */
  function Submitted(f: FormData): (r: FormData)
    ensures r.name == [] && r.email == [] && r.message == []
  {
    EmptyForm
  }

  /** Submitting twice is the same as submitting once, and a submitted form is the initial one. */
  lemma SubmitIdempotent(f: FormData)
    ensures Submitted(Submitted(f)) == Submitted(f) == EmptyForm
  {
  }

  /** Edits of different fields do not interfere: their order does not matter. */
  lemma EditsCommute(f: FormData, n: string, e: string, m: string)
    ensures WithEmail(WithName(f, n), e) == WithName(WithEmail(f, e), n)
    ensures WithMessage(WithName(f, n), m) == WithName(WithMessage(f, m), n)
    ensures WithMessage(WithEmail(f, e), m) == WithEmail(WithMessage(f, m), e)
  {
  }

  /** The latest edit of a field wins, and filling all three fields gives exactly their values. */
  lemma LastEditWins(f: FormData, v: string, w: string, n: string, e: string, m: string)
    ensures WithName(WithName(f, v), w) == WithName(f, w)
    ensures WithMessage(WithEmail(WithName(f, n), e), m) == FormData(n, e, m)
  {
  }

  class ContactForm {
    var formData: FormData

    constructor ()
      ensures formData == EmptyForm
    {
      formData := EmptyForm;
    }

    method OnNameChange(v: string)
      modifies this
      ensures formData == WithName(old(formData), v)
    {
      formData := formData.(name := v);
    }

    method OnEmailChange(v: string)
      modifies this
      ensures formData == WithEmail(old(formData), v)
    {
      formData := formData.(email := v);
    }

    method OnMessageChange(v: string)
      modifies this
      ensures formData == WithMessage(old(formData), v)
    {
      formData := formData.(message := v);
    }

    method HandleSubmit()
      modifies this
      ensures formData == Submitted(old(formData))
    {
      formData := FormData("", "", "");
    }
  }
}
