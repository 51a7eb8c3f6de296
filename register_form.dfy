/**
 * The sign-up form: three checks run in order before the account is
 * requested, and the fields are cleared once it is created. Whether the
 * request succeeds is a parameter.
 */
module RegisterForm {
  import opened Wrappers

  /** The shortest password the form accepts. */
  const MinPasswordLength: nat := 6

  /** The three ways the form refuses to submit, in the order they are checked. */
  datatype FormError = MissingField | PasswordMismatch | PasswordTooShort

  /** The notification shown for each refusal. */
  function Message(e: FormError): string {
    match e
    case MissingField => "Por favor, preencha todos os campos"
    case PasswordMismatch => "As senhas não coincidem"
    case PasswordTooShort => "A senha deve ter pelo menos 6 caracteres"
  }

  /** The early returns of `handleSubmit`: the first failing check wins. */
  function Check(name: string, email: string, password: string, confirmPassword: string): Option<FormError> {
    if name == "" || email == "" || password == "" || confirmPassword == "" then Some(MissingField)
    else if password != confirmPassword then Some(PasswordMismatch)
    else if |password| < MinPasswordLength then Some(PasswordTooShort)
    else None
  }

  /**
   * Each refusal happens exactly when its check fails and every earlier one
   * passes, and the form goes through exactly when all three pass.
   */
  lemma CheckOrder(name: string, email: string, password: string, confirmPassword: string)
    ensures var anyEmpty := name == "" || email == "" || password == "" || confirmPassword == "";
      && (Check(name, email, password, confirmPassword) == Some(MissingField) <==> anyEmpty)
      && (Check(name, email, password, confirmPassword) == Some(PasswordMismatch) <==>
            !anyEmpty && password != confirmPassword)
      && (Check(name, email, password, confirmPassword) == Some(PasswordTooShort) <==>
            !anyEmpty && password == confirmPassword && |password| < MinPasswordLength)
      && (Check(name, email, password, confirmPassword) == None <==>
            !anyEmpty && password == confirmPassword && |password| >= MinPasswordLength)
  {
  }

  /** The three refusals show three different messages. */
  lemma MessagesDistinct(a: FormError, b: FormError)
    requires a != b
    ensures Message(a) != Message(b)
  {
    assert |Message(MissingField)| == 35;
    assert |Message(PasswordMismatch)| == 23;
    assert |Message(PasswordTooShort)| == 40;
  }

  /** What a submission did: refused with a message, or asked the server for the account. */
  datatype Submission = Refused(error: FormError) | Requested(name: string, email: string, password: string, created: bool)

  /** The form's state. */
  class Form {
    var name: string
    var email: string
    var password: string
    var confirmPassword: string
    var isSubmitting: bool

    constructor ()
      ensures name == "" && email == "" && password == "" && confirmPassword == "" && !isSubmitting
    {
      name, email, password, confirmPassword := "", "", "", "";
      isSubmitting := false;
    }

    /**
     * `handleSubmit`: a refused form keeps its fields and calls nothing;
     * otherwise `register` receives the name, e-mail and password, and a
     * created account clears all four fields. A request leaves the
     * submitting flag down whatever its outcome; a refusal leaves it alone.
     */
    method HandleSubmit(created: bool) returns (r: Submission)
      modifies this
      ensures var e := Check(old(name), old(email), old(password), old(confirmPassword));
        && (e.Some? ==> r == Refused(e.value))
        && (e.None? ==> r == Requested(old(name), old(email), old(password), created))
      ensures r.Refused? ==> isSubmitting == old(isSubmitting)
      ensures r.Requested? ==> !isSubmitting
      ensures r.Requested? && created ==> name == "" && email == "" && password == "" && confirmPassword == ""
      ensures !(r.Requested? && created) ==>
        name == old(name) && email == old(email) && password == old(password) && confirmPassword == old(confirmPassword)
    {
      if name == "" || email == "" || password == "" || confirmPassword == "" {
        return Refused(MissingField);
      }
      if password != confirmPassword {
        return Refused(PasswordMismatch);
      }
      if |password| < MinPasswordLength {
        return Refused(PasswordTooShort);
      }
      isSubmitting := true;
      r := Requested(name, email, password, created);
      if created {
        name := "";
        email := "";
        password := "";
        confirmPassword := "";
      }
      isSubmitting := false;
    }
  }
}
