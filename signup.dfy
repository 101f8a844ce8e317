/** The sign-up form: four text fields updated one at a time, and a submit
    that calls `signUp` only when the two passwords agree. */
module Signup {
  import opened Common

  /** The keys of `formData`, in the order the form shows them. */
  datatype Field = Username | Email | Password | ConfirmPassword

  /** The `formData` record. */
  datatype FormData = FormData(username: string, email: string, password: string, confirmPassword: string)

  /** `signUp(email, password, username)`. */
  datatype SignUpCall = SignUpCall(email: string, password: string, username: string)

  /** How the `signUp` promise settled: with its `{error}`, or by throwing.
      Neither changes what the form does next. */
  datatype SignUpOutcome = Resolved(error: Option<string>) | Threw

  const EmptyForm: FormData := FormData("", "", "", "")

  /** `formData[field]`. */
  function Get(d: FormData, field: Field): string
  {
    match field
    case Username => d.username
    case Email => d.email
    case Password => d.password
    case ConfirmPassword => d.confirmPassword
  }

  /** `{ ...prev, [field]: value }`: the named field takes the value and the
      other three keep theirs. */
  function Update(d: FormData, field: Field, value: string): (r: FormData)
    ensures Get(r, field) == value
    ensures forall g :: g != field ==> Get(r, g) == Get(d, g)
  {
    match field
    case Username => d.(username := value)
    case Email => d.(email := value)
    case Password => d.(password := value)
    case ConfirmPassword => d.(confirmPassword := value)
  }

  /** A form is determined by what its four fields read. */
  lemma FormExtensional(d1: FormData, d2: FormData)
    requires forall f :: Get(d1, f) == Get(d2, f)
    ensures d1 == d2
  {
    assert Get(d1, Username) == Get(d2, Username);
    assert Get(d1, Email) == Get(d2, Email);
    assert Get(d1, Password) == Get(d2, Password);
    assert Get(d1, ConfirmPassword) == Get(d2, ConfirmPassword);
  }

  /** Typing into a field twice keeps only the second value. */
  lemma UpdateOverwrites(d: FormData, f: Field, a: string, b: string)
    ensures Update(Update(d, f, a), f, b) == Update(d, f, b)
  {
    var l := Update(Update(d, f, a), f, b);
    var r := Update(d, f, b);
    assert forall g :: Get(l, g) == Get(r, g);
    FormExtensional(l, r);
  }

  /** Edits to two different fields can happen in either order. */
  lemma UpdateCommutes(d: FormData, f: Field, a: string, g: Field, b: string)
    requires f != g
    ensures Update(Update(d, f, a), g, b) == Update(Update(d, g, b), f, a)
  {
    var l := Update(Update(d, f, a), g, b);
    var r := Update(Update(d, g, b), f, a);
    assert forall h :: Get(l, h) == Get(r, h);
    FormExtensional(l, r);
  }

  /** The validator in front of the call: the two passwords compared
      exactly, with no trimming. The call made when they agree carries the
      email, the password and the username, in that order. */
  function SignUpRequest(d: FormData): (r: Option<SignUpCall>)
    ensures r.Some? <==> d.password == d.confirmPassword
    ensures r.Some? ==> r.value.email == d.email && r.value.password == d.password && r.value.username == d.username
  {
    if d.password != d.confirmPassword then None else Some(SignUpCall(d.email, d.password, d.username))
  }

  /** The effect on `user`: a signed-in user is sent to the home page. */
  function Redirect(user: Option<User>): (r: Option<string>)
    ensures r.Some? <==> user.Some?
    ensures r.Some? ==> r.value == "/"
  {
    if user.Some? then Some("/") else None
  }

  class SignupForm {
    var formData: FormData
    var loading: bool

    constructor ()
      ensures formData == EmptyForm && !loading
    {
      formData := EmptyForm;
      loading := false;
    }

    /** `handleInputChange(field, value)`. */
    method InputChange(field: Field, value: string)
      modifies this
      ensures formData == Update(old(formData), field, value)
      ensures loading == old(loading)
    {
      formData := Update(formData, field, value);
    }

    /** `handleSignup`: returns the `signUp` call made, if any. A mismatch
        returns before anything changes; otherwise `loading` is set around
        the call and is false afterwards however `outcome` turned out. */
    method Submit(outcome: SignUpOutcome) returns (call: Option<SignUpCall>)
      modifies this
      ensures call == SignUpRequest(old(formData))
      ensures call.None? ==> unchanged(this)
      ensures call.Some? ==> !loading
      ensures formData == old(formData)
    {
      if formData.password != formData.confirmPassword {
        return None;
      }
      loading := true;
      call := Some(SignUpCall(formData.email, formData.password, formData.username));
      loading := false;
    }
  }

  /** Filling in a fresh form field by field and submitting it: `signUp`
      is called with what was typed exactly when the two passwords typed
      are the same, and the form is not left loading. */
  method FillAndSubmit(username: string, email: string, password: string, confirmation: string, outcome: SignUpOutcome)
    returns (call: Option<SignUpCall>, loading: bool)
    ensures call.Some? <==> password == confirmation
    ensures call.Some? ==> call.value == SignUpCall(email, password, username)
    ensures !loading
  {
    var form := new SignupForm();
    form.InputChange(Username, username);
    form.InputChange(Email, email);
    form.InputChange(Password, password);
    form.InputChange(ConfirmPassword, confirmation);
    call := form.Submit(outcome);
    loading := form.loading;
  }
}
