/**
 * The login form (src/pages/Login.jsx): its validation, and a submit that
 * calls the session store's `login` only for a valid form and clears the
 * form when the login succeeds.
 */
module Login {
  import opened Client
  import Js
  import AuthContext
  import Signup

  const BlankMessage := "Please fill in all fields."

  /** `validateForm`: both fields must be non-blank, then the e-mail must
      match the same pattern the registration form uses. */
  function ValidateForm(email: string, password: string): (v: Signup.Verdict)
    ensures v == Signup.Accepted <==>
      Js.Trim(email) != "" && Js.Trim(password) != "" && Signup.IsEmail(email)
    ensures v.Rejected? ==> v.message in {BlankMessage, Signup.EmailMessage}
  {
    if Js.Trim(email) == "" || Js.Trim(password) == "" then Signup.Rejected(BlankMessage)
    else if !Signup.IsEmail(email) then Signup.Rejected(Signup.EmailMessage)
    else Signup.Accepted
  }

  /** A password made of white space only is refused as blank, whatever
      the e-mail. */
  lemma BlankPasswordRefused(email: string, password: string)
    requires forall i :: 0 <= i < |password| ==> Js.IsWhitespace(password[i])
    ensures ValidateForm(email, password) == Signup.Rejected(BlankMessage)
  {
  }

  /** The blank check comes first: a malformed e-mail is reported as such
      only when neither field is blank. */
  lemma BlankCheckFirst(email: string, password: string)
    ensures ValidateForm(email, password) == Signup.Rejected(Signup.EmailMessage) <==>
      Js.Trim(email) != "" && Js.Trim(password) != "" && !Signup.IsEmail(email)
  {
  }

  /** The page's state. */
  class Page {
    var email: string
    var password: string
    var isLoading: bool
    var events: seq<Event>

    constructor ()
      ensures email == "" && password == "" && !isLoading && events == []
    {
      email, password := "", "";
      isLoading := false;
      events := [];
    }

    /** `handleSubmit`: an invalid form toasts its message and `login` is
        not called; otherwise `login` runs, and when it succeeds the form
        is cleared and the page goes to /dashboard. */
    method Submit(auth: AuthContext.AuthProvider, response: Outcome<AuthContext.LoginBody>,
                  serialize: AuthContext.UserData -> string) returns (called: bool)
      modifies this, auth
      ensures called <==> ValidateForm(old(email), old(password)) == Signup.Accepted
      ensures !called ==>
        && email == old(email) && password == old(password) && isLoading == old(isLoading)
        && events == old(events) + [Toast(Error, ValidateForm(old(email), old(password)).message)]
        && auth.store == old(auth.store) && auth.user == old(auth.user)
        && auth.loading == old(auth.loading) && auth.events == old(auth.events)
      ensures called && response.Reply? && response.body.user.Some? ==>
        var u := AuthContext.ToUserData(response.body.user.value);
        && email == "" && password == ""
        && auth.store == AuthContext.LoggedIn(old(auth.store), response.body.token, u, serialize)
        && auth.user == Some(u)
        && auth.events == old(auth.events) + [Request("POST", "/auth/login"), Toast(Success, "Welcome back, " + u.fullName + "!")]
        && events == old(events) + [Navigate("/dashboard")]
      ensures called && !(response.Reply? && response.body.user.Some?) ==>
        && email == old(email) && password == old(password)
        && auth.store == old(auth.store) && auth.user == old(auth.user)
        && auth.events == old(auth.events) + [Request("POST", "/auth/login"),
             Toast(Error, if response.Failure? then MessageOr(response.error, "Login failed") else "Login failed")]
        && events == old(events)
      ensures called ==> auth.loading == old(auth.loading)
      ensures called ==> !isLoading
    {
      var verdict := ValidateForm(email, password);
      if verdict.Rejected? {
        events := events + [Toast(Error, verdict.message)];
        return false;
      }
      called := true;
      isLoading := true;
      var success := auth.Login(response, serialize);
      if success {
        email, password := "", "";
        events := events + [Navigate("/dashboard")];
      }
      isLoading := false;
    }
  }
}
