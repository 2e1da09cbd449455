/** The mock sign-in form (src/components/Auth.tsx): every submission is
    accepted and turned into a user record, with fallbacks for an empty
    username or an empty email. */
module Auth {
  import opened Types

  /** The record handed to `onLogin`. */
  datatype User = User(username: string, email: string)

  /** The domain appended when no email is given. */
  const FallbackDomain: string := "@feelone.com"

  /** `s.split(sep)[0]`: the text before the first `sep`, or all of `s`
      when `sep` does not occur. */
  function BeforeFirst(s: string, sep: char): (r: string)
    ensures r <= s
    ensures sep !in r
    ensures |r| < |s| ==> s[|r|] == sep
  {
    if s == [] || s[0] == sep then [] else [s[0]] + BeforeFirst(s[1..], sep)
  }

  /** The local part of an address is recovered from it. */
  lemma {:induction false} BeforeFirstOfAddress(local: string, domain: string)
    requires '@' !in local
    ensures BeforeFirst(local + "@" + domain, '@') == local
  {
    if local != [] {
      assert (local + "@" + domain)[1..] == local[1..] + "@" + domain;
      BeforeFirstOfAddress(local[1..], domain);
    }
  }

  /** JavaScript's `a || b` on strings: the empty string is falsy. */
  function OrElse(a: string, b: string): (r: string)
    ensures r == a || r == b
    ensures r == "" <==> a == "" && b == ""
    ensures a != "" ==> r == a
  {
    if a != "" then a else b
  }

  /** `handleSubmit`'s record: the username, or failing that the email's text
      before its first '@'; the email, or failing that the raw username
      followed by "@feelone.com". */
  function BuildUser(username: string, email: string): (u: User)
    ensures username != "" ==> u.username == username
    ensures username == "" ==> u.username <= email && '@' !in u.username
                               && (|u.username| < |email| ==> email[|u.username|] == '@')
    ensures email != "" ==> u.email == email
    ensures email == "" ==> u.email == username + FallbackDomain
  {
    User(OrElse(username, BeforeFirst(email, '@')), OrElse(email, username + FallbackDomain))
  }

  /** With no username, the username is the local part of the address. */
  lemma UsernameFromAddress(local: string, domain: string)
    requires '@' !in local
    ensures BuildUser("", local + "@" + domain) == User(local, local + "@" + domain)
  {
    BeforeFirstOfAddress(local, domain);
  }

  /** With no '@' in the email, the whole email is the username. */
  lemma UsernameFromPlainEmail(email: string)
    requires email != "" && '@' !in email
    ensures BuildUser("", email) == User(email, email)
  {
  }

  /** Two empty fields still give a record. */
  lemma BothEmpty()
    ensures BuildUser("", "") == User("", "@feelone.com")
  {
  }

  /** The form's state cells. */
  class Auth {
    var isLogin: bool
    var email: string
    var username: string
    var password: string

    constructor ()
      ensures isLogin && email == "" && username == "" && password == ""
    {
      isLogin, email, username, password := true, "", "", "";
    }

    method SetEmail(v: string)
      modifies this
      ensures email == v
      ensures isLogin == old(isLogin) && username == old(username) && password == old(password)
    {
      email := v;
    }

    method SetUsername(v: string)
      modifies this
      ensures username == v
      ensures isLogin == old(isLogin) && email == old(email) && password == old(password)
    {
      username := v;
    }

    method SetPassword(v: string)
      modifies this
      ensures password == v
      ensures isLogin == old(isLogin) && email == old(email) && username == old(username)
    {
      password := v;
    }

    /** The "Sign up" / "Log in" link flips the mode and nothing else. */
    method ToggleMode()
      modifies this
      ensures isLogin == !old(isLogin)
      ensures email == old(email) && username == old(username) && password == old(password)
    {
      isLogin := !isLogin;
    }

    /** `handleSubmit`: always produces exactly one record for `onLogin`;
        the password and the mode play no part. */
    method HandleSubmit() returns (user: User)
      ensures user == BuildUser(username, email)
      ensures username != "" ==> user.username == username
      ensures email != "" ==> user.email == email
    {
      user := BuildUser(username, email);
    }

    /** `handleKeyPress`: only the Enter key submits. */
    method HandleKeyPress(key: string) returns (submitted: Option<User>)
      ensures submitted.Some? <==> key == "Enter"
      ensures submitted.Some? ==> submitted.value == BuildUser(username, email)
    {
      if key == "Enter" {
        var user := HandleSubmit();
        submitted := Some(user);
      } else {
        submitted := None;
      }
    }
  }

  /** Pressing the mode link twice restores the mode. */
  method ToggleTwice(form: Auth)
    modifies form
    ensures form.isLogin == old(form.isLogin)
    ensures form.email == old(form.email) && form.username == old(form.username)
    ensures form.password == old(form.password)
  {
    form.ToggleMode();
    form.ToggleMode();
  }
}
