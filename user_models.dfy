/** The user schema: an e-mail address and a 64-character password digest, nothing else settable. */
module UserModels {
  import opened Wrappers
  import opened Json
  import opened HttpErrors
  import opened Schema
  import Formats

  const DigestLength: nat := 64

  const UserBody: Shape := [
    ("id", Never),
    ("email", Text(true, [Email])),
    ("password", Text(true, [Length(DigestLength), Min(DigestLength)])),
    ("createdAt", Never),
    ("updatedAt", Never)
  ]

  lemma UserBodyHasDistinctKeys()
    ensures NoDuplicateKeys(UserBody)
  {
  }

  /** A parsed user body as the handlers read it. */
  datatype Credentials = Credentials(email: string, password: string)

  /** The handlers' view of a conforming body: a well-formed address and a digest of the right length. */
  function CredentialsOf(v: Value): (c: Credentials)
    requires Conforms(UserBody, v)
    ensures Get(v, "email") == Some(Str(c.email)) && Formats.IsEmail(c.email)
    ensures Get(v, "password") == Some(Str(c.password)) && |c.password| == DigestLength
  {
    RequiredTextConforms(UserBody, v, 1);
    RequiredTextConforms(UserBody, v, 2);
    var email := v.fields["email"].s;
    var password := v.fields["password"].s;
    assert CheckIssues(UserBody[1].1.checks[0], email) == [];
    assert CheckIssues(UserBody[2].1.checks[0], password) == [];
    Credentials(email, password)
  }

  /** The user schema followed by the handlers' reading of its output. */
  function ParseCredentials(v: Value): (r: Result<Credentials, seq<Issue>>)
    ensures r.Ok? <==> ParseObject(UserBody, v, false).Ok?
    ensures r.Err? ==> r == Err(ParseObject(UserBody, v, false).error)
  {
    match ParseObject(UserBody, v, false)
    case Err(issues) => Err(issues)
    case Ok(o) =>
      UserBodyHasDistinctKeys();
      ParsedConforms(UserBody, v, false);
      Ok(CredentialsOf(o))
  }

  /**
   * A user body is accepted exactly when it is an object with no identifier or timestamp, a
   * well-formed address and a password of exactly 64 characters.
   */
  lemma UserAccepted(v: Value)
    ensures ParseObject(UserBody, v, false).Ok? <==>
              && v.Obj?
              && "id" !in v.fields && "createdAt" !in v.fields && "updatedAt" !in v.fields
              && "email" in v.fields && v.fields["email"].Str? && Formats.IsEmail(v.fields["email"].s)
              && "password" in v.fields && v.fields["password"].Str? && |v.fields["password"].s| == DigestLength
  {
    if v.Obj? {
      RefusedIffSomeKeyRefused(UserBody, v, false);
      assert UserBody[0].0 == "id" && UserBody[1].0 == "email" && UserBody[2].0 == "password";
      assert UserBody[3].0 == "createdAt" && UserBody[4].0 == "updatedAt";
      if "email" in v.fields && v.fields["email"].Str? {
        var e := v.fields["email"].s;
        assert AllCheckIssues([Email], e) == CheckIssues(Email, e);
      }
      if "password" in v.fields && v.fields["password"].Str? {
        var p := v.fields["password"].s;
        assert AllCheckIssues([Length(DigestLength), Min(DigestLength)], p)
          == CheckIssues(Length(DigestLength), p) + CheckIssues(Min(DigestLength), p);
      }
    }
  }

  /** A short digest such as "3213213" is refused twice over: for its exact length and its minimum. */
  lemma ShortPasswordRefused(v: Value)
    requires v.Obj? && "password" in v.fields && v.fields["password"] == Str("3213213")
    ensures ParseObject(UserBody, v, false).Err?
    ensures Issue(["password"], TooSmall(DigestLength, true)) in ParseObject(UserBody, v, false).error
  {
    var p := "3213213";
    assert AllCheckIssues([Length(DigestLength), Min(DigestLength)], p)
      == [TooSmall(DigestLength, true), TooSmall(DigestLength, false)];
    assert Lookup(v.fields, UserBody[2].0) == Some(Str(p));
    FieldErrorReported(UserBody, v.fields, 2);
  }

  /** An address that is not well formed is refused, at the email key. */
  lemma {:induction false} MalformedEmailRefused(v: Value, e: string)
    requires v.Obj? && "email" in v.fields && v.fields["email"] == Str(e) && !Formats.IsEmail(e)
    ensures ParseObject(UserBody, v, false).Err?
    ensures Issue(["email"], InvalidString("email")) in ParseObject(UserBody, v, false).error
  {
    assert AllCheckIssues([Email], e) == [InvalidString("email")];
    assert Lookup(v.fields, UserBody[1].0) == Some(Str(e));
    FieldErrorReported(UserBody, v.fields, 1);
  }

  /** The malformed address of the signup and signin tests is refused. */
  lemma WrongEmailRefused(v: Value)
    requires v.Obj? && "email" in v.fields && v.fields["email"] == Str("wrong.email.com@")
    ensures ParseObject(UserBody, v, false).Err?
  {
    Formats.WrongEmailRejected();
    MalformedEmailRefused(v, "wrong.email.com@");
  }

  /** Both the address and the password are required. */
  lemma CredentialsRequired(v: Value)
    requires v.Obj? && ("email" !in v.fields || "password" !in v.fields)
    ensures ParseObject(UserBody, v, false).Err?
  {
    UserAccepted(v);
  }
}
