/** The password validator and the idealised password hash. */
module PasswordValidator {
  import opened Results
  import opened Strings

  const MIN_PASSWORD_LEN := 8
  const MAX_PASSWORD_LEN := 255

  /** A bcrypt hash, idealised: it remembers what was hashed, so that only that text verifies. */
  datatype PasswordHash = Bcrypt(hashed: string)

  predicate VerifyPassword(password: string, hash: PasswordHash) {
    hash == Bcrypt(password)
  }

  function ValidatePassword(password: Argument): Result<string> {
    if !password.Text? then Err(PasswordNotText)
    else
      var stripped := Strip(password.text);
      if |stripped| < MIN_PASSWORD_LEN then Err(PasswordTooShort)
      else if |stripped| > MAX_PASSWORD_LEN then Err(PasswordTooLong)
      else Ok(stripped)
  }

  function ValidateHashPassword(password: Argument): Result<PasswordHash> {
    var valid :- ValidatePassword(password);
    Ok(Bcrypt(valid))
  }

  /** Which passwords are accepted, by the length of the stripped text, and what is then hashed. */
  lemma PasswordOutcome(password: string)
    ensures ValidateHashPassword(Text(password)) ==
            var stripped := Strip(password);
            if |stripped| < 8 then Err(PasswordTooShort)
            else if |stripped| > 255 then Err(PasswordTooLong)
            else Ok(Bcrypt(stripped))
    ensures ValidateHashPassword(Null) == Err(PasswordNotText) == ValidateHashPassword(NotText)
  {
    hide Strip;
  }

  /**
   * A password that was just set is accepted when it is typed again exactly if it carries no blank
   * at either end: it is stripped before hashing but not before checking.
   */
  lemma SetPasswordVerifiesIffTrimmed(password: string)
    requires ValidateHashPassword(Text(password)).Ok?
    ensures VerifyPassword(password, ValidateHashPassword(Text(password)).value) <==> Trimmed(password)
    ensures VerifyPassword(Strip(password), ValidateHashPassword(Text(password)).value)
  {
    StripFixesTrimmed(password);
  }

  /** A concrete case of the former: the password is accepted with a blank at its end, and then fails with it. */
  lemma AcceptedPasswordCanFail()
    ensures ValidateHashPassword(Text("password ")) == Ok(Bcrypt("password"))
    ensures !VerifyPassword("password ", ValidateHashPassword(Text("password ")).value)
  {
    assert Trimmed("password") && "" + "password" + " " == "password ";
    StripDropsPadding("", "password", " ");
    assert |"password"| != |"password "|;
  }

  /** Padding with blanks never changes what is hashed: the effective length is that of the stripped text. */
  lemma PaddingIsIgnored(front: string, password: string, back: string)
    requires AllSpace(front) && AllSpace(back) && Trimmed(password) && password != ""
    ensures ValidatePassword(Text(front + password + back)) == ValidatePassword(Text(password))
  {
    StripDropsPadding(front, password, back);
    StripDropsPadding("", password, "");
    assert "" + password + "" == password;
  }

  lemma {:induction false} StripDropsPadding(front: string, s: string, back: string)
    requires AllSpace(front) && AllSpace(back) && Trimmed(s) && s != ""
    ensures Strip(front + s + back) == s
    decreases |front| + |back|
  {
    var all := front + s + back;
    if front != "" {
      assert all[1..] == front[1..] + s + back;
      StripDropsPadding(front[1..], s, back);
    } else {
      assert all == s + back && StripLeft(all) == all;
      if back != "" {
        assert all[..|all| - 1] == front + s + back[..|back| - 1];
        StripDropsPadding(front, s, back[..|back| - 1]);
        assert StripLeft(all[..|all| - 1]) == all[..|all| - 1];
      } else {
        assert all == s;
      }
    }
  }
}
