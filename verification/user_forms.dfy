/** The password part of `UserForm` (users/forms.py): both password fields
    are required for a new user and optional when editing one, and `clean`
    rejects a non-empty password that differs from its confirmation. */
module UserForms {
  import opened Base

  /** The ASCII characters `str.strip()` removes: space, tab, the line and
      form feeds, carriage return, and the separators 0x1C to 0x1F. */
  predicate IsSpace(c: char) {
    || c == ' ' || c == '\t' || c == '\n' || c == '\r' || c == '\U{000B}' || c == '\U{000C}'
    || ('\U{001C}' <= c <= '\U{001F}')
  }

  /** `s` without its leading whitespace. */
  function StripLeft(s: string): (r: string)
    ensures |r| <= |s| && r == s[|s| - |r|..]
    ensures forall i :: 0 <= i < |s| - |r| ==> IsSpace(s[i])
    ensures r != [] ==> !IsSpace(r[0])
    decreases |s|
  {
    if s != [] && IsSpace(s[0]) then StripLeft(s[1..]) else s
  }

  /** `s` without its trailing whitespace. */
  function StripRight(s: string): (r: string)
    ensures |r| <= |s| && r == s[..|r|]
    ensures forall i :: |r| <= i < |s| ==> IsSpace(s[i])
    ensures r != [] ==> !IsSpace(r[|r| - 1])
    decreases |s|
  {
    if s != [] && IsSpace(s[|s| - 1]) then StripRight(s[..|s| - 1]) else s
  }

  /** `str.strip()`, as a `CharField` applies it to what was posted. */
  function Strip(s: string): (r: string)
    ensures |r| <= |s|
    ensures r != [] ==> !IsSpace(r[0]) && !IsSpace(r[|r| - 1])
    ensures (forall i :: 0 <= i < |s| ==> IsSpace(s[i])) <==> r == []
  {
    StripBlank(s);
    StripRight(StripLeft(s))
  }

  /** Stripping leaves nothing exactly when the text is all whitespace. */
  lemma StripBlank(s: string)
    ensures (forall i :: 0 <= i < |s| ==> IsSpace(s[i])) <==> StripRight(StripLeft(s)) == []
  {
    var l := StripLeft(s);
    if l != [] {
      // l[0] is no space, so neither side of the equivalence holds
      assert s[|s| - |l|] == l[0] && !IsSpace(l[0]);
    }
  }

  /** `__init__`: the password fields are required exactly when the form's
      user has no primary key yet, i.e. is being created. */
  function PasswordsRequired(hasPk: bool): bool {
    !hasPk
  }

  /** A `CharField` cleaned: the stripped text, or None on a field error
      (the field is then absent from `cleaned_data`). The errors are a
      required field left empty, and a NUL character, which the validator
      every `CharField` carries refuses. */
  function CleanChar(raw: string, required: bool): (r: Option<string>)
    ensures r.None? <==> (required && Strip(raw) == []) || '\0' in Strip(raw)
    ensures r.Some? ==> r.value == Strip(raw) && '\0' !in r.value
  {
    var v := Strip(raw);
    if required && v == [] then None
    else if '\0' in v then None
    else Some(v)
  }

  /** A required field holding only a 0x1F separator is blank. */
  lemma SeparatorIsBlank()
    ensures CleanChar("\U{001F}", true) == None
  {
    assert IsSpace("\U{001F}"[0]);
  }

  const Mismatch: string := "Passwords do not match!"

  /** `clean`: a non-empty password must equal the confirmation as cleaned
      (a confirmation that failed its own check is absent and never equal). */
  function MatchError(password: Option<string>, confirm: Option<string>): (e: Option<string>)
    ensures e.Some? <==> password.Some? && password.value != [] && confirm != password
    ensures e.Some? ==> e.value == Mismatch
  {
    match password
    case Some(p) => if p != [] && confirm != Some(p) then Some(Mismatch) else None
    case None => None
  }

  /** The two cleaned password fields (None = failed, absent). */
  datatype Passwords = Passwords(password: Option<string>, confirm: Option<string>)

  /** The outcome of validating the password fields: whether each field has
      an error, the form-wide error, and the cleaned data `clean` hands back. */
  datatype Validation = Validation(passwordError: bool, confirmError: bool, formError: Option<string>, cleaned: Passwords)

  predicate IsValid(v: Validation) {
    !v.passwordError && !v.confirmError && v.formError.None?
  }

  /** `is_valid()` on the password fields of a UserForm posted for a user
      that `hasPk` or not. */
  function ValidatePasswords(hasPk: bool, rawPassword: string, rawConfirm: string): (v: Validation)
    ensures v.cleaned == Passwords(CleanChar(rawPassword, !hasPk), CleanChar(rawConfirm, !hasPk))
    ensures v.passwordError <==> v.cleaned.password.None?
    ensures v.confirmError <==> v.cleaned.confirm.None?
    ensures v.formError == MatchError(v.cleaned.password, v.cleaned.confirm)
  {
    var required := PasswordsRequired(hasPk);
    var p := CleanChar(rawPassword, required);
    var c := CleanChar(rawConfirm, required);
    Validation(p.None?, c.None?, MatchError(p, c), Passwords(p, c))
  }

  /** The whole rule in one statement: the form is valid exactly when an
      existing user, or both fields filled in, neither holds a NUL, and the
      password is either empty or equal to its confirmation. */
  lemma ValidExactly(hasPk: bool, rawPassword: string, rawConfirm: string)
    ensures var p, c := Strip(rawPassword), Strip(rawConfirm);
      IsValid(ValidatePasswords(hasPk, rawPassword, rawConfirm))
      <==> (hasPk || (p != [] && c != [])) && '\0' !in p && '\0' !in c && (p == [] || p == c)
  {
  }

  /** An empty password skips the match check, whatever the confirmation. */
  lemma EmptyPasswordNotCompared(hasPk: bool, rawPassword: string, rawConfirm: string)
    requires Strip(rawPassword) == []
    ensures ValidatePasswords(hasPk, rawPassword, rawConfirm).formError == None
  {
  }

  /** A non-empty password differing from the confirmation is refused, for
      a new or an existing user: with "Passwords do not match!" when the
      password itself is clean, and by its own field error when it holds a
      NUL (the field is then dropped and `clean` compares nothing). */
  lemma MismatchRefused(hasPk: bool, rawPassword: string, rawConfirm: string)
    requires Strip(rawPassword) != [] && Strip(rawPassword) != Strip(rawConfirm)
    ensures '\0' !in Strip(rawPassword) ==> ValidatePasswords(hasPk, rawPassword, rawConfirm).formError == Some(Mismatch)
    ensures '\0' in Strip(rawPassword) ==>
      && ValidatePasswords(hasPk, rawPassword, rawConfirm).formError == None
      && ValidatePasswords(hasPk, rawPassword, rawConfirm).passwordError
    ensures !IsValid(ValidatePasswords(hasPk, rawPassword, rawConfirm))
  {
  }

  /** Editing a user never fails on a blank password, only on a NUL;
      creating one fails on either. */
  lemma RequiredOnlyForNewUsers(rawPassword: string, rawConfirm: string)
    ensures ValidatePasswords(true, rawPassword, rawConfirm).passwordError <==> '\0' in Strip(rawPassword)
    ensures ValidatePasswords(true, rawPassword, rawConfirm).confirmError <==> '\0' in Strip(rawConfirm)
    ensures ValidatePasswords(false, rawPassword, rawConfirm).passwordError
        <==> Strip(rawPassword) == [] || '\0' in Strip(rawPassword)
  {
  }

  /** Two identical passwords holding a NUL are refused. */
  lemma NulPasswordRefused()
    ensures !IsValid(ValidatePasswords(false, "\0", "\0"))
    ensures !IsValid(ValidatePasswords(true, "a\0", "a\0"))
  {
    assert !IsSpace("\0"[0]);
    assert !IsSpace("a\0"[0]) && !IsSpace("a\0"[1]);
  }
}
