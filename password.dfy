/**
 * Setting a new password after a reset link (src/Entry/UpdatePassword.jsx):
 * three checks in order, then one request to the authentication service,
 * whose answer is an input here.
 */
module PasswordReset {
  import opened Wrappers

  const MinLength := 6
  const EmptyText := "Please enter a new password"
  const ShortText := "Password must be at least 6 characters long"
  const MismatchText := "Passwords do not match"
  const SuccessText := "Password updated successfully! You can now login."

  /** The UTF-16 code units of one character: two for a character outside the Basic Multilingual Plane. */
  function CodeUnits(c: char): nat {
    if c as int > 0xFFFF then 2 else 1
  }

  /** JavaScript's `length`: the number of UTF-16 code units of the string. */
  function Utf16Length(s: string): (n: nat)
    ensures |s| <= n <= 2 * |s|
    ensures n == 0 <==> s == ""
  {
    if s == [] then 0 else CodeUnits(s[0]) + Utf16Length(s[1..])
  }

  /** The length of a concatenation is the sum of the lengths, so each character contributes its own code units. */
  lemma {:induction false} Utf16LengthConcat(a: string, b: string)
    ensures Utf16Length(a + b) == Utf16Length(a) + Utf16Length(b)
  {
    if a == [] {
      assert a + b == b;
    } else {
      assert (a + b)[1..] == a[1..] + b;
      Utf16LengthConcat(a[1..], b);
    }
  }

  /** One character is one code unit in the Basic Multilingual Plane and two above it. */
  lemma Utf16LengthOfChar(c: char)
    ensures Utf16Length([c]) == (if c as int > 0xFFFF then 2 else 1)
  {
    assert [c][1..] == [];
  }

  /** The message of the first failing check, or `None` when every check passes. */
  function Check(password: string, confirmation: string): (r: Option<string>)
    ensures password == "" ==> r == Some(EmptyText)
    ensures password != "" && Utf16Length(password) < MinLength ==> r == Some(ShortText)
    ensures Utf16Length(password) >= MinLength && password != confirmation ==> r == Some(MismatchText)
    ensures r == None <==> Utf16Length(password) >= MinLength && password == confirmation
  {
    if password == "" then Some(EmptyText)
    else if Utf16Length(password) < MinLength then Some(ShortText)
    else if password != confirmation then Some(MismatchText)
    else None
  }

  /**
   * A password the checks accept matches its confirmation and has at least
   * six code units, hence at least three characters.
   */
  lemma AcceptedIsLongAndConfirmed(password: string, confirmation: string)
    requires Check(password, confirmation).None?
    ensures password == confirmation && Utf16Length(password) >= MinLength
    ensures 2 * |password| >= MinLength && password != ""
  {
  }

  /** Three emoji make six code units, so the length check lets them through. */
  lemma ThreeEmojiAccepted()
    ensures Check("\U{1F600}\U{1F600}\U{1F600}", "\U{1F600}\U{1F600}\U{1F600}").None?
  {
    var s := "\U{1F600}\U{1F600}\U{1F600}";
    assert s[1..][1..][1..] == [];
    assert Utf16Length(s) == 6;
  }

  /** Where the page leads after a successful update. */
  datatype Path = Login

  /** The page's state: the loading flag. */
  class UpdatePasswordPage {
    var loading: bool

    constructor ()
      ensures !loading
    {
      loading := false;
    }

    /**
     * `handleUpdatePassword`. `serviceError` is the error the update request
     * answers with, if any. `sent` is the password passed to the request, made
     * only when every check passes and made with `loading` set.
     */
    method Update(password: string, confirmation: string, serviceError: Option<string>)
      returns (sent: Option<string>, sentWhileLoading: bool, alert: string, nav: Option<Path>)
      modifies this
      ensures sent.Some? <==> Check(password, confirmation).None?
      ensures sent.Some? ==> sent.value == password && sentWhileLoading && !loading
      ensures sent.None? ==> alert == Check(password, confirmation).value && nav.None? && loading == old(loading)
      ensures sent.Some? ==> alert == (if serviceError.Some? then serviceError.value else SuccessText)
      ensures sent.Some? ==> (nav == Some(Login) <==> serviceError.None?)
    {
      sentWhileLoading := false;
      nav := None;
      if password == "" {
        return None, false, EmptyText, None;
      }
      if Utf16Length(password) < MinLength {
        return None, false, ShortText, None;
      }
      if password != confirmation {
        return None, false, MismatchText, None;
      }
      loading := true;
      sent := Some(password);
      sentWhileLoading := loading;
      if serviceError.Some? {
        alert := serviceError.value;
      } else {
        alert := SuccessText;
        nav := Some(Login);
      }
      loading := false;
    }
  }
}
