/**
 * The password-change form (src/app/dashboard/settings/page.tsx): two
 * inputs, their checks, and an `isSaving` flag held while the request is
 * awaited.
 *
 * `handlePasswordChange` suspends at the awaited request; the model
 * splits it there: `HandlePasswordChange` runs up to the request and
 * `Finish` runs the rest once it settles, with `ok` telling whether the
 * request succeeded.
 */
module SettingsPage {
  import opened Options

  const FillBoth: string := "Please fill in both fields"
  const Mismatch: string := "Passwords do not match"
  const Updated: string := "Password updated successfully!"
  const UpdateFailed: string := "Failed to update password"

  /** The request body carries the new password only, never the confirmation. */
  datatype Effect = Notify(toast: Toast) | ChangePassword(password: string)

  /** The message a press of Save shows before any request, if any. */
  function CheckMessage(password: string, confirmPassword: string): (r: Option<string>)
    ensures r == Some(FillBoth) <==> password == "" || confirmPassword == ""
    ensures r == Some(Mismatch) <==> password != "" && confirmPassword != "" && password != confirmPassword
    ensures r == None <==> password != "" && password == confirmPassword
  {
    if password == "" || confirmPassword == "" then Some(FillBoth)
    else if password != confirmPassword then Some(Mismatch)
    else None
  }

  /** Every password sent was non-empty. */
  ghost predicate SentNonEmpty(effects: seq<Effect>)
  {
    forall i :: 0 <= i < |effects| && effects[i].ChangePassword? ==> effects[i].password != ""
  }

  class Settings {
    var password: string
    var confirmPassword: string
    var isSaving: bool
    var effects: seq<Effect>

    ghost predicate Valid()
      reads this
    {
      && SentNonEmpty(effects)
      && (isSaving ==> effects != [] && effects[|effects| - 1].ChangePassword?)
    }

    constructor ()
      ensures Valid()
      ensures password == "" && confirmPassword == "" && !isSaving && effects == []
    {
      password, confirmPassword := "", "";
      isSaving := false;
      effects := [];
    }

    method SetPassword(value: string)
      requires Valid()
      modifies this`password
      ensures Valid() && password == value
    {
      password := value;
    }

    method SetConfirmPassword(value: string)
      requires Valid()
      modifies this`confirmPassword
      ensures Valid() && confirmPassword == value
    {
      confirmPassword := value;
    }

    /**
     * `handlePasswordChange` up to the request: either field empty, or a
     * mismatch, shows its toast and sends nothing; otherwise `isSaving` is
     * set and the password alone is sent. The button is disabled while
     * saving, so this is not entered then.
     */
    method HandlePasswordChange() returns (started: bool)
      requires Valid() && !isSaving
      modifies this`isSaving, this`effects
      ensures Valid()
      ensures started <==> CheckMessage(password, confirmPassword) == None
      ensures started ==> isSaving && effects == old(effects) + [ChangePassword(password)]
      ensures !started ==>
        && !isSaving
        && effects == old(effects) + [Notify(ToastError(CheckMessage(password, confirmPassword).value))]
    {
      if password == "" || confirmPassword == "" {
        effects := effects + [Notify(ToastError(FillBoth))];
        return false;
      }
      if password != confirmPassword {
        effects := effects + [Notify(ToastError(Mismatch))];
        return false;
      }
      isSaving := true;
      effects := effects + [ChangePassword(password)];
      started := true;
    }

    /**
     * The rest once the request settles: success toasts and clears both
     * fields, failure toasts and keeps them; `isSaving` is cleared either way.
     */
    method Finish(ok: bool)
      requires Valid() && isSaving
      modifies this`password, this`confirmPassword, this`isSaving, this`effects
      ensures Valid() && !isSaving
      ensures ok ==>
        && password == "" && confirmPassword == ""
        && effects == old(effects) + [Notify(ToastSuccess(Updated))]
      ensures !ok ==>
        && password == old(password) && confirmPassword == old(confirmPassword)
        && effects == old(effects) + [Notify(ToastError(UpdateFailed))]
    {
      if ok {
        effects := effects + [Notify(ToastSuccess(Updated))];
        password := "";
        confirmPassword := "";
      } else {
        effects := effects + [Notify(ToastError(UpdateFailed))];
      }
      isSaving := false;
    }
  }
}
