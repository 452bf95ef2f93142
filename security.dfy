/**
 * The password change of the security settings (`SecuritySettings.tsx`):
 * the two checks, in their order, and the simulated save that empties the
 * form once it completes.
 */
module Security {

  /** What pressing "save" leads to; the errors are named by their message keys. */
  datatype PasswordCheck = AllFieldsRequired | PasswordsDiffer | SaveStarted

  /** The checks of `handleSavePassword`: every field filled, then the new password confirmed. */
  function CheckPasswords(current: string, newPassword: string, confirm: string): (r: PasswordCheck)
    ensures r == AllFieldsRequired <==> current == "" || newPassword == "" || confirm == ""
    ensures r == PasswordsDiffer <==> current != "" && newPassword != "" && confirm != "" && newPassword != confirm
    ensures r == SaveStarted <==> current != "" && newPassword != "" && newPassword == confirm
  {
    if current == "" || newPassword == "" || confirm == "" then AllFieldsRequired
    else if newPassword != confirm then PasswordsDiffer
    else SaveStarted
  }

  /** An empty field is reported even when the other two also differ. */
  lemma EmptyFieldComesFirst(current: string, newPassword: string, confirm: string)
    requires newPassword != confirm
    requires current == "" || newPassword == "" || confirm == ""
    ensures CheckPasswords(current, newPassword, confirm) == AllFieldsRequired
  {
  }

  /** The current password is only required to be filled in; its value is never compared. */
  lemma CurrentPasswordNotCompared(c1: string, c2: string, newPassword: string, confirm: string)
    requires c1 != "" && c2 != ""
    ensures CheckPasswords(c1, newPassword, confirm) == CheckPasswords(c2, newPassword, confirm)
  {
  }

  /** The security form's state. */
  class PasswordForm {
    var currentPassword: string
    var newPassword: string
    var confirmPassword: string
    var isSaving: bool

    constructor()
      ensures currentPassword == "" && newPassword == "" && confirmPassword == "" && !isSaving
    {
      currentPassword := "";
      newPassword := "";
      confirmPassword := "";
      isSaving := false;
    }

    /** `handleSavePassword`: a failed check changes nothing; a passed one starts saving. */
    method HandleSavePassword() returns (r: PasswordCheck)
      modifies this
      ensures r == CheckPasswords(currentPassword, newPassword, confirmPassword)
      ensures isSaving == (old(isSaving) || r == SaveStarted)
      ensures currentPassword == old(currentPassword) && newPassword == old(newPassword)
      ensures confirmPassword == old(confirmPassword)
    {
      r := CheckPasswords(currentPassword, newPassword, confirmPassword);
      if r != SaveStarted {
        return;
      }
      isSaving := true;
    }

    /** The completion of the simulated save: the three fields emptied and saving over. */
    method CompleteSave()
      modifies this
      ensures currentPassword == "" && newPassword == "" && confirmPassword == "" && !isSaving
    {
      currentPassword := "";
      newPassword := "";
      confirmPassword := "";
      isSaving := false;
    }
  }
}
