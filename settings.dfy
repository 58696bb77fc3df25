/**
 * The Settings page: the signed-in user's profile, the household name, the
 * notification switches and the password change, all kept in page state
 * (no request is sent).
 */
module Settings {

  datatype Profile = Profile(id: int, displayName: string, email: string, username: string, avatarInitials: string)

  datatype HouseholdInfo = HouseholdInfo(id: int, name: string, createdById: int)

  datatype ProfileForm = ProfileForm(displayName: string, email: string)

  datatype PasswordForm = PasswordForm(currentPassword: string, newPassword: string, confirmPassword: string)

  /** The `name` attributes of the profile and password inputs. */
  datatype ProfileField = DisplayNameField | EmailField
  datatype PasswordField = CurrentPasswordField | NewPasswordField | ConfirmPasswordField

  datatype NotificationSetting =
    EmailNotifications | ExpenseReminders | PaymentReminders | WeeklyReport | NewRoommateJoined

  const AllSettings: set<NotificationSetting> :=
    {EmailNotifications, ExpenseReminders, PaymentReminders, WeeklyReport, NewRoommateJoined}

  const EmptyPasswordForm: PasswordForm := PasswordForm("", "", "")

  /** The toast a password submit shows. */
  datatype PasswordVerdict = Mismatch | TooShort | Updated

  /**
   * handlePasswordSubmit's checks, in order: the confirmation must match,
   * then the new password must have at least 6 characters. The current
   * password is not consulted.
   */
  function CheckPassword(newPassword: string, confirmPassword: string): (v: PasswordVerdict)
    ensures v == Mismatch <==> newPassword != confirmPassword
    ensures v == TooShort <==> newPassword == confirmPassword && |newPassword| < 6
    ensures v == Updated <==> newPassword == confirmPassword && |newPassword| >= 6
  {
    if newPassword != confirmPassword then Mismatch
    else if |newPassword| < 6 then TooShort
    else Updated
  }

  class SettingsPage {
    var user: Profile
    var household: HouseholdInfo
    var notifications: map<NotificationSetting, bool>
    var profileForm: ProfileForm
    var passwordForm: PasswordForm
    var householdName: string

    /** Every switch has a value. */
    ghost predicate Valid()
      reads this
    {
      notifications.Keys == AllSettings
    }

    /** The page's initial state: Jamie Smith's profile, "Our Apartment", every switch on. */
    constructor ()
      ensures Valid()
      ensures user == Profile(1, "Jamie Smith", "jamie@remote.co", "jamie", "JS")
      ensures household == HouseholdInfo(1, "Our Apartment", 1)
      ensures forall s | s in AllSettings :: notifications[s]
      ensures profileForm == ProfileForm(user.displayName, user.email)
      ensures passwordForm == EmptyPasswordForm && householdName == household.name
    {
      user := Profile(1, "Jamie Smith", "jamie@remote.co", "jamie", "JS");
      household := HouseholdInfo(1, "Our Apartment", 1);
      notifications := map[EmailNotifications := true, ExpenseReminders := true, PaymentReminders := true,
                           WeeklyReport := true, NewRoommateJoined := true];
      profileForm := ProfileForm("Jamie Smith", "jamie@remote.co");
      passwordForm := EmptyPasswordForm;
      householdName := "Our Apartment";
    }

    /** handleProfileChange: one profile input. */
    method HandleProfileChange(field: ProfileField, value: string)
      modifies this
      ensures profileForm == match field
        case DisplayNameField => old(profileForm).(displayName := value)
        case EmailField => old(profileForm).(email := value)
      ensures user == old(user) && household == old(household) && notifications == old(notifications)
      ensures passwordForm == old(passwordForm) && householdName == old(householdName)
    {
      match field
      case DisplayNameField => profileForm := profileForm.(displayName := value);
      case EmailField => profileForm := profileForm.(email := value);
    }

    /** handlePasswordChange: one password input. */
    method HandlePasswordChange(field: PasswordField, value: string)
      modifies this
      ensures passwordForm == match field
        case CurrentPasswordField => old(passwordForm).(currentPassword := value)
        case NewPasswordField => old(passwordForm).(newPassword := value)
        case ConfirmPasswordField => old(passwordForm).(confirmPassword := value)
      ensures user == old(user) && household == old(household) && notifications == old(notifications)
      ensures profileForm == old(profileForm) && householdName == old(householdName)
    {
      match field
      case CurrentPasswordField => passwordForm := passwordForm.(currentPassword := value);
      case NewPasswordField => passwordForm := passwordForm.(newPassword := value);
      case ConfirmPasswordField => passwordForm := passwordForm.(confirmPassword := value);
    }

    /** handleHouseholdChange: the household name input. */
    method HandleHouseholdChange(value: string)
      modifies this
      ensures householdName == value
      ensures user == old(user) && household == old(household) && notifications == old(notifications)
      ensures profileForm == old(profileForm) && passwordForm == old(passwordForm)
    {
      householdName := value;
    }

    /** handleNotificationChange: sets one switch and leaves the others. */
    method HandleNotificationChange(setting: NotificationSetting, checked: bool)
      requires Valid()
      modifies this
      ensures Valid()
      ensures notifications[setting] == checked
      ensures forall s | s in AllSettings && s != setting :: notifications[s] == old(notifications)[s]
      ensures user == old(user) && household == old(household)
      ensures profileForm == old(profileForm) && passwordForm == old(passwordForm) && householdName == old(householdName)
    {
      notifications := notifications[setting := checked];
    }

    /** handleProfileSubmit: the display name and email change; id, username and initials stay. */
    method HandleProfileSubmit()
      modifies this
      ensures user == old(user).(displayName := old(profileForm).displayName, email := old(profileForm).email)
      ensures user.id == old(user).id && user.username == old(user).username
      ensures user.avatarInitials == old(user).avatarInitials
      ensures household == old(household) && notifications == old(notifications)
      ensures profileForm == old(profileForm) && passwordForm == old(passwordForm) && householdName == old(householdName)
    {
      user := user.(displayName := profileForm.displayName, email := profileForm.email);
    }

    /**
     * handlePasswordSubmit: on success all three fields are cleared; a
     * rejected password leaves them as typed. Nothing else changes.
     */
    method HandlePasswordSubmit() returns (verdict: PasswordVerdict)
      modifies this
      ensures verdict == CheckPassword(old(passwordForm).newPassword, old(passwordForm).confirmPassword)
      ensures passwordForm == if verdict == Updated then EmptyPasswordForm else old(passwordForm)
      ensures user == old(user) && household == old(household) && notifications == old(notifications)
      ensures profileForm == old(profileForm) && householdName == old(householdName)
    {
      if passwordForm.newPassword != passwordForm.confirmPassword {
        return Mismatch;
      }
      if |passwordForm.newPassword| < 6 {
        return TooShort;
      }
      passwordForm := EmptyPasswordForm;
      return Updated;
    }

    /** handleHouseholdSubmit: only the household's name changes. */
    method HandleHouseholdSubmit()
      modifies this
      ensures household == old(household).(name := old(householdName))
      ensures household.id == old(household).id && household.createdById == old(household).createdById
      ensures user == old(user) && notifications == old(notifications)
      ensures profileForm == old(profileForm) && passwordForm == old(passwordForm) && householdName == old(householdName)
    {
      household := household.(name := householdName);
    }
  }
}
