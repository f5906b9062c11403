/**
 * The account settings page of `src/pages/dashboard/Profile.jsx`: four
 * records edited through handlers that set one named key, the edit and
 * password-change modes, and the labels of the notification switches.
 *
 * The simulated request delays are collapsed: a save or an accepted password
 * change yields the state after its delay.
 */
module Profile {
  import opened Optional
  import opened Text
  import opened Records

  /** A security setting: a switch, or a number of minutes or days from a select. */
  datatype Setting = Switch(on: bool) | Number(n: int)

  datatype State = State(
    userData: map<string, string>,
    passwordData: map<string, string>,
    notifications: map<string, bool>,
    security: map<string, Setting>,
    editing: bool,
    changingPassword: bool)

  const BlankPasswords: map<string, string> := map["currentPassword" := "", "newPassword" := "", "confirmPassword" := ""]

  const InitialState := State(
    map["firstName" := "John", "lastName" := "Doe", "email" := "john.doe@example.com",
        "phone" := "+1 (555) 123-4567", "company" := "Tech Solutions Inc.", "country" := "United States",
        "timezone" := "America/New_York", "language" := "English"],
    BlankPasswords,
    map["emailNotifications" := true, "smsNotifications" := false, "marketingEmails" := false,
        "securityAlerts" := true, "serviceUpdates" := true, "billingReminders" := true],
    map["twoFactorAuth" := Switch(false), "loginNotifications" := Switch(true),
        "sessionTimeout" := Number(30), "passwordExpiry" := Number(90)],
    false, false)

  /** `handleInputChange`: one profile field. */
  function InputChange(s: State, name: string, value: string): (r: State)
    ensures SetsOnly(s.userData, r.userData, name, value)
    ensures r.(userData := s.userData) == s
  {
    s.(userData := SetField(s.userData, name, value))
  }

  /** `handlePasswordChange`: one password field. */
  function PasswordChange(s: State, name: string, value: string): (r: State)
    ensures SetsOnly(s.passwordData, r.passwordData, name, value)
    ensures r.(passwordData := s.passwordData) == s
  {
    s.(passwordData := SetField(s.passwordData, name, value))
  }

  /** `handleSecurityChange`: one security setting, to the value given. */
  function SecurityChange(s: State, name: string, value: Setting): (r: State)
    ensures SetsOnly(s.security, r.security, name, value)
    ensures r.(security := s.security) == s
  {
    s.(security := SetField(s.security, name, value))
  }

  /** A notification switch's value as JavaScript reads it: a missing key is `undefined`, which is falsy. */
  function NotificationOn(s: State, name: string): bool
  {
    name in s.notifications && s.notifications[name]
  }

  /** `handleNotificationChange`: the named switch becomes the negation of what it read. */
  function NotificationChange(s: State, name: string): (r: State)
    ensures SetsOnly(s.notifications, r.notifications, name, !NotificationOn(s, name))
    ensures NotificationOn(r, name) != NotificationOn(s, name)
    ensures r.(notifications := s.notifications) == s
  {
    s.(notifications := SetField(s.notifications, name, !NotificationOn(s, name)))
  }

  /** Flipping a switch that exists twice restores the state. */
  lemma ToggleTwiceRestores(s: State, name: string)
    requires name in s.notifications
    ensures NotificationChange(NotificationChange(s, name), name) == s
  {
    var r := NotificationChange(NotificationChange(s, name), name);
    assert r.notifications == s.notifications;
  }

  /** Flipping a missing key twice leaves it present and off: the record gains a key. */
  lemma ToggleAbsentTwice(s: State, name: string)
    requires name !in s.notifications
    ensures NotificationChange(NotificationChange(s, name), name).notifications == s.notifications[name := false]
    ensures NotificationChange(NotificationChange(s, name), name) != s
  {
    assert name in NotificationChange(NotificationChange(s, name), name).notifications;
  }

  /** The "Edit Profile" button. */
  function StartEditing(s: State): (r: State)
    ensures r.editing && r.(editing := s.editing) == s
  {
    s.(editing := true)
  }

  /** The "Cancel" button: editing ends, and the edits already made stay. */
  function CancelEditing(s: State): (r: State)
    ensures !r.editing && r.(editing := s.editing) == s
  {
    s.(editing := false)
  }

  /** `handleSaveProfile` after its delay: editing ends, nothing is sent or reverted. */
  function SaveProfile(s: State): (r: State)
    ensures !r.editing && r.(editing := s.editing) == s
  {
    s.(editing := false)
  }

  /** Cancelling does not undo an edit: the field keeps its new value. */
  lemma CancelKeepsEdits(s: State, name: string, value: string)
    ensures var r := CancelEditing(InputChange(StartEditing(s), name, value));
      !r.editing && name in r.userData && r.userData[name] == value
  {
  }

  /** The profile inputs accept typing only while editing. */
  predicate FieldsDisabled(s: State)
  {
    !s.editing
  }

  /**
   * "Edit Profile" unlocks the inputs and both "Save Changes" and "Cancel"
   * lock them again; typing into a field does not change whether they are locked.
   */
  lemma EditingUnlocksFields(s: State, name: string, value: string)
    ensures !FieldsDisabled(StartEditing(s))
    ensures FieldsDisabled(SaveProfile(s)) && FieldsDisabled(CancelEditing(s))
    ensures FieldsDisabled(InputChange(s, name, value)) == FieldsDisabled(s)
  {
  }

  /** The "Change Password" button: the password form opens; nothing else changes. */
  function StartPasswordChange(s: State): (r: State)
    ensures r.changingPassword && r.(changingPassword := s.changingPassword) == s
  {
    s.(changingPassword := true)
  }

  /** The password form's "Cancel": the form closes and whatever was typed in it stays. */
  function CancelPasswordChange(s: State): (r: State)
    ensures !r.changingPassword && r.(changingPassword := s.changingPassword) == s
  {
    s.(changingPassword := false)
  }

  /** Cancelling the password form does not clear it, unlike an accepted change. */
  lemma CancelKeepsPasswordFields(s: State, name: string, value: string)
    ensures var r := CancelPasswordChange(PasswordChange(StartPasswordChange(s), name, value));
      !r.changingPassword && name in r.passwordData && r.passwordData[name] == value
  {
  }

  /** A password field as JavaScript reads it (`undefined` when missing). */
  function PasswordField(s: State, name: string): Option<string>
  {
    if name in s.passwordData then Some(s.passwordData[name]) else None
  }

  const MismatchAlert := "New passwords do not match"

  /**
   * `handleChangePassword`: when the new password and its confirmation differ
   * the alert fires and the state is kept (`Failure`); otherwise, after the
   * delay, all three fields are cleared and password-change mode ends. The
   * current password is never looked at.
   */
  function ChangePassword(s: State): (r: Result<State, string>)
    ensures r.Failure? <==> PasswordField(s, "newPassword") != PasswordField(s, "confirmPassword")
    ensures r.Failure? ==> r.error == MismatchAlert
    ensures r.Success? ==>
      && !r.value.changingPassword
      && r.value.passwordData.Keys == {"currentPassword", "newPassword", "confirmPassword"}
      && (forall k :: k in r.value.passwordData ==> r.value.passwordData[k] == "")
      && r.value.(passwordData := s.passwordData, changingPassword := s.changingPassword) == s
  {
    if PasswordField(s, "newPassword") != PasswordField(s, "confirmPassword") then Failure(MismatchAlert)
    else Success(s.(passwordData := BlankPasswords, changingPassword := false))
  }

  /** Whatever the current password field holds, the outcome is the same. */
  lemma CurrentPasswordIgnored(s: State, typed: string)
    ensures ChangePassword(PasswordChange(s, "currentPassword", typed)) == ChangePassword(s)
  {
    var t := PasswordChange(s, "currentPassword", typed);
    assert PasswordField(t, "newPassword") == PasswordField(s, "newPassword");
    assert PasswordField(t, "confirmPassword") == PasswordField(s, "confirmPassword");
  }

  /** Typing the same new password twice is always accepted, even with a blank current password. */
  lemma MatchingPasswordsAccepted(s: State, pw: string)
    ensures ChangePassword(PasswordChange(PasswordChange(s, "newPassword", pw), "confirmPassword", pw)).Success?
  {
    var t := PasswordChange(PasswordChange(s, "newPassword", pw), "confirmPassword", pw);
    assert PasswordField(t, "newPassword") == Some(pw);
    assert PasswordField(t, "confirmPassword") == Some(pw);
  }

  // ---------------------------------------------------------------------------
  // notification labels

  predicate IsCapital(c: char) {
    'A' <= c <= 'Z'
  }

  /** `replace(/([A-Z])/g, ' $1')`: a space before every capital letter. */
  function SpaceBeforeCapitals(s: string): (r: string)
    ensures |r| >= |s|
  {
    if |s| == 0 then ""
    else (if IsCapital(s[0]) then [' ', s[0]] else [s[0]]) + SpaceBeforeCapitals(s[1..])
  }

  /**
   * One character at a time: a capital gains a space in front, any other
   * character is kept as it is. With `SpaceBeforeCapitalsConcat` this fixes
   * the result for every string.
   */
  lemma SpaceBeforeOneChar(c: char)
    ensures IsCapital(c) ==> SpaceBeforeCapitals([c]) == [' ', c]
    ensures !IsCapital(c) ==> SpaceBeforeCapitals([c]) == [c]
  {
    assert [c][1..] == [];
  }

  /** The characters `.` in a regular expression does not match. */
  predicate IsLineTerminator(c: char) {
    c == '\n' || c == '\r' || c as int == 0x2028 || c as int == 0x2029
  }

  /** Spacing distributes over concatenation. */
  lemma {:induction false} SpaceBeforeCapitalsConcat(a: string, b: string)
    ensures SpaceBeforeCapitals(a + b) == SpaceBeforeCapitals(a) + SpaceBeforeCapitals(b)
  {
    if |a| > 0 {
      SpaceBeforeCapitalsConcat(a[1..], b);
      HeadAndTail(a, b);
      SpaceBeforeCapitalsCons(a[0], a[1..] + b);
    } else {
      assert a + b == b;
    }
  }

  /** Text without capital letters is left as it is. */
  lemma {:induction false} NoCapitalsKept(s: string)
    requires forall i :: 0 <= i < |s| ==> !IsCapital(s[i])
    ensures SpaceBeforeCapitals(s) == s
  {
    if |s| > 0 {
      NoCapitalsKept(s[1..]);
      assert [s[0]] + s[1..] == s;
    }
  }

  /** The first character's piece, then the rest spaced. */
  lemma SpaceBeforeCapitalsCons(c: char, t: string)
    ensures SpaceBeforeCapitals([c] + t) == (if IsCapital(c) then [' ', c] else [c]) + SpaceBeforeCapitals(t)
  {
    var ct := [c] + t;
    assert ct[0] == c && ct[1..] == t;
  }

  /** `replace(/^./, str => str.toUpperCase())`: the first character, unless it ends a line, in upper case. */
  function CapitalizeFirst(s: string): (r: string)
    ensures |r| == |s| && (|s| > 0 ==> r[1..] == s[1..])
    ensures Lower(r) == Lower(s)
  {
    if |s| == 0 || IsLineTerminator(s[0]) then s
    else [UpperChar(s[0])] + s[1..]
  }

  /** The switch's title: "emailNotifications" reads "Email Notifications". */
  function NotificationTitle(key: string): string
  {
    CapitalizeFirst(SpaceBeforeCapitals(key))
  }

  /**
   * The switch's description as written: the key is lower-cased before the
   * capitals are looked for, so no space is ever inserted.
   */
  function NotificationDescriptionAsWritten(key: string): (r: string)
    ensures r == Lower(key)
  {
    NoCapitalsKept(Lower(key));
    SpaceBeforeCapitals(Lower(key))
  }

  /** The description as evidently meant: the title's words, in lower case. */
  function NotificationDescription(key: string): (r: string)
    ensures r == Lower(NotificationTitle(key))
  {
    Lower(SpaceBeforeCapitals(key))
  }

  /** Every capital letter gains a space, so a key with a capital grows. */
  lemma {:induction false} CapitalAddsSpace(s: string, i: int)
    requires 0 <= i < |s| && IsCapital(s[i])
    ensures |SpaceBeforeCapitals(s)| > |s|
  {
    if i > 0 {
      CapitalAddsSpace(s[1..], i - 1);
    }
  }

  /**
   * For every key with a capital letter, the description as written differs
   * from the evident intent: it is shorter by at least the missing space.
   */
  lemma DescriptionLosesSpaces(key: string, i: int)
    requires 0 <= i < |key| && IsCapital(key[i])
    ensures |NotificationDescriptionAsWritten(key)| < |NotificationDescription(key)|
  {
    CapitalAddsSpace(key, i);
  }

  /** The page's first switch, "emailNotifications", is one such key. */
  lemma EmailNotificationsRunTogether()
    ensures NotificationDescriptionAsWritten("emailNotifications") != NotificationDescription("emailNotifications")
  {
    DescriptionLosesSpaces("emailNotifications", 5);
  }
}
