/** The profile page of src/views/ProfileSettings.tsx: the completeness
    test that decides the redirect to the dashboard, the progress bar, the
    form field updates and the checks of the password change. */
module ProfileSettings {
  import opened Wrappers
  import opened Js

  /** The keys of `formData`, in the order of its object literal. */
  datatype Field =
    | FullName | School | ClassGrade | Gender | Dob | BloodGroup | ParentContact | Address | AvatarUrl

  /** `formData`; every value is a string (`user.x || ''` on load). */
  datatype Profile = Profile(
    fullName: string,
    school: string,
    classGrade: string,
    gender: string,
    dob: string,
    bloodGroup: string,
    parentContact: string,
    address: string,
    avatarUrl: string)

  const EmptyProfile: Profile := Profile("", "", "", "", "", "", "", "", "")

  function Get(p: Profile, f: Field): string
  {
    match f
    case FullName => p.fullName
    case School => p.school
    case ClassGrade => p.classGrade
    case Gender => p.gender
    case Dob => p.dob
    case BloodGroup => p.bloodGroup
    case ParentContact => p.parentContact
    case Address => p.address
    case AvatarUrl => p.avatarUrl
  }

  /** `{ ...formData, [name]: value }`: the named field takes the value and
      every other field keeps its own. */
  function With(p: Profile, f: Field, value: string): (q: Profile)
    ensures forall g :: Get(q, g) == if g == f then value else Get(p, g)
  {
    match f
    case FullName => p.(fullName := value)
    case School => p.(school := value)
    case ClassGrade => p.(classGrade := value)
    case Gender => p.(gender := value)
    case Dob => p.(dob := value)
    case BloodGroup => p.(bloodGroup := value)
    case ParentContact => p.(parentContact := value)
    case Address => p.(address := value)
    case AvatarUrl => p.(avatarUrl := value)
  }

  /** The seven fields `isProfileFullyComplete` tests. */
  const Required: seq<Field> := [FullName, School, ClassGrade, Gender, Dob, ParentContact, Address]

  /** The eight values `calculateProgress` looks at: `formData` without
      `avatar_url`, in `Object.values` order. */
  const Counted: seq<Field> := [FullName, School, ClassGrade, Gender, Dob, BloodGroup, ParentContact, Address]

  /** `isProfileFullyComplete`: each required value is truthy, i.e. not the
      empty string. A value of spaces counts. */
  function IsProfileFullyComplete(p: Profile): (b: bool)
    ensures b <==> forall i :: 0 <= i < |Required| ==> Get(p, Required[i]) != ""
  {
    assert Required[0] == FullName && Required[1] == School && Required[2] == ClassGrade;
    assert Required[3] == Gender && Required[4] == Dob && Required[5] == ParentContact;
    assert Required[6] == Address;
    p.fullName != "" && p.school != "" && p.classGrade != "" && p.gender != "" &&
    p.dob != "" && p.parentContact != "" && p.address != ""
  }

  /** `f && f.toString().trim() !== ''` */
  predicate Filled(value: string)
  {
    value != "" && !IsBlank(value)
  }

  /** The truthiness test is subsumed: a value is filled exactly when its
      trimmed form is not empty. */
  lemma {:induction false} FilledIffTrimNonEmpty(value: string)
    ensures Filled(value) <==> Trim(value) != ""
  {
    BlankIffTrimEmpty(value);
  }

  function Bit(value: string): nat
  {
    if Filled(value) then 1 else 0
  }

  /** `fields.filter(...).length` over the eight counted values. */
  function FilledCount(p: Profile): (k: nat)
    ensures k <= |Counted|
  {
    Bit(p.fullName) + Bit(p.school) + Bit(p.classGrade) + Bit(p.gender) +
    Bit(p.dob) + Bit(p.bloodGroup) + Bit(p.parentContact) + Bit(p.address)
  }

  /** `calculateProgress`: `Math.round((filled / 8) * 100)`. The quotient
      `filled / 8` and its product with 100 are exact in binary floating
      point, so the rounding is that of the exact rational. */
  function CalculateProgress(p: Profile): (pct: int)
    ensures 0 <= pct <= 100
  {
    RoundWithin(100 * FilledCount(p), |Counted|, 0, 100);
    Round(100 * FilledCount(p), |Counted|)
  }

  // ---------------------------------------------------------------------
  // Properties

  /** The count is eight exactly when every counted field is filled. */
  lemma {:induction false} AllCountedFilled(p: Profile)
    ensures FilledCount(p) == |Counted| <==> forall i :: 0 <= i < |Counted| ==> Filled(Get(p, Counted[i]))
  {
    assert Counted[0] == FullName && Counted[1] == School && Counted[2] == ClassGrade;
    assert Counted[3] == Gender && Counted[4] == Dob && Counted[5] == BloodGroup;
    assert Counted[6] == ParentContact && Counted[7] == Address;
  }

  /** The bar shows 100 exactly when all eight counted fields are filled;
      otherwise it shows at most 88. */
  lemma {:induction false} ProgressFullIffAllFilled(p: Profile)
    ensures CalculateProgress(p) == 100 <==> forall i :: 0 <= i < |Counted| ==> Filled(Get(p, Counted[i]))
    ensures CalculateProgress(p) != 100 ==> CalculateProgress(p) <= 88
  {
    AllCountedFilled(p);
    var k := FilledCount(p);
    if k == |Counted| {
      RoundExact(100, |Counted|);
    } else {
      RoundWithin(100 * k, |Counted|, 0, 88);
    }
  }

  /** A full bar implies a complete profile. */
  lemma {:induction false} FullProgressIsComplete(p: Profile)
    requires CalculateProgress(p) == 100
    ensures IsProfileFullyComplete(p)
  {
    ProgressFullIffAllFilled(p);
    assert forall i :: 0 <= i < |Counted| ==> Get(p, Counted[i]) != "";
    assert forall i :: 0 <= i < |Required| ==> Required[i] in Counted;
  }

  /** The two tests disagree: leaving out only the blood group gives a
      complete profile at 88%, and filling the required fields with spaces
      gives a complete profile at 0%. */
  lemma {:induction false} CompleteBelowFull()
    ensures var p := Profile("Asha", "GHS", "7", "F", "2012-01-01", "", "555", "Main St", "");
      IsProfileFullyComplete(p) && CalculateProgress(p) == 88
    ensures var p := Profile(" ", " ", " ", " ", " ", "", " ", " ", "");
      IsProfileFullyComplete(p) && CalculateProgress(p) == 0
  {
    var p := Profile("Asha", "GHS", "7", "F", "2012-01-01", "", "555", "Main St", "");
    assert !IsWhiteSpace("Asha"[0]) && !IsWhiteSpace("GHS"[0]) && !IsWhiteSpace("7"[0]);
    assert !IsWhiteSpace("F"[0]) && !IsWhiteSpace("2012-01-01"[0]) && !IsWhiteSpace("555"[0]);
    assert !IsWhiteSpace("Main St"[0]);
    assert FilledCount(p) == 7;
    var q := Profile(" ", " ", " ", " ", " ", "", " ", " ", "");
    assert IsWhiteSpace(" "[0]) && IsBlank(" ");
    assert FilledCount(q) == 0;
  }

  /** A new profile shows an empty bar and is not complete. */
  lemma {:induction false} EmptyProfileProgress()
    ensures CalculateProgress(EmptyProfile) == 0 && !IsProfileFullyComplete(EmptyProfile)
  {
  }

  // ---------------------------------------------------------------------
  // Password change

  /** The keys of `passwordForm`. */
  datatype PasswordField = CurrentPassword | NewPassword | ConfirmPassword

  datatype PasswordForm = PasswordForm(currentPassword: string, newPassword: string, confirmPassword: string)

  const EmptyPasswordForm: PasswordForm := PasswordForm("", "", "")

  /** `{ ...passwordForm, [name]: value }` */
  function WithPassword(form: PasswordForm, f: PasswordField, value: string): (r: PasswordForm)
    ensures f == CurrentPassword ==> r == PasswordForm(value, form.newPassword, form.confirmPassword)
    ensures f == NewPassword ==> r == PasswordForm(form.currentPassword, value, form.confirmPassword)
    ensures f == ConfirmPassword ==> r == PasswordForm(form.currentPassword, form.newPassword, value)
  {
    match f
    case CurrentPassword => form.(currentPassword := value)
    case NewPassword => form.(newPassword := value)
    case ConfirmPassword => form.(confirmPassword := value)
  }

  /** `s.length`: JavaScript counts UTF-16 code units, two for a character
      outside the Basic Multilingual Plane. */
  function Utf16Length(s: string): (n: nat)
    ensures |s| <= n <= 2 * |s|
  {
    if s == [] then 0 else Utf16Length(s[..|s| - 1]) + (if s[|s| - 1] as int > 0xFFFF then 2 else 1)
  }

  const MinPasswordLength: int := 6
  const TooShort: string := "New password must be at least 6 characters."
  const Mismatch: string := "New passwords do not match."
  const WrongCurrent: string := "Current password is incorrect."
  const Changed: string := "Password changed successfully!"

  /** The `type` of a message; `''` is the cleared message. */
  datatype Kind = Cleared | Error | Success

  /** `{ type, text }` */
  datatype Message = Message(kind: Kind, text: string)

  /** The two checks made before any backend call, in their order. */
  function Validate(form: PasswordForm): (err: Option<string>)
    ensures err == Some(TooShort) <==> Utf16Length(form.newPassword) < MinPasswordLength
    ensures err == Some(Mismatch) <==>
      Utf16Length(form.newPassword) >= MinPasswordLength && form.newPassword != form.confirmPassword
    ensures err.None? <==>
      Utf16Length(form.newPassword) >= MinPasswordLength && form.newPassword == form.confirmPassword
  {
    if Utf16Length(form.newPassword) < MinPasswordLength then Some(TooShort)
    else if form.newPassword != form.confirmPassword then Some(Mismatch)
    else None
  }

  /** The answers of the authentication backend: whether signing in with
      the current password failed, and the error `updateUser` returned. */
  datatype Backend = Backend(signInFails: bool, updateError: Option<string>)

  /** What the password change ends with: the message, the form, and the
      backend calls made. */
  datatype PasswordChange = PasswordChange(
    message: Message, form: PasswordForm, signInCalled: bool, updateCalled: bool)

  /** `handleChangePassword` against the given backend answers. */
  function ChangePassword(form: PasswordForm, backend: Backend): (r: PasswordChange)
    ensures r.signInCalled <==> Validate(form).None?
    ensures r.updateCalled <==> Validate(form).None? && !backend.signInFails
    ensures Validate(form).Some? ==> r.message == Message(Error, Validate(form).value)
    ensures r.message.kind == Success <==> r.updateCalled && backend.updateError.None?
    ensures r.message.kind == Success ==> r.message.text == Changed && r.form == EmptyPasswordForm
    ensures r.message.kind != Success ==> r.form == form && r.message.kind == Error
    ensures r.signInCalled && backend.signInFails ==> r.message.text == WrongCurrent
    ensures r.updateCalled && backend.updateError.Some? ==> r.message == Message(Error, backend.updateError.value)
  {
    match Validate(form)
    case Some(err) => PasswordChange(Message(Error, err), form, false, false)
    case None =>
      if backend.signInFails then PasswordChange(Message(Error, WrongCurrent), form, true, false)
      else match backend.updateError
        case Some(err) => PasswordChange(Message(Error, err), form, true, true)
        case None => PasswordChange(Message(Success, Changed), EmptyPasswordForm, true, true)
  }

  /** The length check comes first: a short password is reported as short
      even when the confirmation differs. */
  lemma {:induction false} ShortBeforeMismatch(backend: Backend)
    ensures ChangePassword(PasswordForm("old", "abc", "xyz"), backend).message == Message(Error, TooShort)
  {
    assert Utf16Length("abc") == 3;
  }

  /** A six-character password built from characters outside the Basic
      Multilingual Plane passes the length check with only three of them. */
  lemma {:induction false} AstralCharactersCountTwice()
    ensures Utf16Length("\U{1F600}\U{1F600}\U{1F600}") == 6
    ensures Validate(PasswordForm("", "\U{1F600}\U{1F600}\U{1F600}", "\U{1F600}\U{1F600}\U{1F600}")).None?
  {
    var s := "\U{1F600}\U{1F600}\U{1F600}";
    assert s[..2][..1][..0] == [];
    assert Utf16Length(s) == 6;
  }

  // ---------------------------------------------------------------------
  // The component

  class Settings {
    var formData: Profile
    var passwordForm: PasswordForm
    var passMessage: Message
    var passLoading: bool

    /** The profile loaded from the user record, the password form empty. */
    constructor (loaded: Profile)
      ensures formData == loaded && passwordForm == EmptyPasswordForm
      ensures passMessage == Message(Cleared, "") && !passLoading
    {
      formData := loaded;
      passwordForm := EmptyPasswordForm;
      passMessage := Message(Cleared, "");
      passLoading := false;
    }

    /** `handleChange` for the input named `f`. */
    method HandleChange(f: Field, value: string)
      modifies this
      ensures formData == With(old(formData), f, value)
      ensures passwordForm == old(passwordForm) && passMessage == old(passMessage)
      ensures passLoading == old(passLoading)
    {
      formData := With(formData, f, value);
    }

    /** `handlePasswordChangeInput` for the input named `f`. */
    method HandlePasswordChangeInput(f: PasswordField, value: string)
      modifies this
      ensures passwordForm == WithPassword(old(passwordForm), f, value)
      ensures formData == old(formData) && passMessage == old(passMessage)
      ensures passLoading == old(passLoading)
    {
      passwordForm := WithPassword(passwordForm, f, value);
    }

    /** `handleChangePassword`; the backend's answers are inputs and the
        results say which backend calls were made. */
    method HandleChangePassword(backend: Backend) returns (signInCalled: bool, updateCalled: bool)
      modifies this
      ensures var r := ChangePassword(old(passwordForm), backend);
        passMessage == r.message && passwordForm == r.form &&
        signInCalled == r.signInCalled && updateCalled == r.updateCalled
      ensures formData == old(formData) && !passLoading
    {
      passLoading := true;
      passMessage := Message(Cleared, "");
      signInCalled, updateCalled := false, false;
      if Utf16Length(passwordForm.newPassword) < MinPasswordLength {
        passLoading := false;
        passMessage := Message(Error, TooShort);
        return;
      }
      if passwordForm.newPassword != passwordForm.confirmPassword {
        passLoading := false;
        passMessage := Message(Error, Mismatch);
        return;
      }
      signInCalled := true;
      if backend.signInFails {
        passMessage := Message(Error, WrongCurrent);
      } else {
        updateCalled := true;
        match backend.updateError
        case Some(err) =>
          passMessage := Message(Error, err);
        case None =>
          passMessage := Message(Success, Changed);
          passwordForm := EmptyPasswordForm;
      }
      passLoading := false;
    }
  }
}
