/** The profile page: the user's details loaded from the session, travel
    styles toggled only while editing, and the password-change dialog. */
module ProfilePage {
  import opened JsValue
  import opened Lists
  import Jwt
  import AuthService

  datatype UserInfo = UserInfo(
    name: string,
    email: string,
    phone: string,
    birthDate: string,
    gender: string,
    travelStyle: seq<string>,
    profileImage: Option<string>)

  const EmptyUserInfo := UserInfo("", "", "", "", "", [], None)

  datatype PasswordData = PasswordData(currentPassword: string, newPassword: string, confirmPassword: string)

  const EmptyPasswords := PasswordData("", "", "")

  const DefaultEmail := "test@test.com"
  const DefaultName := "김여행"
  const DefaultInitial := "김"
  const PasswordMismatch := "새 비밀번호가 일치하지 않습니다."
  const PasswordChanged := "비밀번호가 변경되었습니다."

  /** The e-mail shown: the token's subject when there is a token and it
      has one, else the placeholder. */
  function ProfileEmail(accessToken: Option<string>, decoder: Jwt.Decoder): (email: string)
    ensures !AuthService.Present(accessToken) ==> email == DefaultEmail
    ensures AuthService.Present(accessToken) && Truthy(Jwt.GetUsernameFromToken(accessToken.value, decoder)) ==>
      email == JsString(Jwt.GetUsernameFromToken(accessToken.value, decoder))
    ensures AuthService.Present(accessToken) && !Truthy(Jwt.GetUsernameFromToken(accessToken.value, decoder)) ==>
      email == DefaultEmail
  {
    var userEmail := if AuthService.Present(accessToken) then Jwt.GetUsernameFromToken(accessToken.value, decoder)
                     else Str(DefaultEmail);
    JsString(Or(userEmail, Str(DefaultEmail)))
  }

  /** The details `loadUserData` fills in around the e-mail. */
  function LoadedInfo(email: string): UserInfo {
    UserInfo(DefaultName, email, "010-1234-5678", "1990-01-01", "남성", ["문화탐방", "미식여행"], None)
  }

  /** The avatar's letter: `name.charAt(0) || '김'`. */
  function AvatarLetter(name: string): (letter: string)
    ensures |letter| == 1
    ensures name != "" ==> letter == name[..1]
    ensures name == "" ==> letter == DefaultInitial
  {
    if name == "" then DefaultInitial else name[..1]
  }

  /** The name shown beside the avatar: `name || '김여행'`. */
  function DisplayName(name: string): (shown: string)
    ensures shown != ""
    ensures name != "" ==> shown == name
  {
    if name == "" then DefaultName else name
  }

  /** The details the form's inputs edit; the e-mail input is always
      disabled and has none. */
  datatype Detail = Name | Phone | BirthDate | Gender

  /** `{ ...userInfo, <field>: value }`. */
  function WithDetail(info: UserInfo, field: Detail, value: string): UserInfo {
    match field
    case Name => info.(name := value)
    case Phone => info.(phone := value)
    case BirthDate => info.(birthDate := value)
    case Gender => info.(gender := value)
  }

  /** The edited detail reads back as typed, an edit of the same detail
      replaces the previous one, and the e-mail, travel styles and image
      are never touched. */
  lemma WithDetailSetsOnlyField(info: UserInfo, field: Detail, value: string, other: string)
    ensures var r := WithDetail(info, field, value);
      r.email == info.email && r.travelStyle == info.travelStyle && r.profileImage == info.profileImage
      && (field != Name ==> r.name == info.name) && (field != Phone ==> r.phone == info.phone)
      && (field != BirthDate ==> r.birthDate == info.birthDate) && (field != Gender ==> r.gender == info.gender)
      && (field == Name ==> r.name == value) && (field == Phone ==> r.phone == value)
      && (field == BirthDate ==> r.birthDate == value) && (field == Gender ==> r.gender == value)
    ensures WithDetail(WithDetail(info, field, other), field, value) == WithDetail(info, field, value)
  {
  }

  class Profile {
    var userInfo: UserInfo
    var isEditing: bool
    var showPasswordModal: bool
    var passwordData: PasswordData
    var currentUserId: int

    constructor()
      ensures userInfo == EmptyUserInfo && !isEditing && !showPasswordModal
      ensures passwordData == EmptyPasswords && currentUserId == 1
    {
      userInfo := EmptyUserInfo;
      isEditing := false;
      showPasswordModal := false;
      passwordData := EmptyPasswords;
      currentUserId := 1;
    }

    /** `loadUserData`: the session's user id, and the details around the
        e-mail the in-memory token gives. */
    method LoadUserData(auth: AuthService.Auth)
      modifies this
      ensures currentUserId == auth.GetCurrentUserId() && currentUserId != 0
      ensures userInfo == LoadedInfo(ProfileEmail(auth.accessToken, auth.decoder))
      ensures isEditing == old(isEditing) && showPasswordModal == old(showPasswordModal) && passwordData == old(passwordData)
    {
      currentUserId := auth.GetCurrentUserId();
      userInfo := LoadedInfo(ProfileEmail(auth.accessToken, auth.decoder));
    }

    /** `toggleTravelStyle`: ignored unless editing; while editing a listed
        style is removed and another appended. */
    method ToggleTravelStyle(style: string)
      modifies this
      ensures !old(isEditing) ==> userInfo == old(userInfo)
      ensures old(isEditing) ==> userInfo == old(userInfo).(travelStyle := ToggleIn(old(userInfo.travelStyle), style))
      ensures isEditing == old(isEditing) && showPasswordModal == old(showPasswordModal)
      ensures passwordData == old(passwordData) && currentUserId == old(currentUserId)
    {
      if !isEditing {
        return;
      }
      if style in userInfo.travelStyle {
        userInfo := userInfo.(travelStyle := Without(userInfo.travelStyle, style));
      } else {
        userInfo := userInfo.(travelStyle := userInfo.travelStyle + [style]);
      }
    }

    method StartEditing()
      modifies this
      ensures isEditing && userInfo == old(userInfo) && showPasswordModal == old(showPasswordModal)
      ensures passwordData == old(passwordData) && currentUserId == old(currentUserId)
    {
      isEditing := true;
    }

    /** `handleSave`: editing ends and the details stay as edited. */
    method HandleSave()
      modifies this
      ensures !isEditing && userInfo == old(userInfo) && showPasswordModal == old(showPasswordModal)
      ensures passwordData == old(passwordData) && currentUserId == old(currentUserId)
    {
      isEditing := false;
    }

    /** Cancel: editing ends and the details are loaded afresh. */
    method CancelEditing(auth: AuthService.Auth)
      modifies this
      ensures !isEditing
      ensures userInfo == LoadedInfo(ProfileEmail(auth.accessToken, auth.decoder)) && currentUserId == auth.GetCurrentUserId()
      ensures showPasswordModal == old(showPasswordModal) && passwordData == old(passwordData)
    {
      isEditing := false;
      LoadUserData(auth);
    }

    /** An input's `onChange`: the inputs are disabled unless editing, so
        outside editing nothing changes. */
    method ChangeDetail(field: Detail, value: string)
      modifies this
      ensures userInfo == if old(isEditing) then WithDetail(old(userInfo), field, value) else old(userInfo)
      ensures isEditing == old(isEditing) && showPasswordModal == old(showPasswordModal)
      ensures passwordData == old(passwordData) && currentUserId == old(currentUserId)
    {
      if isEditing {
        userInfo := WithDetail(userInfo, field, value);
      }
    }

    /** The change-password button opens the dialog. */
    method OpenPasswordModal()
      modifies this
      ensures showPasswordModal
      ensures userInfo == old(userInfo) && isEditing == old(isEditing)
      ensures passwordData == old(passwordData) && currentUserId == old(currentUserId)
    {
      showPasswordModal := true;
    }

    /** The overlay and the cancel button close the dialog, keeping what
        was typed. */
    method ClosePasswordModal()
      modifies this
      ensures !showPasswordModal
      ensures userInfo == old(userInfo) && isEditing == old(isEditing)
      ensures passwordData == old(passwordData) && currentUserId == old(currentUserId)
    {
      showPasswordModal := false;
    }

    method SetPasswordData(data: PasswordData)
      modifies this
      ensures passwordData == data && showPasswordModal == old(showPasswordModal)
      ensures userInfo == old(userInfo) && isEditing == old(isEditing) && currentUserId == old(currentUserId)
    {
      passwordData := data;
    }

    /** `handlePasswordChange`: a mismatch keeps the dialog and what was
        typed; a match closes the dialog and clears all three fields. The
        alert shown is returned. */
    method HandlePasswordChange() returns (alert: string)
      modifies this
      ensures old(passwordData.newPassword) != old(passwordData.confirmPassword) ==>
        alert == PasswordMismatch && passwordData == old(passwordData) && showPasswordModal == old(showPasswordModal)
      ensures old(passwordData.newPassword) == old(passwordData.confirmPassword) ==>
        alert == PasswordChanged && passwordData == EmptyPasswords && !showPasswordModal
      ensures userInfo == old(userInfo) && isEditing == old(isEditing) && currentUserId == old(currentUserId)
    {
      if passwordData.newPassword != passwordData.confirmPassword {
        return PasswordMismatch;
      }
      alert := PasswordChanged;
      showPasswordModal := false;
      passwordData := EmptyPasswords;
    }
  }
}
