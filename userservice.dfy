/**
 * `UserService` (src/api/user.js): the methods that change the stored user
 * (`updateUserProfile`, `uploadAvatar`), the one that ends the session
 * (`deleteAccount`), and the availability checks whose message depends on
 * the response.
 *
 * How each request settles is a parameter (`Settled`); `JSON.parse` and
 * `JSON.stringify` are oracles.
 */
module UserService {
  import opened Json
  import opened Results
  import opened Browser
  import opened Http
  import AuthService

  const ProfileUpdated := "用户资料更新成功"
  const ProfileUpdateFailed := "用户资料更新失败"
  const AvatarUploaded := "头像上传成功"
  const AvatarUploadFailed := "头像上传失败"
  const AccountDeleted := "账户删除成功"
  const AccountDeleteFailed := "账户删除失败"
  const UsernameFree := "用户名可用"
  const UsernameTaken := "用户名已被使用"
  const UsernameCheckFailed := "用户名验证失败"
  const EmailFree := "邮箱可用"
  const EmailTaken := "邮箱已被使用"
  const EmailCheckFailed := "邮箱验证失败"

  const AvatarTypes := ["image/jpeg", "image/png", "image/gif", "image/webp"]
  const MaxAvatarSize := 5 * 1024 * 1024
  const UnsupportedAvatar := "不支持的文件类型，请上传 JPG、PNG、GIF 或 WebP 格式的图片"
  const AvatarTooLarge := "文件大小不能超过 5MB"

  /** `localStorage.getItem('user') || '{}'`: the text `JSON.parse` is given. */
  function StoredUserText(items: map<string, string>): (t: string)
    ensures UserKey in items && items[UserKey] != "" ==> t == items[UserKey]
    ensures !(UserKey in items && items[UserKey] != "") ==> t == "{}"
  {
    if UserKey in items && items[UserKey] != "" then items[UserKey] else "{}"
  }

  /** The value `{...x}` spreads: undefined spreads like null, i.e. not at all. */
  function Spreadable(v: Option<Json>): Json
  {
    if v.Some? then v.value else Null
  }

  // ---------------------------------------------------------------------------
  // updateUserProfile
  // ---------------------------------------------------------------------------

  /**
   * `updateUserProfile(profileData)`: after the request succeeds, the stored
   * user (or {} when none is stored) is merged with the response, response
   * keys winning, and written back. A stored user that does not parse makes
   * the call fail with the parse error and leaves storage as it was.
   */
  method UpdateUserProfile(outcome: Settled, storage: LocalStorage, parse: Parse, stringify: Stringify)
    returns (r: ServiceResult)
    modifies storage
    ensures outcome.Rejected? ==>
      r == Failed(outcome.message, ProfileUpdateFailed) && storage.items == old(storage.items)
    ensures outcome.Resolved? && parse(StoredUserText(old(storage.items))).SyntaxError? ==>
      r == Failed(parse(StoredUserText(old(storage.items))).message, ProfileUpdateFailed)
      && storage.items == old(storage.items)
    ensures outcome.Resolved? && parse(StoredUserText(old(storage.items))).Parsed? ==>
      var merged := Spread(parse(StoredUserText(old(storage.items))).value, Spreadable(outcome.value));
      r == Succeeded(outcome.value, ProfileUpdated)
      && storage.items == old(storage.items)[UserKey := stringify(merged)]
  {
    match outcome
    case Rejected(e) =>
      r := Failed(e, ProfileUpdateFailed);
    case Resolved(response) =>
      var current := parse(StoredUserText(storage.items));
      match current
      case SyntaxError(e) =>
        r := Failed(e, ProfileUpdateFailed);
      case Parsed(currentUser) =>
        var updatedUser := Spread(currentUser, Spreadable(response));
        storage.SetItem(UserKey, stringify(updatedUser));
        r := Succeeded(response, ProfileUpdated);
  }

  /**
   * What the profile update stores is what `getCurrentUser` reads back: every
   * key of the response takes the response's value, every other key keeps
   * the stored user's, as long as serializing the merge round-trips.
   */
  lemma ProfileUpdateReadBack(items: map<string, string>, response: Option<Json>, parse: Parse, stringify: Stringify)
    requires parse(StoredUserText(items)).Parsed?
    requires var merged := Spread(parse(StoredUserText(items)).value, Spreadable(response));
      stringify(merged) != "" && parse(stringify(merged)) == Parsed(merged)
    ensures var stored := parse(StoredUserText(items)).value;
      var read := AuthService.GetCurrentUser(items[UserKey := stringify(Spread(stored, Spreadable(response)))], parse);
      && read.Obj?
      && forall k :: Lookup(read.fields, k) ==
           Later(Lookup(SpreadFields(stored), k), Lookup(SpreadFields(Spreadable(response)), k))
  {
  }

  // ---------------------------------------------------------------------------
  // uploadAvatar
  // ---------------------------------------------------------------------------

  /**
   * The checks before the upload, in order: reading `type` of a missing file
   * throws, then the type must be one of the four image types, then the size
   * must not exceed 5 MiB. None means the upload is sent.
   */
  function AvatarGate(file: Option<FileInfo>): (e: Option<string>)
    ensures e.None? <==> file.Some? && file.value.mime in AvatarTypes && file.value.size <= MaxAvatarSize
    ensures file.None? ==> e == Some(EngineTypeError)
    ensures file.Some? && file.value.mime !in AvatarTypes ==> e == Some(UnsupportedAvatar)
    ensures file.Some? && file.value.mime in AvatarTypes && file.value.size > MaxAvatarSize ==> e == Some(AvatarTooLarge)
  {
    if file.None? then Some(EngineTypeError)
    else if file.value.mime !in AvatarTypes then Some(UnsupportedAvatar)
    else if file.value.size > MaxAvatarSize then Some(AvatarTooLarge)
    else None
  }

  /** The type is checked before the size: a refused type is reported whatever the size. */
  lemma AvatarTypeCheckedFirst(name: string, mime: string, size: int)
    requires mime !in AvatarTypes
    ensures AvatarGate(Some(FileInfo(name, mime, size))) == Some(UnsupportedAvatar)
  {
  }

  /** Exactly 5 MiB passes, one byte more is refused. */
  lemma AvatarSizeBoundary(name: string, mime: string)
    requires mime in AvatarTypes
    ensures AvatarGate(Some(FileInfo(name, mime, 5242880))).None?
    ensures AvatarGate(Some(FileInfo(name, mime, 5242881))) == Some(AvatarTooLarge)
  {
  }

  /**
   * `currentUser.avatar = response.avatarUrl`, then `JSON.stringify`: an
   * object gets the avatar and keeps every other field (an undefined avatar
   * is dropped by serialization); an array serializes without it; setting a
   * property of null or of a primitive throws in strict code (None).
   */
  function WithAvatar(user: Json, avatarUrl: Option<Json>): (r: Option<Json>)
    ensures r.None? <==> !(user.Obj? || user.Arr?)
    ensures user.Arr? ==> r == Some(user)
    ensures user.Obj? ==>
      && r.Some? && r.value.Obj?
      && Lookup(r.value.fields, "avatar") == avatarUrl
      && forall k :: k != "avatar" ==> Lookup(r.value.fields, k) == Lookup(user.fields, k)
  {
    match user
    case Obj(fs) => Some(Obj(if avatarUrl.Some? then Put(fs, "avatar", avatarUrl.value) else Delete(fs, "avatar")))
    case Arr(_) => Some(user)
    case _ => None
  }

  /**
   * `uploadAvatar(file)`: a refused file fails with the gate's message and
   * sends nothing; a rejected upload fails; a successful upload stores the
   * user with the new avatar. Reading `avatarUrl` of a null response, a
   * stored user that does not parse, or one that cannot take a property
   * makes the call fail after the upload, with storage unchanged.
   */
  method UploadAvatar(file: Option<FileInfo>, outcome: Settled, storage: LocalStorage, parse: Parse, stringify: Stringify)
    returns (r: ServiceResult)
    modifies storage
    ensures AvatarGate(file).Some? ==>
      r == Failed(AvatarGate(file).value, AvatarUploadFailed) && storage.items == old(storage.items)
    ensures AvatarGate(file).None? && outcome.Rejected? ==>
      r == Failed(outcome.message, AvatarUploadFailed) && storage.items == old(storage.items)
    ensures r.Succeeded? <==>
      AvatarGate(file).None? && outcome.Resolved? && parse(StoredUserText(old(storage.items))).Parsed?
      && !AuthService.Nullish(outcome.value)
      && WithAvatar(parse(StoredUserText(old(storage.items))).value, Field(outcome.value.value, "avatarUrl")).Some?
    ensures r.Succeeded? ==>
      var user := parse(StoredUserText(old(storage.items))).value;
      r == Succeeded(outcome.value, AvatarUploaded)
      && storage.items == old(storage.items)[UserKey :=
           stringify(WithAvatar(user, Field(outcome.value.value, "avatarUrl")).value)]
    ensures r.Failed? ==> r.message == AvatarUploadFailed && storage.items == old(storage.items)
  {
    var gate := AvatarGate(file);
    if gate.Some? {
      return Failed(gate.value, AvatarUploadFailed);
    }
    match outcome
    case Rejected(e) =>
      r := Failed(e, AvatarUploadFailed);
    case Resolved(response) =>
      match parse(StoredUserText(storage.items))
      case SyntaxError(e) =>
        r := Failed(e, AvatarUploadFailed);
      case Parsed(currentUser) =>
        if AuthService.Nullish(response) {
          return Failed(EngineTypeError, AvatarUploadFailed);
        }
        match WithAvatar(currentUser, Field(response.value, "avatarUrl"))
        case None =>
          r := Failed(EngineTypeError, AvatarUploadFailed);
        case Some(updated) =>
          storage.SetItem(UserKey, stringify(updated));
          r := Succeeded(response, AvatarUploaded);
  }

  // ---------------------------------------------------------------------------
  // deleteAccount and the availability checks
  // ---------------------------------------------------------------------------

  /** `deleteAccount(password)`: the session keys go only once the request has succeeded. */
  method DeleteAccount(outcome: Settled, storage: LocalStorage) returns (r: ServiceResult)
    modifies storage
    ensures r == Invoke(outcome, AccountDeleted, AccountDeleteFailed)
    ensures outcome.Resolved? ==> storage.items == WithoutSession(old(storage.items))
    ensures outcome.Rejected? ==> storage.items == old(storage.items)
  {
    match outcome
    case Rejected(e) =>
      r := Failed(e, AccountDeleteFailed);
    case Resolved(response) =>
      storage.RemoveItem(TokenKey);
      storage.RemoveItem(UserKey);
      storage.RemoveItem(LoggedInKey);
      r := Succeeded(response, AccountDeleted);
  }

  /**
   * The shape of `checkUsernameAvailability` and `checkEmailAvailability`:
   * the success message says whether `response.available` is truthy;
   * reading it from a null response throws and the call fails.
   */
  function Availability(outcome: Settled, free: string, taken: string, failed: string): (r: ServiceResult)
    ensures r.Succeeded? <==> outcome.Resolved? && !AuthService.Nullish(outcome.value)
    ensures outcome.Rejected? ==> r == Failed(outcome.message, failed)
    ensures outcome.Resolved? && AuthService.Nullish(outcome.value) ==> r == Failed(EngineTypeError, failed)
    ensures r.Succeeded? ==>
      && r.data == outcome.value
      && var available := Field(outcome.value.value, "available");
         r.message == if available.Some? && Truthy(available.value) then free else taken
  {
    match outcome
    case Rejected(e) => Failed(e, failed)
    case Resolved(response) =>
      if AuthService.Nullish(response) then Failed(EngineTypeError, failed)
      else
        var available := Field(response.value, "available");
        Succeeded(response, if available.Some? && Truthy(available.value) then free else taken)
  }

  function CheckUsernameAvailability(outcome: Settled): (r: ServiceResult)
    ensures outcome.Rejected? ==> r == Failed(outcome.message, UsernameCheckFailed)
    ensures r.Failed? ==> r.message == UsernameCheckFailed
    ensures r.Succeeded? ==> r.message == UsernameFree || r.message == UsernameTaken
  {
    Availability(outcome, UsernameFree, UsernameTaken, UsernameCheckFailed)
  }

  function CheckEmailAvailability(outcome: Settled): (r: ServiceResult)
    ensures outcome.Rejected? ==> r == Failed(outcome.message, EmailCheckFailed)
    ensures r.Failed? ==> r.message == EmailCheckFailed
    ensures r.Succeeded? ==> r.message == EmailFree || r.message == EmailTaken
  {
    Availability(outcome, EmailFree, EmailTaken, EmailCheckFailed)
  }

  /** `available: true` reads as free, `available: false` (or no such field) as taken. */
  lemma AvailabilityFollowsFlag(fields: Fields)
    ensures CheckUsernameAvailability(Resolved(Some(Obj(fields + [("available", Bool(true))])))).message == UsernameFree
    ensures CheckUsernameAvailability(Resolved(Some(Obj(fields + [("available", Bool(false))])))).message == UsernameTaken
    ensures "available" !in Keys(fields) ==> CheckEmailAvailability(Resolved(Some(Obj(fields)))).message == EmailTaken
  {
    LookupSnoc(fields, ("available", Bool(true)), "available");
    LookupSnoc(fields, ("available", Bool(false)), "available");
  }
}
