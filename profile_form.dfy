/**
 * The profile form's zod schema: a user name, a required avatar image and an
 * optional cover image, each image limited to a small set of MIME types.
 */
module ProfileForm {
  import opened Wrappers
  import opened JsModel

  /** What the file inputs hand the form: the chosen file, or `undefined` when none was chosen. */
  datatype ProfileInput = ProfileInput(userName: string, avatar: Option<FileMeta>, coverImage: Option<FileMeta>)

  const AllowedMimeTypes: seq<string> := ["image/jpeg", "image/png", "image/gif"]

  const UserNameTooShort := "Username must be at least 2 characters long"
  const UserNameTooLong := "Username must be at most 30 characters long"
  const UserNameCharset := "Username can only contain letters, numbers, and underscores"
  const FileRequired := "File is required"
  const FileNotImage := "File must be a valid image (JPEG, PNG, GIF)"

  /** `[a-zA-Z0-9_]` */
  predicate IsUserNameChar(c: char) {
    IsAsciiLetter(c) || IsAsciiDigit(c) || c == '_'
  }

  /** A user name is 2 to 30 characters long and made of letters, digits and underscores only. */
  predicate UserNameOk(userName: string) {
    2 <= |userName| <= 30 && forall i :: 0 <= i < |userName| ==> IsUserNameChar(userName[i])
  }

  /** An image file is acceptable when present and of an allowed type, or absent and optional. */
  predicate FileOk(isRequired: bool, file: Option<FileMeta>) {
    match file
    case None => !isRequired
    case Some(f) => f.mimeType == "image/jpeg" || f.mimeType == "image/png" || f.mimeType == "image/gif"
  }

  /**
   * `fileValidator(isRequired)` on the field `path`: both refinements run,
   * the first rejecting a missing required file, the second a file whose type
   * is not allowed.
   */
  function FileIssues(path: string, isRequired: bool, file: Option<FileMeta>): (r: seq<Issue>)
    ensures r == [] <==> FileOk(isRequired, file)
    ensures file.None? ==> r == (if isRequired then [Issue(path, FileRequired)] else [])
    ensures file.Some? ==> r == (if file.value.mimeType in AllowedMimeTypes then [] else [Issue(path, FileNotImage)])
  {
    Check(if isRequired then file.Some? else true, path, FileRequired)
    + Check(file.None? || file.value.mimeType in AllowedMimeTypes, path, FileNotImage)
  }

  /** The issues of `userName`, one per failing check. */
  function UserNameIssues(userName: string): (r: seq<Issue>)
    ensures r == [] <==> UserNameOk(userName)
    ensures Issue("userName", UserNameTooShort) in r <==> Utf16Length(userName) < 2
    ensures Issue("userName", UserNameTooLong) in r <==> Utf16Length(userName) > 30
    ensures Issue("userName", UserNameCharset) in r <==> !OnlyOf(userName, IsUserNameChar)
    ensures forall i | i in r :: i.path == "userName"
  {
    var issues :=
      Check(Utf16Length(userName) >= 2, "userName", UserNameTooShort)
      + Check(Utf16Length(userName) <= 30, "userName", UserNameTooLong)
      + Check(OnlyOf(userName, IsUserNameChar), "userName", UserNameCharset);
    assert OnlyOf(userName, IsUserNameChar) ==> Utf16Length(userName) == |userName| by {
      if OnlyOf(userName, IsUserNameChar) {
        UserNameLengthIsCharCount(userName);
      }
    }
    issues
  }

  /** User-name characters are ASCII, so a user name's `length` is its character count. */
  lemma {:induction false} UserNameLengthIsCharCount(userName: string)
    requires forall i :: 0 <= i < |userName| ==> IsUserNameChar(userName[i])
    ensures Utf16Length(userName) == |userName|
  {
    if userName != [] {
      UserNameLengthIsCharCount(userName[1..]);
    }
  }

  /** The issues `userProfileSchema` reports: user name, avatar (required), cover image (optional). */
  function ProfileIssues(form: ProfileInput): (r: seq<Issue>)
    ensures r == [] <==> UserNameOk(form.userName) && FileOk(true, form.avatar) && FileOk(false, form.coverImage)
    ensures form.avatar.None? ==> Issue("avatar", FileRequired) in r
    ensures form.coverImage.None? ==> forall i | i in r :: i.path != "coverImage"
  {
    UserNameIssues(form.userName) + FileIssues("avatar", true, form.avatar) + FileIssues("coverImage", false, form.coverImage)
  }

  /** Whatever the file, the only accepted types are the three listed, and each of them is accepted. */
  lemma MimeWhitelist(isRequired: bool, f: FileMeta)
    ensures FileIssues("avatar", isRequired, Some(f)) == [] <==> f.mimeType in AllowedMimeTypes
    ensures FileIssues("coverImage", isRequired, Some(f)) == [] <==> f.mimeType in AllowedMimeTypes
  {
  }
}
