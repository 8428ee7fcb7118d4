/** The registration form: the check applied to a picked profile picture,
    and the choice between uploading the picture before the profile update
    or updating the profile without one. */
module Register {
  import opened Values
  import Auth

  /** The largest accepted picture, in bytes (1 MiB). */
  const MaxSize: nat := 1048576

  const AllowedTypes: seq<string> := ["image/jpeg", "image/png", "image/gif"]

  const SizeMessage: string := "File size must be less than 1MB."

  const TypeMessage: string := "Only image files (JPEG, PNG, GIF) are allowed."

  /** Why a picked file is refused, or nothing when it is accepted: the size
      limit is checked first, then the MIME type. */
  function FileError(file: File): (r: Option<string>)
    ensures r.None? <==> file.size <= MaxSize && file.mimeType in AllowedTypes
    ensures file.size > MaxSize ==> r == Some(SizeMessage)
    ensures file.size <= MaxSize && file.mimeType !in AllowedTypes ==> r == Some(TypeMessage)
  {
    if file.size > MaxSize then Some(SizeMessage)
    else if file.mimeType !in AllowedTypes then Some(TypeMessage)
    else None
  }

  /** A picture of exactly the limit passes the size check; one byte more
      fails it, and the size message wins over the type message. */
  lemma SizeBoundary(name: string, mimeType: string)
    ensures FileError(File(name, MaxSize, "image/png")).None?
    ensures FileError(File(name, MaxSize + 1, mimeType)) == Some(SizeMessage)
  {
  }

  /** A profile change asked of the identity provider: the new display name
      and, when a picture was uploaded, its URL. */
  datatype ProfileChange = ProfileChange(displayName: string, photoURL: Option<string>)

  /** The form's state besides its input controls. */
  class RegisterForm {
    var errorMessage: string
    var selectedFile: Option<File>

    constructor ()
      ensures errorMessage == "" && selectedFile == None
    {
      errorMessage := "";
      selectedFile := None;
    }

    /** Checks a picked file: an accepted one becomes the selected file and
        clears the message; a refused one clears the selection and sets the
        message. Picking nothing changes nothing. */
    method OnFileSelected(file: Option<File>)
      modifies this
      ensures file.None? ==> errorMessage == old(errorMessage) && selectedFile == old(selectedFile)
      ensures file.Some? && FileError(file.value).None? ==> errorMessage == "" && selectedFile == file
      ensures file.Some? && FileError(file.value).Some? ==>
                errorMessage == FileError(file.value).value && selectedFile == None
    {
      if file.Some? {
        var f := file.value;
        if f.size > MaxSize {
          errorMessage := SizeMessage;
          selectedFile := None;
        } else if f.mimeType !in AllowedTypes {
          errorMessage := TypeMessage;
          selectedFile := None;
        } else {
          errorMessage := "";
          selectedFile := Some(f);
        }
      }
    }

    /** The registration's outcome: a new user goes on to the profile
        update; a failure shows its message. */
    method OnRegister(credential: Result<AuthUser>) returns (proceed: bool)
      modifies this`errorMessage
      ensures proceed <==> credential.Ok?
      ensures errorMessage == if credential.Err? then credential.message else old(errorMessage)
    {
      match credential
      case Ok(_) =>
        proceed := true;
      case Err(message) =>
        errorMessage := message;
        proceed := false;
    }

    /** After registration: with a selected file, uploads it and, once the
        upload gave a URL, updates the profile with that URL; without one,
        updates the profile without a photo URL. A failed step sets the
        message; `done` says the registration completed. */
    method UpdateUserProfile(user: AuthUser, username: string, upload: Result<string>, update: Outcome)
      returns (uploadPath: Option<string>, change: Option<ProfileChange>, done: bool)
      modifies this`errorMessage
      ensures uploadPath.Some? <==> selectedFile.Some?
      ensures selectedFile.Some? ==> uploadPath == Some(Auth.UploadPath(user.uid, selectedFile.value.name))
      ensures selectedFile.None? ==> change == Some(ProfileChange(username, None))
      ensures selectedFile.Some? ==> change == if upload.Ok? then Some(ProfileChange(username, Some(upload.value))) else None
      ensures done <==> change.Some? && update.Pass?
      ensures selectedFile.Some? && upload.Err? ==> errorMessage == upload.message
      ensures change.Some? && update.Fail? ==> errorMessage == update.message
      ensures done ==> errorMessage == old(errorMessage)
    {
      done := false;
      if selectedFile.Some? {
        uploadPath := Some(Auth.UploadPath(user.uid, selectedFile.value.name));
        match upload
        case Ok(photoURL) =>
          change := Some(ProfileChange(username, Some(photoURL)));
        case Err(message) =>
          change := None;
          errorMessage := message;
      } else {
        uploadPath := None;
        change := Some(ProfileChange(username, None));
      }
      if change.Some? {
        match update
        case Pass =>
          done := true;
        case Fail(message) =>
          errorMessage := message;
      }
    }
  }
}
