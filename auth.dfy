/** The authentication service: the session profile cache it keeps in the
    browser's storage, the order in which logout touches the cache and the
    identity provider, the storage path of profile pictures, and the
    authentication test it offers. */
module Auth {
  import opened Values

  /** The profile fields cached under the `userData` storage key. */
  datatype UserData = UserData(email: Option<string>, displayName: Option<string>, photoURL: Option<string>)

  /** A call the service issues to browser storage or to the identity provider. */
  datatype Effect = StoreUserData(data: UserData) | RemoveUserData | SignOut

  /** The three cached fields of a user; the uid is not cached. */
  function Projection(user: AuthUser): UserData
  {
    UserData(user.email, user.displayName, user.photoURL)
  }

  /** The user object after a successful profile update: the display name is
      replaced, and the photo URL too when one was given. */
  function UpdatedProfile(user: AuthUser, displayName: string, photoURL: Option<string>): AuthUser
  {
    user.(displayName := Some(displayName), photoURL := if photoURL.Some? then photoURL else user.photoURL)
  }

  const UploadPrefix: string := "profilePictures/"

  /** The storage path of a user's profile picture: `profilePictures/{uid}/{fileName}`. */
  function UploadPath(uid: string, fileName: string): (r: string)
    ensures |r| == |UploadPrefix| + |uid| + 1 + |fileName|
    ensures r[..|UploadPrefix|] == UploadPrefix
    ensures r[|UploadPrefix|..|UploadPrefix| + |uid|] == uid && r[|UploadPrefix| + |uid|] == '/'
    ensures r[|UploadPrefix| + |uid| + 1..] == fileName
  {
    UploadPrefix + uid + "/" + fileName
  }

  /** The position of the first `/` in `s`, or `|s|` when there is none. */
  function SlashIndex(s: string): (i: nat)
    ensures i <= |s|
    ensures i < |s| ==> s[i] == '/'
    ensures forall j :: 0 <= j < i ==> s[j] != '/'
  {
    if s == [] then 0
    else if s[0] == '/' then 0
    else 1 + SlashIndex(s[1..])
  }

  /** Reads the owner's uid and the file name back out of an upload path. */
  function SplitUploadPath(path: string): Option<(string, string)>
  {
    if |path| < |UploadPrefix| || path[..|UploadPrefix|] != UploadPrefix then None
    else
      var rest := path[|UploadPrefix|..];
      var i := SlashIndex(rest);
      if i == |rest| then None else Some((rest[..i], rest[i + 1..]))
  }

  /** An upload path determines its owner and its file name, given that a
      uid never contains `/`. */
  lemma {:induction false} UploadPathRoundTrip(uid: string, fileName: string)
    requires '/' !in uid
    ensures SplitUploadPath(UploadPath(uid, fileName)) == Some((uid, fileName))
  {
    var path := UploadPath(uid, fileName);
    var rest := path[|UploadPrefix|..];
    assert path[..|UploadPrefix|] == UploadPrefix;
    assert rest == uid + "/" + fileName;
    var i := SlashIndex(rest);
    assert rest[|uid|] == '/';
    assert forall j :: 0 <= j < |uid| ==> rest[j] == uid[j] && uid[j] in uid;
    assert i == |uid|;
    assert rest[..i] == uid;
    assert rest[i + 1..] == fileName;
  }

  /** Two users, or two files of one user, never share an upload path. */
  lemma UploadPathsDistinct(uid1: string, name1: string, uid2: string, name2: string)
    requires '/' !in uid1 && '/' !in uid2
    requires uid1 != uid2 || name1 != name2
    ensures UploadPath(uid1, name1) != UploadPath(uid2, name2)
  {
    UploadPathRoundTrip(uid1, name1);
    UploadPathRoundTrip(uid2, name2);
  }

  /** `isAuthenticated` as written: it tests the truthiness of the stream
      object `user(auth)` returns, which exists whatever the session holds,
      so the answer never depends on the session. */
  function IsAuthenticated(session: Option<AuthUser>): (r: bool)
    ensures r
  {
    true
  }

  /** The evidently intended test: a user is signed in. */
  function IsSignedIn(session: Option<AuthUser>): (r: bool)
    ensures r <==> session.Some?
  {
    match session
    case Some(_) => true
    case None => false
  }

  /** With nobody signed in, `isAuthenticated` still answers yes, while the
      intended test answers no. */
  lemma IsAuthenticatedWithoutUser()
    ensures IsAuthenticated(None) && !IsSignedIn(None)
  {
  }

  /** The service with its cache, the `userData` entry of browser storage. */
  class AuthService {
    /** The parsed content of the `userData` storage entry, if any. */
    var stored: Option<UserData>
    /** The calls issued to storage and to the identity provider, oldest first. */
    ghost var effects: seq<Effect>

    /** Browser storage outlives the page, so a new service may find an entry. */
    constructor (initial: Option<UserData>)
      ensures stored == initial && effects == []
    {
      stored := initial;
      effects := [];
    }

    /** Caches a user's three profile fields; `null` changes nothing. */
    method SetUserData(user: Option<AuthUser>)
      modifies this
      ensures user.None? ==> stored == old(stored) && effects == old(effects)
      ensures user.Some? ==> stored == Some(Projection(user.value))
      ensures user.Some? ==> effects == old(effects) + [StoreUserData(Projection(user.value))]
    {
      if user.Some? {
        var u := user.value;
        var userData := UserData(u.email, u.displayName, u.photoURL);
        stored := Some(userData);
        effects := effects + [StoreUserData(userData)];
      }
    }

    /** Reads the cache: nothing when no entry is stored. */
    method GetUserData() returns (r: Option<UserData>)
      ensures r == stored
    {
      r := stored;
    }

    /** Removes the cache entry. */
    method ClearUserData()
      modifies this
      ensures stored == None
      ensures effects == old(effects) + [RemoveUserData]
    {
      stored := None;
      effects := effects + [RemoveUserData];
    }

    /** Clears the cache, then signs out; the cache is gone whatever the
        sign-out's outcome, which is handed back to the caller. */
    method Logout(signOut: Outcome) returns (r: Outcome)
      modifies this
      ensures stored == None
      ensures effects == old(effects) + [RemoveUserData, SignOut]
      ensures r == signOut
    {
      ClearUserData();
      effects := effects + [SignOut];
      r := signOut;
    }

    /** Caches the user a successful sign-in produced; a failure is handed back unchanged. */
    method CacheSignedIn(credential: Result<AuthUser>) returns (r: Result<AuthUser>)
      modifies this
      ensures r == credential
      ensures credential.Ok? ==> stored == Some(Projection(credential.value))
      ensures credential.Ok? ==> effects == old(effects) + [StoreUserData(Projection(credential.value))]
      ensures credential.Err? ==> stored == old(stored) && effects == old(effects)
    {
      if credential.Ok? {
        SetUserData(Some(credential.value));
      }
      r := credential;
    }

    /** Registration with email and password. */
    method Register(credential: Result<AuthUser>) returns (r: Result<AuthUser>)
      modifies this
      ensures r == credential
      ensures stored == if credential.Ok? then Some(Projection(credential.value)) else old(stored)
    {
      r := CacheSignedIn(credential);
    }

    /** Sign-in with email and password. */
    method Login(credential: Result<AuthUser>) returns (r: Result<AuthUser>)
      modifies this
      ensures r == credential
      ensures stored == if credential.Ok? then Some(Projection(credential.value)) else old(stored)
    {
      r := CacheSignedIn(credential);
    }

    /** Sign-in through the Google popup. */
    method GoogleSignIn(credential: Result<AuthUser>) returns (r: Result<AuthUser>)
      modifies this
      ensures r == credential
      ensures stored == if credential.Ok? then Some(Projection(credential.value)) else old(stored)
    {
      r := CacheSignedIn(credential);
    }

    /** Hands back the provider's current user, refreshing the cache only
        when there is one. */
    method GetCurrentUser(current: Option<AuthUser>) returns (r: Option<AuthUser>)
      modifies this
      ensures r == current
      ensures stored == if current.Some? then Some(Projection(current.value)) else old(stored)
    {
      var user := current;
      if user.Some? {
        SetUserData(user);
      }
      r := user;
    }

    /** Uploads a profile picture under the user's path and hands back its
        download URL; on success the user is cached as the object stands,
        since the photo URL change is not awaited. */
    method UploadProfilePicture(file: File, user: AuthUser, download: Result<string>)
      returns (path: string, r: Result<string>)
      modifies this
      ensures path == UploadPath(user.uid, file.name)
      ensures r == download
      ensures stored == if download.Ok? then Some(Projection(user)) else old(stored)
    {
      path := UploadPrefix + user.uid + "/" + file.name;
      if download.Ok? {
        SetUserData(Some(user));
      }
      r := download;
    }

    /** Updates the display name and, when given, the photo URL; on success
        the updated user is cached. */
    method UpdateUserProfile(user: AuthUser, displayName: string, photoURL: Option<string>, update: Outcome)
      returns (r: Outcome)
      modifies this
      ensures r == update
      ensures stored == if update.Pass? then Some(Projection(UpdatedProfile(user, displayName, photoURL))) else old(stored)
    {
      if update.Pass? {
        SetUserData(Some(UpdatedProfile(user, displayName, photoURL)));
      }
      r := update;
    }
  }

  /** Caching a user and reading the cache back gives its three fields. */
  method CacheReadsBack(initial: Option<UserData>, user: AuthUser) returns (r: Option<UserData>)
    ensures r == Some(UserData(user.email, user.displayName, user.photoURL))
  {
    var service := new AuthService(initial);
    service.SetUserData(Some(user));
    r := service.GetUserData();
  }

  /** After a logout the cache reads as empty, whether or not the sign-out succeeded. */
  method LogoutEmptiesCache(initial: Option<UserData>, signOut: Outcome) returns (r: Option<UserData>)
    ensures r == None
  {
    var service := new AuthService(initial);
    var _ := service.Logout(signOut);
    r := service.GetUserData();
  }
}
