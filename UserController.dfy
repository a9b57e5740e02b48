/**
 * The profile endpoints' logic: which profile fields an update may set, the
 * checks an avatar upload passes before anything is stored, and the string
 * helpers that turn an avatar URL back into a file name, an extension and a
 * media type.
 *
 * The user row's own class is not part of this model; its fields here are the
 * ones the endpoints read and set.
 */
module UserController {
  import opened Model
  import opened Strings

  class User {
    const id: int
    var name: string
    var email: string
    var phone: string
    var address: string
    var bio: string
    var avatar: Option<string>
    var role: string

    constructor (id: int, name: string, email: string, role: string)
      ensures this.id == id && this.name == name && this.email == email && this.role == role
      ensures phone == "" && address == "" && bio == "" && avatar == None
    {
      this.id := id;
      this.name := name;
      this.email := email;
      this.role := role;
      phone, address, bio, avatar := "", "", "", None;
    }

    /**
     * `updateProfile`: each entry of `updates` whose key is `name`, `phone`,
     * `address` or `bio` sets that field; every other key, `avatar`, `email`
     * and `role` among them, is ignored.
     */
    method UpdateProfile(updates: map<string, string>)
      modifies this
      ensures name == if "name" in updates then updates["name"] else old(name)
      ensures phone == if "phone" in updates then updates["phone"] else old(phone)
      ensures address == if "address" in updates then updates["address"] else old(address)
      ensures bio == if "bio" in updates then updates["bio"] else old(bio)
      ensures email == old(email) && avatar == old(avatar) && role == old(role)
    {
      var pending := updates.Keys;
      while pending != {}
        invariant pending <= updates.Keys
        invariant name == if "name" in updates && "name" !in pending then updates["name"] else old(name)
        invariant phone == if "phone" in updates && "phone" !in pending then updates["phone"] else old(phone)
        invariant address == if "address" in updates && "address" !in pending then updates["address"] else old(address)
        invariant bio == if "bio" in updates && "bio" !in pending then updates["bio"] else old(bio)
        invariant email == old(email) && avatar == old(avatar) && role == old(role)
        decreases pending
      {
        var key :| key in pending;
        var value := updates[key];
        if key == "name" {
          name := value;
        } else if key == "phone" {
          phone := value;
        } else if key == "address" {
          address := value;
        } else if key == "bio" {
          bio := value;
        }
        pending := pending - {key};
      }
    }

    /**
     * `uploadAvatar`. `isEmpty`, `contentType` and `originalFilename` describe
     * the uploaded part; `storageFails` says whether writing the file raised
     * an I/O error. The avatar changes only when the upload got through.
     */
    method UploadAvatar(isEmpty: bool, contentType: string, originalFilename: Option<string>, storageFails: bool)
      returns (reply: UploadReply)
      modifies this
      ensures isEmpty ==> reply == BadRequest("File is empty")
      ensures !isEmpty && !StartsWith(contentType, "image/") ==> reply == BadRequest("Only images are allowed")
      ensures !isEmpty && StartsWith(contentType, "image/") && storageFails ==>
        reply == ServerError("Failed to upload avatar")
      ensures reply.Uploaded? <==> !isEmpty && StartsWith(contentType, "image/") && !storageFails
      ensures reply.Uploaded? ==>
        reply.avatarUrl == AvatarUrl(id, UploadExtension(originalFilename)) && avatar == Some(reply.avatarUrl)
      ensures !reply.Uploaded? ==> avatar == old(avatar)
      ensures name == old(name) && email == old(email) && phone == old(phone)
      ensures address == old(address) && bio == old(bio) && role == old(role)
    {
      if isEmpty {
        return BadRequest("File is empty");
      }
      if !StartsWith(contentType, "image/") {
        return BadRequest("Only images are allowed");
      }
      if storageFails {
        return ServerError("Failed to upload avatar");
      }
      var fileName := "user_" + Decimal(id) + UploadExtension(originalFilename);
      var fileUrl := "/static/avatars/" + fileName;
      avatar := Some(fileUrl);
      reply := Uploaded(fileUrl);
    }
  }

  /** The outcome of an avatar upload. */
  datatype UploadReply = BadRequest(error: string) | ServerError(error: string) | Uploaded(avatarUrl: string)

  /** The URL an uploaded avatar is served under. */
  function AvatarUrl(id: int, extension: string): string {
    "/static/avatars/" + "user_" + Decimal(id) + extension
  }

  /** `extractFileName`: what follows the last `/`, or the whole URL when it has none. */
  function ExtractFileName(url: string): (r: string)
    ensures |r| <= |url| && r == url[|url| - |r|..]
    ensures '/' !in r
    ensures '/' !in url ==> r == url
    ensures |r| < |url| ==> url[|url| - |r| - 1] == '/'
  {
    url[LastIndexOf(url, '/') + 1..]
  }

  /**
   * `getFileExtension`: from the last `.` to the end, or `.jpg` when there is
   * no file name or it has no `.`.
   */
  function GetFileExtension(filename: Option<string>): (r: string)
    ensures filename.None? || '.' !in filename.value ==> r == ".jpg"
    ensures filename.Some? && '.' in filename.value ==>
      && |r| <= |filename.value| && r == filename.value[|filename.value| - |r|..]
    ensures |r| >= 1 && r[0] == '.' && '.' !in r[1..]
  {
    if filename.None? || LastIndexOf(filename.value, '.') == -1 then ".jpg"
    else filename.value[LastIndexOf(filename.value, '.')..]
  }

  /**
   * The extension an upload stores the avatar under: that of the last path
   * segment of the client's file name. Taken from the whole name, as the
   * upload endpoint does, an extension can hold a `/`; see
   * `SlashInFileNameLosesAvatar`.
   */
  function UploadExtension(filename: Option<string>): (r: string)
    ensures '/' !in r
    ensures filename.Some? && '/' !in filename.value ==> r == GetFileExtension(filename)
    ensures |r| >= 1 && r[0] == '.' && '.' !in r[1..]
  {
    GetFileExtension(if filename.None? then None else Some(ExtractFileName(filename.value)))
  }

  datatype MediaType = ImagePng | ImageGif | ImageJpeg

  /**
   * The media-type switch on the lower-cased extension: PNG and GIF each for
   * exactly one lower-cased extension, JPEG for everything else, so any
   * extension that is not four characters long is served as JPEG.
   */
  function MediaTypeFor(extension: string): (r: MediaType)
    ensures r == ImagePng <==> ToLower(extension) == ".png"
    ensures r == ImageGif <==> ToLower(extension) == ".gif"
    ensures |extension| != 4 ==> r == ImageJpeg
  {
    var lower := ToLower(extension);
    if lower == ".png" then ImagePng
    else if lower == ".gif" then ImageGif
    else ImageJpeg
  }

  /** The media type `getAvatar` serves for a stored avatar URL. */
  function AvatarMediaType(url: string): MediaType {
    MediaTypeFor(GetFileExtension(Some(ExtractFileName(url))))
  }

  /** The letter case of `.png` and `.gif` does not matter; any other extension is JPEG. */
  lemma MediaTypeCases()
    ensures MediaTypeFor(".PNG") == ImagePng && MediaTypeFor(".Gif") == ImageGif && MediaTypeFor(".webp") == ImageJpeg
  {
    assert ToLower(".PNG") == ".png";
    assert ToLower(".Gif") == ".gif";
    assert ToLower(".webp")[1] == 'w';
  }

  /** The last `/` of a URL whose final segment has none is the one ending its prefix. */
  lemma LastSlashOfPrefix(prefix: string, name: string)
    requires |prefix| > 0 && prefix[|prefix| - 1] == '/' && '/' !in name
    ensures LastIndexOf(prefix + name, '/') == |prefix| - 1
  {
    var s := prefix + name;
    var r := LastIndexOf(s, '/');
    assert s[|prefix| - 1] == '/';
  }

  /** Reading back the file name of a stored avatar URL gives the name the upload chose. */
  lemma ExtractFileNameRoundTrip(id: int, extension: string)
    requires '/' !in extension
    ensures ExtractFileName(AvatarUrl(id, extension)) == "user_" + Decimal(id) + extension
  {
    var name := "user_" + Decimal(id) + extension;
    assert AvatarUrl(id, extension) == "/static/avatars/" + name;
    assert '/' !in name by {
      assert forall i :: 0 <= i < |Decimal(id)| ==> Decimal(id)[i] != '/';
    }
    LastSlashOfPrefix("/static/avatars/", name);
    assert ("/static/avatars/" + name)[16..] == name;
  }

  /** The extension of `"user_" + id + extension` is `extension` again. */
  lemma ExtensionRoundTrip(id: int, extension: string)
    requires |extension| >= 1 && extension[0] == '.' && '.' !in extension[1..]
    ensures GetFileExtension(Some("user_" + Decimal(id) + extension)) == extension
  {
    var stem := "user_" + Decimal(id);
    var name := stem + extension;
    assert '.' !in stem by {
      assert forall i :: 0 <= i < |Decimal(id)| ==> Decimal(id)[i] != '.';
    }
    var r := LastIndexOf(name, '.');
    assert name[|stem|] == '.';
    assert r == |stem|;
    assert name[|stem|..] == extension;
  }

  /**
   * The extension the upload endpoint takes from the whole client file name:
   * for `a.png/x` it is `.png/x`, the avatar is written as
   * `user_<id>.png/x`, and the URL it records leads `getAvatar` to a file
   * named `x`, which the upload never wrote.
   */
  lemma SlashInFileNameLosesAvatar(id: int)
    ensures GetFileExtension(Some("a.png/x")) == ".png/x"
    ensures ExtractFileName(AvatarUrl(id, GetFileExtension(Some("a.png/x")))) == "x"
    ensures "x" != "user_" + Decimal(id) + GetFileExtension(Some("a.png/x"))
  {
    var name := "a.png/x";
    assert name[1] == '.' && name[2] != '.' && name[3] != '.' && name[4] != '.' && name[5] != '.' && name[6] != '.';
    assert LastIndexOf(name, '.') == 1;
    assert name[1..] == ".png/x";
    var prefix := "/static/avatars/" + "user_" + Decimal(id) + ".png/";
    assert AvatarUrl(id, ".png/x") == prefix + "x";
    LastSlashOfPrefix(prefix, "x");
    assert (prefix + "x")[|prefix|..] == "x";
  }

  /**
   * With the extension taken from the last path segment, the avatar an upload
   * stored is read back under the name it was written under and served with
   * the media type of the uploaded file's own extension, whatever the client
   * called the file.
   */
  lemma UploadedAvatarRoundTrip(id: int, originalFilename: Option<string>)
    ensures ExtractFileName(AvatarUrl(id, UploadExtension(originalFilename)))
      == "user_" + Decimal(id) + UploadExtension(originalFilename)
    ensures AvatarMediaType(AvatarUrl(id, UploadExtension(originalFilename))) == MediaTypeFor(UploadExtension(originalFilename))
  {
    var extension := UploadExtension(originalFilename);
    ExtractFileNameRoundTrip(id, extension);
    ExtensionRoundTrip(id, extension);
  }
}
