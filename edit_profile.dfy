/** The profile editor: an avatar picker feeding a crop modal whose confirm
    uploads the cropped photo to a fixed per-user key, a remove button for
    the same key, and the save of the text fields. */
module EditProfile {
  import opened Common

  /** `croppedAreaPixels` as the cropper reports it. */
  datatype CropArea = CropArea(x: int, y: int, width: int, height: int)

  /** The toasts the page shows. */
  datatype Notice =
    | PhotoUpdated | PhotoUploadFailed | CropFailed
    | PhotoRemoved
    | ProfileUpdated | ProfileUpdateFailed

  /** `update({username, display_name, bio, avatar_url}).eq('user_id', userId)`
      on `profiles`. */
  datatype ProfileUpdate = ProfileUpdate(userId: string, username: string, displayName: string, bio: string, avatarUrl: Option<string>)

  const AvatarPrefix: string := "avatars/"
  const AvatarFile: string := "/profile.jpg"

  /** The storage key of a user's avatar, used both to upload and to
      remove it. */
  function AvatarPath(userId: string): string
  {
    AvatarPrefix + userId + AvatarFile
  }

  /** Reads the user back out of an avatar key. */
  function AvatarOwner(path: string): Option<string>
  {
    if |path| >= |AvatarPrefix| + |AvatarFile|
       && path[..|AvatarPrefix|] == AvatarPrefix
       && path[|path| - |AvatarFile|..] == AvatarFile
    then Some(path[|AvatarPrefix|..|path| - |AvatarFile|])
    else None
  }

  /** The avatar key of a user names that user. */
  lemma AvatarPathRoundTrip(userId: string)
    ensures AvatarOwner(AvatarPath(userId)) == Some(userId)
  {
    var p := AvatarPath(userId);
    assert p[..|AvatarPrefix|] == AvatarPrefix;
    assert p[|p| - |AvatarFile|..] == AvatarFile;
    assert p[|AvatarPrefix|..|p| - |AvatarFile|] == userId;
  }

  /** Different users have different avatar keys, so one user's upload or
      removal never touches another's photo. */
  lemma AvatarPathInjective(u1: string, u2: string)
    requires AvatarPath(u1) == AvatarPath(u2)
    ensures u1 == u2
  {
    AvatarPathRoundTrip(u1);
    AvatarPathRoundTrip(u2);
  }

  class ProfileEditor {
    var username: string
    var displayName: string
    var bio: string
    var avatarUrl: Option<string>
    var uploading: bool
    var selectedImage: Option<string>
    var croppedArea: Option<CropArea>
    var showCropModal: bool

    /** Between handlers nothing is uploading, and the crop modal is shown
        only with an image to crop. */
    ghost predicate Valid()
      reads this
    {
      !uploading && (showCropModal ==> selectedImage.Some?)
    }

    constructor ()
      ensures Valid()
      ensures username == "" && displayName == "" && bio == "" && avatarUrl == None
      ensures !uploading && selectedImage == None && croppedArea == None && !showCropModal
    {
      username := "";
      displayName := "";
      bio := "";
      avatarUrl := None;
      uploading := false;
      selectedImage := None;
      croppedArea := None;
      showCropModal := false;
    }

    /** `handleAvatarChange`: `picked` is whether the picker returned a
        file, and `dataUrl` what the `FileReader` loads it as. The read is
        taken to complete within the handler. */
    method AvatarChange(picked: bool, dataUrl: string)
      requires Valid()
      modifies this
      ensures Valid()
      ensures !picked ==> unchanged(this)
      ensures picked ==> selectedImage == Some(dataUrl) && showCropModal
      ensures username == old(username) && displayName == old(displayName) && bio == old(bio)
      ensures avatarUrl == old(avatarUrl) && uploading == old(uploading) && croppedArea == old(croppedArea)
    {
      if !picked {
        return;
      }
      selectedImage := Some(dataUrl);
      showCropModal := true;
    }

    /** `onCropComplete`. */
    method CropComplete(area: CropArea)
      requires Valid()
      modifies this
      ensures Valid()
      ensures croppedArea == Some(area)
      ensures username == old(username) && displayName == old(displayName) && bio == old(bio)
      ensures avatarUrl == old(avatarUrl) && uploading == old(uploading)
      ensures selectedImage == old(selectedImage) && showCropModal == old(showCropModal)
    {
      croppedArea := Some(area);
    }

    /** `handleCropConfirm`: `cropped` is whether `getCroppedImg` resolved
        (it may throw), `storageError` the upload's error and `publicUrl`
        what `getPublicUrl` gives for the key. Returns the key uploaded to,
        and None when the guard refused or the crop threw. */
    method CropConfirm(user: Option<User>, cropped: bool, storageError: Option<string>, publicUrl: string)
      returns (uploadedTo: Option<string>, notice: Option<Notice>)
      requires Valid()
      modifies this
      ensures Valid()
      ensures var refused := !Truthy(old(selectedImage)) || user.None? || old(croppedArea).None?;
        && (refused ==> uploadedTo.None? && notice.None? && unchanged(this))
        && (!refused ==> !showCropModal && selectedImage == None)
        && (!refused && !cropped ==> uploadedTo.None? && notice == Some(CropFailed))
        && (!refused && cropped ==> uploadedTo == Some(AvatarPath(user.value.id)))
        && (!refused && cropped && storageError.None? ==> notice == Some(PhotoUpdated))
        && (!refused && cropped && storageError.Some? ==> notice == Some(PhotoUploadFailed))
      ensures avatarUrl == (if uploadedTo.Some? && storageError.None? then Some(publicUrl) else old(avatarUrl))
      ensures !uploading
      ensures username == old(username) && displayName == old(displayName) && bio == old(bio)
      ensures croppedArea == old(croppedArea)
    {
      var refused := !Truthy(selectedImage) || user.None? || croppedArea.None?;
      if refused {
        return None, None;
      }
      uploading := true;
      if !cropped {
        uploadedTo := None;
        notice := Some(CropFailed);
      } else {
        var key := AvatarPath(user.value.id);
        uploadedTo := Some(key);
        if storageError.None? {
          avatarUrl := Some(publicUrl);
          notice := Some(PhotoUpdated);
        } else {
          notice := Some(PhotoUploadFailed);
        }
      }
      uploading := false;
      showCropModal := false;
      selectedImage := None;
    }

    /** `handleCropCancel`. */
    method CropCancel()
      requires Valid()
      modifies this
      ensures Valid()
      ensures !showCropModal && selectedImage == None
      ensures username == old(username) && displayName == old(displayName) && bio == old(bio)
      ensures avatarUrl == old(avatarUrl) && uploading == old(uploading) && croppedArea == old(croppedArea)
    {
      showCropModal := false;
      selectedImage := None;
    }

    /** The crop dialog's `onOpenChange(false)`: the modal closes but the
        image stays selected. The dialog holds a plain `div` and no dialog
        content or close control, so nothing on the page appears to call
        it; the transition is kept for completeness and is probably
        unreachable. */
    method CloseCropModal()
      requires Valid()
      modifies this
      ensures Valid()
      ensures !showCropModal
      ensures username == old(username) && displayName == old(displayName) && bio == old(bio)
      ensures avatarUrl == old(avatarUrl) && uploading == old(uploading)
      ensures selectedImage == old(selectedImage) && croppedArea == old(croppedArea)
    {
      showCropModal := false;
    }

    /** `handleRemoveAvatar`: returns the key removed. The removal's error
        is not looked at. */
    method RemoveAvatar(user: Option<User>) returns (removed: Option<string>, notice: Option<Notice>)
      requires Valid()
      modifies this
      ensures Valid()
      ensures user.None? ==> removed.None? && notice.None? && unchanged(this)
      ensures user.Some? ==> removed == Some(AvatarPath(user.value.id)) && avatarUrl == None && notice == Some(PhotoRemoved)
      ensures username == old(username) && displayName == old(displayName) && bio == old(bio)
      ensures uploading == old(uploading) && selectedImage == old(selectedImage)
      ensures croppedArea == old(croppedArea) && showCropModal == old(showCropModal)
    {
      if user.None? {
        return None, None;
      }
      removed := Some(AvatarPath(user.value.id));
      avatarUrl := None;
      notice := Some(PhotoRemoved);
    }

    /** The username input's `onChange`. */
    method SetUsername(value: string)
      modifies this
      ensures username == value
      ensures displayName == old(displayName) && bio == old(bio) && avatarUrl == old(avatarUrl)
      ensures uploading == old(uploading) && selectedImage == old(selectedImage)
      ensures croppedArea == old(croppedArea) && showCropModal == old(showCropModal)
    {
      username := value;
    }

    /** The display-name input's `onChange`. */
    method SetDisplayName(value: string)
      modifies this
      ensures displayName == value
      ensures username == old(username) && bio == old(bio) && avatarUrl == old(avatarUrl)
      ensures uploading == old(uploading) && selectedImage == old(selectedImage)
      ensures croppedArea == old(croppedArea) && showCropModal == old(showCropModal)
    {
      displayName := value;
    }

    /** The bio textarea's `onChange`. */
    method SetBio(value: string)
      modifies this
      ensures bio == value
      ensures username == old(username) && displayName == old(displayName) && avatarUrl == old(avatarUrl)
      ensures uploading == old(uploading) && selectedImage == old(selectedImage)
      ensures croppedArea == old(croppedArea) && showCropModal == old(showCropModal)
    {
      bio := value;
    }

    /** `handleSave`: `updateError` is the update's error. Returns the
        update sent and the route navigated to. The editor's state is not
        changed. */
    method Save(user: Option<User>, updateError: Option<string>)
      returns (update: Option<ProfileUpdate>, notice: Option<Notice>, navigateTo: Option<string>)
      ensures user.None? ==> update.None? && notice.None? && navigateTo.None?
      ensures user.Some? ==> update == Some(ProfileUpdate(user.value.id, username, displayName, bio, avatarUrl))
      ensures navigateTo.Some? <==> user.Some? && updateError.None?
      ensures navigateTo.Some? ==> navigateTo.value == "/profile" && notice == Some(ProfileUpdated)
      ensures user.Some? && updateError.Some? ==> notice == Some(ProfileUpdateFailed)
    {
      if user.None? {
        return None, None, None;
      }
      update := Some(ProfileUpdate(user.value.id, username, displayName, bio, avatarUrl));
      if updateError.None? {
        notice := Some(ProfileUpdated);
        navigateTo := Some("/profile");
      } else {
        notice := Some(ProfileUpdateFailed);
        navigateTo := None;
      }
    }
  }

  /** Picking, cropping and confirming a photo on a fresh editor, then
      removing it: both calls use the user's one key, the avatar is the
      public URL in between and gone at the end, and the modal is closed. */
  method ReplaceThenRemove(user: User, dataUrl: string, area: CropArea, publicUrl: string)
    returns (uploadedTo: Option<string>, shown: Option<string>, removed: Option<string>, finalAvatar: Option<string>, modalOpen: bool)
    requires dataUrl != ""
    ensures uploadedTo == removed == Some(AvatarPath(user.id))
    ensures shown == Some(publicUrl)
    ensures finalAvatar == None && !modalOpen
  {
    var editor := new ProfileEditor();
    editor.AvatarChange(true, dataUrl);
    editor.CropComplete(area);
    var notice;
    uploadedTo, notice := editor.CropConfirm(Some(user), true, None, publicUrl);
    shown := editor.avatarUrl;
    removed, notice := editor.RemoveAvatar(Some(user));
    finalAvatar, modalOpen := editor.avatarUrl, editor.showCropModal;
  }

  /** Confirming before the cropper has reported an area does nothing: no
      upload, and the modal stays open on the picked image. */
  method ConfirmBeforeCropArea(user: User, dataUrl: string, publicUrl: string)
    returns (uploadedTo: Option<string>, modalOpen: bool, image: Option<string>)
    ensures uploadedTo.None? && modalOpen && image == Some(dataUrl)
  {
    var editor := new ProfileEditor();
    editor.AvatarChange(true, dataUrl);
    var notice;
    uploadedTo, notice := editor.CropConfirm(Some(user), true, None, publicUrl);
    modalOpen, image := editor.showCropModal, editor.selectedImage;
  }
}
