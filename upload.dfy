/** The upload page: choosing a file fills in a title, and the upload
    handler stores the file under `userId/timestamp.ext` and resets the
    form. */
module Upload {
  import opened Common

  /** The selected `File`: its name, MIME type and size in bytes. */
  datatype FileInfo = FileInfo(name: string, mimeType: string, size: nat)

  /** The toasts the page shows. */
  datatype Notice = MissingInformation | UploadSuccessful | UploadFailed(description: string)

  /** `toUpperCase` on one character, for the ASCII letters. */
  function UpperAscii(c: char): char
  {
    if 'a' <= c <= 'z' then (c as int - 32) as char else c
  }

  /** Lower-case ASCII letters become the letter at the same place of the
      upper-case alphabet, and every other character is kept. */
  lemma UpperAsciiAlphabet(c: char)
    ensures 'a' <= c <= 'z' ==> UpperAscii(c) == "ABCDEFGHIJKLMNOPQRSTUVWXYZ"[c as int - 'a' as int]
    ensures !('a' <= c <= 'z') ==> UpperAscii(c) == c
  {
    var upper := "ABCDEFGHIJKLMNOPQRSTUVWXYZ";
    if 'a' <= c <= 'z' {
      assert forall i :: 0 <= i < |upper| ==> upper[i] as int == 'A' as int + i;
    }
  }

  /** The title proposed for a file: the name up to its first `.`, with its
      first character upper-cased and the rest as it is. */
  function DerivedTitle(fileName: string): (r: string)
    ensures var stem := BeforeFirst(fileName, '.');
      |r| == |stem| && (stem != [] ==> r[0] == UpperAscii(stem[0]) && r[1..] == stem[1..])
    ensures '.' !in r
    ensures r == [] <==> fileName == [] || fileName[0] == '.'
  {
    var name := BeforeFirst(fileName, '.');
    if name == [] then [] else [UpperAscii(name[0])] + name[1..]
  }

  /** `file.name.split('.').pop()`: the text after the last `.`, or the
      whole name when there is none. */
  function Extension(fileName: string): (r: string)
    ensures '.' !in r && |r| <= |fileName| && r == fileName[|fileName| - |r|..]
    ensures '.' in fileName ==> |r| < |fileName| && fileName[|fileName| - |r| - 1] == '.'
    ensures '.' !in fileName ==> r == fileName
  {
    AfterLast(fileName, '.')
  }

  /** The storage key `userId/now.ext`. */
  function StoragePath(userId: string, now: nat, fileName: string): string
  {
    userId + "/" + NatToString(now) + "." + Extension(fileName)
  }

  /** The storage key reads back into the user, the timestamp and the
      extension, and its own extension is the file's. */
  lemma StoragePathRoundTrip(userId: string, now: nat, fileName: string)
    requires '/' !in userId
    ensures ParseOwnedKey(StoragePath(userId, now, fileName), '.') == Some((userId, now, Extension(fileName)))
    ensures AfterLast(StoragePath(userId, now, fileName), '.') == Extension(fileName)
  {
    var key := StoragePath(userId, now, fileName);
    assert key == OwnedKey(userId, now, '.', Extension(fileName));
    OwnedKeyRoundTrip(userId, now, '.', Extension(fileName));
    assert key == (userId + "/" + NatToString(now)) + ['.'] + Extension(fileName);
    AfterLastJoin(userId + "/" + NatToString(now), '.', Extension(fileName));
  }

  /** `error.message || "Something went wrong"`. */
  function FailureDescription(message: string): (r: string)
    ensures r != ""
    ensures message != "" ==> r == message
  {
    if message != "" then message else "Something went wrong"
  }

  /** The size label as written, `(file?.size || 0 / 1024 / 1024)`: the
      division binds to the `0` only, so the label is the size in bytes. */
  function SizeLabelAsWritten(file: Option<FileInfo>): (r: real)
    ensures r == (if file.Some? then file.value.size as real else 0.0)
  {
    if file.Some? && file.value.size != 0 then file.value.size as real else 0.0 / 1024.0 / 1024.0
  }

  /** The size label as intended, `((file?.size || 0) / 1024 / 1024)`:
      the size in megabytes. */
  function SizeInMegabytes(file: Option<FileInfo>): (r: real)
    ensures r * 1048576.0 == (if file.Some? then file.value.size as real else 0.0)
  {
    (if file.Some? then file.value.size as real else 0.0) / 1024.0 / 1024.0
  }

  /** A one-megabyte file is labelled 1048576 "MB" as written. */
  lemma SizeLabelMisreports()
    ensures var f := Some(FileInfo("clip.mp4", "video/mp4", 1048576));
      SizeLabelAsWritten(f) == 1048576.0 && SizeInMegabytes(f) == 1.0
  {
  }

  class UploadForm {
    var file: Option<FileInfo>
    var title: string
    var description: string
    var uploading: bool
    var preview: Option<string>

    /** Between handlers nothing is uploading, and a preview exists exactly
        when a file is selected. */
    ghost predicate Valid()
      reads this
    {
      !uploading && (file.Some? <==> preview.Some?)
    }

    /** The size shown under the preview, as the page computes it: the
        byte count, which is 1024 * 1024 times the megabytes it is labelled
        as. */
    function SizeShown(): (r: real)
      reads this
      ensures r == SizeLabelAsWritten(file)
      ensures r == SizeInMegabytes(file) * 1048576.0
      ensures r >= 0.0
    {
      SizeLabelAsWritten(file)
    }

    constructor ()
      ensures Valid()
      ensures file == None && title == "" && description == "" && preview == None && !uploading
    {
      file := None;
      title := "";
      description := "";
      uploading := false;
      preview := None;
    }

    /** `handleFileSelect`: `objectUrl` is what `URL.createObjectURL` gives. */
    method SelectFile(selected: Option<FileInfo>, objectUrl: string)
      requires Valid()
      modifies this
      ensures Valid()
      ensures selected == None ==> unchanged(this)
      ensures selected.Some? ==>
        && file == selected && preview == Some(objectUrl)
        && title == (if old(title) == "" then DerivedTitle(selected.value.name) else old(title))
        && description == old(description) && uploading == old(uploading)
    {
      if selected.Some? {
        file := selected;
        preview := Some(objectUrl);
        if title == "" {
          title := DerivedTitle(selected.value.name);
        }
      }
    }

    /** The title input's `onChange`. */
    method SetTitle(value: string)
      modifies this
      ensures title == value
      ensures file == old(file) && description == old(description) && uploading == old(uploading) && preview == old(preview)
    {
      title := value;
    }

    /** The description input's `onChange`. */
    method SetDescription(value: string)
      modifies this
      ensures description == value
      ensures file == old(file) && title == old(title) && uploading == old(uploading) && preview == old(preview)
    {
      description := value;
    }

    /** `handleUpload`: `now` is `Date.now()`, `storageError` the storage
        upload's error (its message). Returns the key the file was stored
        under, or None when no storage call was made. */
    method Upload(user: Option<User>, now: nat, storageError: Option<string>) returns (path: Option<string>, notice: Notice)
      requires Valid()
      modifies this
      ensures Valid()
      ensures path.None? <==> (old(file).None? || user.None? || Blank(old(title)))
      ensures path.None? ==> notice == MissingInformation && unchanged(this)
      ensures path.Some? ==> path.value == StoragePath(user.value.id, now, old(file).value.name)
      ensures path.Some? && storageError.None? ==>
        notice == UploadSuccessful && file == None && title == "" && description == "" && preview == None
      ensures path.Some? && storageError.Some? ==>
        && notice == UploadFailed(FailureDescription(storageError.value))
        && file == old(file) && title == old(title) && description == old(description) && preview == old(preview)
      ensures !uploading
    {
      var refused := file.None? || user.None? || Blank(title);
      if refused {
        return None, MissingInformation;
      }
      var key := StoragePath(user.value.id, now, file.value.name);
      path := Some(key);
      notice := Store(storageError);
    }

    /** The part of `handleUpload` after the guard: `storageError` is the
        storage upload's error. */
    method Store(storageError: Option<string>) returns (notice: Notice)
      requires Valid() && file.Some?
      modifies this
      ensures Valid()
      ensures storageError.None? ==>
        notice == UploadSuccessful && file == None && title == "" && description == "" && preview == None
      ensures storageError.Some? ==>
        && notice == UploadFailed(FailureDescription(storageError.value))
        && file == old(file) && title == old(title) && description == old(description) && preview == old(preview)
      ensures !uploading
    {
      uploading := true;
      if storageError.None? {
        notice := UploadSuccessful;
        file := None;
        title := "";
        description := "";
        preview := None;
      } else {
        notice := UploadFailed(FailureDescription(storageError.value));
      }
      uploading := false;
    }

    /** The Cancel button: the same reset as after a successful upload. */
    method Cancel()
      requires Valid()
      modifies this
      ensures Valid()
      ensures file == None && title == "" && description == "" && preview == None
      ensures uploading == old(uploading)
    {
      file := None;
      preview := None;
      title := "";
      description := "";
    }
  }

  /** Choosing a file on a fresh form, then uploading it, leaves the form as
      it started and stores the file under the user's key with the derived
      title having been used. */
  method SelectAndUpload(f: FileInfo, objectUrl: string, user: User, now: nat) returns (path: Option<string>, title: string, cleared: bool)
    requires !Blank(DerivedTitle(f.name))
    ensures title == DerivedTitle(f.name)
    ensures path == Some(StoragePath(user.id, now, f.name))
    ensures cleared
  {
    var form := new UploadForm();
    form.SelectFile(Some(f), objectUrl);
    title := form.title;
    var notice;
    path, notice := form.Upload(Some(user), now, None);
    cleared := form.file == None && form.title == "" && form.description == "" && form.preview == None && !form.uploading;
  }
}
