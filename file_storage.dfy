// FileStorageService: the checks `storeFile` makes on an uploaded image and
// the name it stores it under. The copy to disk is not part of this model;
// the random id is a parameter.
module FileStorage {
  import opened Wrappers
  import opened Text
  import opened JavaStrings
  import opened Errors

  /** What the service reads of a `MultipartFile`: its original name, content type and size. */
  datatype UploadedFile = UploadedFile(originalName: Option<string>, contentType: Option<string>, size: nat)

  predicate IsEmptyFile(f: UploadedFile)
  {
    f.size == 0
  }

  /** The lower-cased suffix from the last '.', or "" for a name without a dot. */
  function Extension(name: string): string
  {
    if '.' in name then ToLower(name[LastIndexOf(name, '.')..]) else ""
  }

  /** The extension is empty exactly without a dot; otherwise it starts with the only dot it holds, and is lower case. */
  lemma ExtensionMeaning(name: string)
    ensures Extension(name) == "" <==> '.' !in name
    ensures '.' in name ==>
              && |Extension(name)| >= 1 && Extension(name)[0] == '.'
              && (forall k :: 1 <= k < |Extension(name)| ==> Extension(name)[k] != '.')
              && |Extension(name)| <= |name|
              && ToLower(Extension(name)) == Extension(name)
  {
    if '.' in name {
      var i := LastIndexOf(name, '.');
      var tail := name[i..];
      assert forall k :: 1 <= k < |tail| ==> tail[k] == name[i + k];
      ToLowerIdempotent(tail);
    }
  }

  /** The four image types the pattern names, without and with their dot. */
  const ImageNames: set<string> := {"jpg", "jpeg", "png", "gif"}
  const ImageExtensions: set<string> := {".jpg", ".jpeg", ".png", ".gif"}

  const EmptyFileMessage := "Failed to store empty file."
  const InvalidTypeMessage := "Invalid file type: "
  const RelativePathMessage := "Cannot store file with relative path outside current directory "

  /** `fileExtension.matches(".(jpg|jpeg|png|gif)$")`: any one character, then one of the four names, and nothing more. */
  predicate MatchesImagePattern(ext: string)
  {
    |ext| >= 1 && ext[1..] in ImageNames
  }

  /** On an extension the test accepts exactly .jpg, .jpeg, .png and .gif; a name without a dot never passes. */
  lemma ImagePatternOnExtensions(name: string)
    ensures MatchesImagePattern(Extension(name)) <==> Extension(name) in ImageExtensions
    ensures '.' !in name ==> !MatchesImagePattern(Extension(name))
  {
    ExtensionMeaning(name);
    var e := Extension(name);
    if |e| >= 1 && e[0] == '.' {
      DottedImageName(e);
    }
  }

  /** A dotted extension is one of the four exactly when the part after the dot is one of the four names. */
  lemma DottedImageName(e: string)
    requires |e| >= 1 && e[0] == '.'
    ensures e in ImageExtensions <==> e[1..] in ImageNames
  {
    assert e == ['.'] + e[1..];
    assert ".jpg"[1..] == "jpg" && ".jpeg"[1..] == "jpeg" && ".png"[1..] == "png" && ".gif"[1..] == "gif";
    if e[1..] == "jpg" { assert e == ".jpg"; }
    if e[1..] == "jpeg" { assert e == ".jpeg"; }
    if e[1..] == "png" { assert e == ".png"; }
    if e[1..] == "gif" { assert e == ".gif"; }
  }

  /** Letter case in the extension does not matter: "photo.JPG" is stored as a ".jpg". */
  lemma UpperCaseExtensionExample()
    ensures Extension("photo.JPG") == ".jpg"
  {
    assert "photo.JPG"[5] == '.';
    assert LastIndexOf("photo.JPG", '.') == 5;
    assert "photo.JPG"[5..] == ".JPG";
  }

  /**
   * `storeFile`: an empty file, a type outside the four, and then a name
   * containing ".." are refused with a RuntimeException; otherwise the
   * stored name is the id followed by the extension.
   */
  function StoreFile(file: Option<UploadedFile>, id: string): Result<string, Exception>
  {
    if file.None? || IsEmptyFile(file.value) then Err(Exception(Runtime, EmptyFileMessage))
    else if file.value.originalName.None? then Err(Exception(NullPointer, "originalFilename"))
    else
      var name := file.value.originalName.value;
      var ext := Extension(name);
      if !MatchesImagePattern(ext) then Err(Exception(Runtime, InvalidTypeMessage + ext))
      else if Contains(name, "..") then
        Err(Exception(Runtime, RelativePathMessage + name))
      else Ok(id + ext)
  }

  /**
   * A file is stored exactly when it is non-empty, named, of one of the
   * four types and free of ".."; the name is then the id and the
   * extension, with no directory part when the id has none. A bad type is
   * reported before "..".
   */
  lemma StoreFileMeaning(file: Option<UploadedFile>, id: string)
    ensures StoreFile(file, id).Ok? <==>
              && file.Some? && !IsEmptyFile(file.value) && file.value.originalName.Some?
              && Extension(file.value.originalName.value) in ImageExtensions
              && !Contains(file.value.originalName.value, "..")
    ensures StoreFile(file, id).Ok? ==>
              && StoreFile(file, id).value == id + Extension(file.value.originalName.value)
              && ('/' !in id ==> '/' !in StoreFile(file, id).value)
    ensures StoreFile(file, id).Err? ==> StoreFile(file, id).error.kind in {Runtime, NullPointer}
  {
    if file.Some? && file.value.originalName.Some? {
      var name := file.value.originalName.value;
      ImagePatternOnExtensions(name);
      var e := Extension(name);
      if e in ImageExtensions {
        assert '/' !in e;
      }
    }
  }
}
