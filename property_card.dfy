// PropertyCard (frontend): the URL of a card's first image, read from the
// comma-separated `imageUrls` string the owner upload endpoint writes.
module PropertyCard {
  import opened Wrappers
  import opened Text
  import JavaStrings
  import OwnerPropertyController

  const ImageBase: string := "/uploads/"
  const Placeholder: string := "https://via.placeholder.com/400x250/cccccc/969696?text=No+Image+Available"

  /** The `imageUrls` member as JavaScript sees it: missing (or null), some other type, or a string. */
  datatype JsValue = Missing | NonString | Text(s: string)

  /** ECMAScript WhiteSpace and LineTerminator, the characters `String.prototype.trim` removes. */
  predicate IsJsSpace(c: char)
  {
    var n := c as int;
    (9 <= n <= 13) || n == 0x20 || n == 0xA0 || n == 0x1680 || (0x2000 <= n <= 0x200A)
    || n == 0x2028 || n == 0x2029 || n == 0x202F || n == 0x205F || n == 0x3000 || n == 0xFEFF
  }

  function JsTrimStart(s: string): string
    decreases |s|
  {
    if |s| > 0 && IsJsSpace(s[0]) then JsTrimStart(s[1..]) else s
  }

  function JsTrimEnd(s: string): string
    decreases |s|
  {
    if |s| > 0 && IsJsSpace(s[|s| - 1]) then JsTrimEnd(s[..|s| - 1]) else s
  }

  /** `String.prototype.trim`. */
  function JsTrim(s: string): string
  {
    JsTrimEnd(JsTrimStart(s))
  }

  /** A name `trim` leaves alone: no JavaScript white space at either end. */
  predicate JsTrimmed(s: string)
  {
    |s| == 0 || (!IsJsSpace(s[0]) && !IsJsSpace(s[|s| - 1]))
  }

  lemma JsTrimOfTrimmed(s: string)
    requires JsTrimmed(s)
    ensures JsTrim(s) == s
  {
  }

  /** `.map(name => name.trim()).filter(name => name)`: trim each piece and drop the empty ones. */
  function Clean(pieces: seq<string>): seq<string>
  {
    if pieces == [] then []
    else (if JsTrim(pieces[0]) == "" then [] else [JsTrim(pieces[0])]) + Clean(pieces[1..])
  }

  lemma {:induction false} CleanAppend(a: seq<string>, b: seq<string>)
    ensures Clean(a + b) == Clean(a) + Clean(b)
  {
    if a != [] {
      assert (a + b)[1..] == a[1..] + b;
      CleanAppend(a[1..], b);
    } else {
      assert a + b == b;
    }
  }

  /** Names that are non-empty and already trimmed pass through unchanged. */
  lemma {:induction false} CleanKeepsNames(names: seq<string>)
    requires forall i :: 0 <= i < |names| ==> names[i] != "" && JsTrimmed(names[i])
    ensures Clean(names) == names
  {
    if names != [] {
      JsTrimOfTrimmed(names[0]);
      CleanKeepsNames(names[1..]);
    }
  }

  /** The file names the card reads out of an `imageUrls` string. */
  function ImageNames(s: string): (names: seq<string>)
    ensures forall i :: 0 <= i < |names| ==> names[i] != ""
  {
    CleanNonEmpty(Split(s, OwnerPropertyController.Separator));
    Clean(Split(s, OwnerPropertyController.Separator))
  }

  lemma {:induction false} CleanNonEmpty(pieces: seq<string>)
    ensures forall i :: 0 <= i < |Clean(pieces)| ==> Clean(pieces)[i] != ""
  {
    if pieces != [] {
      CleanNonEmpty(pieces[1..]);
    }
  }

  /** The empty string holds no names. */
  lemma EmptyHasNoNames()
    ensures ImageNames("") == []
  {
    assert Split("", OwnerPropertyController.Separator) == [[]];
    assert JsTrim("") == "";
    assert Clean([[]]) == [] + Clean([]);
  }

  /** The card's image URL: "/uploads/" and the first name, or the placeholder when there is none. */
  function FirstImageUrl(imageUrls: JsValue): string
  {
    if imageUrls.Text? && imageUrls.s != "" && ImageNames(imageUrls.s) != [] then ImageBase + ImageNames(imageUrls.s)[0]
    else Placeholder
  }

  /**
   * The card as a whole: nothing for a missing property; otherwise an
   * image that is the placeholder or a file under "/uploads/".
   */
  function CardImage(property: Option<JsValue>): (r: Option<string>)
    ensures r.None? <==> property.None?
    ensures r.Some? ==> r.value == Placeholder || ImageBase < r.value
  {
    if property.None? then None else Some(FirstImageUrl(property.value))
  }

  /** A usable name gives "/uploads/" and the first name; otherwise the card shows the placeholder. */
  lemma FirstImageUrlMeaning(imageUrls: JsValue)
    ensures imageUrls.Text? && ImageNames(imageUrls.s) != [] ==>
              FirstImageUrl(imageUrls) == ImageBase + ImageNames(imageUrls.s)[0]
    ensures !(imageUrls.Text? && ImageNames(imageUrls.s) != []) ==> FirstImageUrl(imageUrls) == Placeholder
  {
    EmptyHasNoNames();
  }

  /**
   * Reading back what the upload endpoint writes: the card sees the names
   * it already saw in the old value (if that value was kept) followed by
   * the uploaded names, in order.
   */
  lemma ReadsWhatUploadWrites(existing: Option<string>, names: seq<string>)
    requires |names| >= 1
    requires forall i :: 0 <= i < |names| ==>
               names[i] != "" && JsTrimmed(names[i]) && OwnerPropertyController.Separator !in names[i]
    ensures ImageNames(OwnerPropertyController.NewImageUrls(existing, names)) ==
              (if existing.Some? && !JavaStrings.IsBlank(existing.value) then ImageNames(existing.value) else []) + names
  {
    OwnerPropertyController.NewImageUrlsMeaning(existing, names);
    CleanKeepsNames(names);
    var written := OwnerPropertyController.NewImageUrls(existing, names);
    if existing.Some? && !JavaStrings.IsBlank(existing.value) {
      CleanAppend(Split(existing.value, OwnerPropertyController.Separator), names);
      assert ImageNames(written) == Clean(Split(existing.value, OwnerPropertyController.Separator) + names);
    } else {
      assert Split(written, OwnerPropertyController.Separator) == names;
    }
  }

  /** After the first upload to a property with no images, the card shows the first uploaded file. */
  lemma FirstUploadShowsFirstName(existing: Option<string>, names: seq<string>)
    requires existing.None? || JavaStrings.IsBlank(existing.value)
    requires |names| >= 1
    requires forall i :: 0 <= i < |names| ==>
               names[i] != "" && JsTrimmed(names[i]) && OwnerPropertyController.Separator !in names[i]
    ensures FirstImageUrl(Text(OwnerPropertyController.NewImageUrls(existing, names))) == ImageBase + names[0]
  {
    ReadsWhatUploadWrites(existing, names);
    EmptyHasNoNames();
  }
}
